/** The benchmarks' on-line statistics, over exact reals: one pass, merging, and the reduction over ranks. */
module Accumulator {

  type Positive = r: real | r > 0.0 witness 1.0

  /** The largest finite double; only its sign matters here. */
  const TOP: Positive

  /** The smallest normal positive double, which is what the maximum starts from; only its sign matters here. */
  const TINY: Positive

  function Sum(xs: seq<real>): real
  {
    if |xs| == 0 then 0.0 else Sum(xs[..|xs| - 1]) + xs[|xs| - 1]
  }

  function Square(x: real): real { x * x }

  /** The sum of squared distances from a point. */
  function Spread(xs: seq<real>, m: real): real
  {
    if |xs| == 0 then 0.0 else Spread(xs[..|xs| - 1], m) + Square(xs[|xs| - 1] - m)
  }

  predicate IsLeast(m: real, xs: seq<real>)
  {
    && (|xs| == 0 ==> m == TOP)
    && (|xs| > 0 ==> m in xs)
    && (forall x | x in xs :: m <= x)
  }

  predicate IsGreatest(m: real, xs: seq<real>)
  {
    m in xs && forall x | x in xs :: x <= m
  }

  /** The greatest of the samples and the start value. */
  predicate IsFlooredGreatest(m: real, xs: seq<real>)
  {
    && (m == TINY || m in xs)
    && TINY <= m
    && (forall x | x in xs :: x <= m)
  }

  /** A number taken `n` times. */
  function Scaled(n: nat, x: real): real
  {
    if n == 0 then 0.0 else Scaled(n - 1, x) + x
  }

  lemma {:induction false} ScaledIsProduct(n: nat, x: real)
    ensures Scaled(n, x) == n as real * x
  {
    if n > 0 {
      ScaledIsProduct(n - 1, x);
      assert n as real == (n - 1) as real + 1.0;
      assert ((n - 1) as real + 1.0) * x == (n - 1) as real * x + x;
    }
  }

  /** A statistic of some samples: mean and sum of squared deviations. */
  predicate Describes(xs: seq<real>, mean: real, m2: real)
  {
    && Scaled(|xs|, mean) == Sum(xs)
    && (|xs| == 0 ==> mean == 0.0)
    && m2 == Spread(xs, mean)
  }

  function Lower(a: real, b: real): real { if b < a then b else a }

  function Higher(a: real, b: real): real { if a < b then b else a }

  /** The mean after one more sample. */
  function NextMean(n: nat, mean: real, x: real): real
  {
    mean + (x - mean) / (n + 1) as real
  }

  /** What one more sample adds to the squared deviations. */
  function NextDeviation(n: nat, mean: real, x: real): real
  {
    (x - mean) * (x - NextMean(n, mean, x))
  }

  /** The mean of two sets of samples. */
  function JointMean(n: nat, mean: real, k: nat, mean2: real): real
    requires n + k > 0
  {
    mean + (mean2 - mean) * k as real / (n + k) as real
  }

  /** What the distance of two means adds to the squared deviations. */
  function JointDeviation(n: nat, mean: real, k: nat, mean2: real): real
    requires n + k > 0
  {
    (mean2 - mean) * (mean2 - mean) * n as real * k as real / (n + k) as real
  }

  predicate Finite(xs: seq<real>) { forall x | x in xs :: x <= TOP }

  function Flatten(xss: seq<seq<real>>): seq<real>
  {
    if |xss| == 0 then [] else Flatten(xss[..|xss| - 1]) + xss[|xss| - 1]
  }

  // ---- algebra ----

  lemma SumPush(xs: seq<real>, x: real)
    ensures Sum(xs + [x]) == Sum(xs) + x
  {
    assert (xs + [x])[..|xs|] == xs;
  }

  lemma SpreadPush(xs: seq<real>, x: real, m: real)
    ensures Spread(xs + [x], m) == Spread(xs, m) + Square(x - m)
  {
    assert (xs + [x])[..|xs|] == xs;
  }

  lemma {:induction false} SumConcat(xs: seq<real>, ys: seq<real>)
    ensures Sum(xs + ys) == Sum(xs) + Sum(ys)
  {
    if |ys| == 0 {
      assert xs + ys == xs;
    } else {
      var k := |ys| - 1;
      SumConcat(xs, ys[..k]);
      SumPush(xs + ys[..k], ys[k]);
      assert xs + ys == xs + ys[..k] + [ys[k]];
    }
  }

  lemma {:induction false} SpreadConcat(xs: seq<real>, ys: seq<real>, m: real)
    ensures Spread(xs + ys, m) == Spread(xs, m) + Spread(ys, m)
  {
    if |ys| == 0 {
      assert xs + ys == xs;
    } else {
      var k := |ys| - 1;
      SpreadConcat(xs, ys[..k], m);
      SpreadPush(xs + ys[..k], ys[k], m);
      assert xs + ys == xs + ys[..k] + [ys[k]];
    }
  }

  lemma SquareShift(x: real, m: real, a: real)
    ensures Square(x - a) == Square(x - m) + 2.0 * (m - a) * (x - m) + Square(m - a)
  {
  }

  /** The cross terms of the binomial formula. */
  function Crossed(xs: seq<real>, m: real, p: real): real
  {
    if |xs| == 0 then 0.0 else Crossed(xs[..|xs| - 1], m, p) + p * (xs[|xs| - 1] - m)
  }

  lemma CrossStep(p: real, z: real, y: real)
    ensures p * (z + y) == p * z + p * y
  {
  }

  lemma {:induction false} CrossedIsProduct(xs: seq<real>, m: real, p: real)
    ensures Crossed(xs, m, p) == p * (Sum(xs) - Scaled(|xs|, m))
  {
    if |xs| > 0 {
      var k := |xs| - 1;
      CrossedIsProduct(xs[..k], m, p);
      CrossStep(p, Sum(xs[..k]) - Scaled(k, m), xs[k] - m);
      assert Sum(xs) - Scaled(|xs|, m) == Sum(xs[..k]) - Scaled(k, m) + (xs[k] - m);
    }
  }

  /** Squared distances about another point, in terms of those about this one. */
  lemma {:induction false} SpreadShift(xs: seq<real>, m: real, a: real)
    ensures Spread(xs, a) == Spread(xs, m) + Crossed(xs, m, 2.0 * (m - a)) + Scaled(|xs|, Square(m - a))
  {
    if |xs| > 0 {
      var k := |xs| - 1;
      SpreadShift(xs[..k], m, a);
      SquareShift(xs[k], m, a);
    }
  }

  lemma ZeroFactor(p: real, z: real)
    requires z == 0.0
    ensures p * z == 0.0
  {
  }

  /** About its own mean only the last term is left. */
  lemma SpreadFromMean(xs: seq<real>, m: real, a: real)
    requires Scaled(|xs|, m) == Sum(xs)
    ensures Spread(xs, a) == Spread(xs, m) + Scaled(|xs|, Square(m - a))
  {
    SpreadShift(xs, m, a);
    CrossedIsProduct(xs, m, 2.0 * (m - a));
    ZeroFactor(2.0 * (m - a), Sum(xs) - Scaled(|xs|, m));
  }

  lemma QuotientOf(t: real, q: real, p: real)
    requires t > 0.0 && t * q == p
    ensures p / t == q
  {
  }

  lemma Negated(v: real)
    ensures Square(-v) == Square(v)
  {
  }

  /** With `e` a share `delta / (n + 1)`: the correction of the one-pass update. */
  lemma PushAlgebra(n: real, e: real)
    ensures n * (e * e) + (n * e) * (n * e) == ((n + 1.0) * e) * (n * e)
  {
    assert ((n + 1.0) * e) * (n * e) == (n * e + e) * (n * e);
    assert (n * e + e) * (n * e) == (n * e) * (n * e) + e * (n * e);
    assert e * (n * e) == n * (e * e);
  }

  lemma PushMean(k: real, mean: real, e: real, x: real)
    requires (k + 1.0) * e == x - mean
    ensures (k + 1.0) * (mean + e) == k * mean + x
    ensures x - (mean + e) == k * e && mean - (mean + e) == -e
  {
    assert (k + 1.0) * e == k * e + e;
    assert (k + 1.0) * (mean + e) == k * mean + mean + (k + 1.0) * e;
  }

  lemma PushReals(k: real, mean: real, x: real, t: real, mean': real)
    requires k >= 0.0 && t == k + 1.0 && mean' == mean + (x - mean) / t
    ensures t * mean' == k * mean + x
    ensures k * Square(mean - mean') + Square(x - mean') == (x - mean) * (x - mean')
  {
    var e := (x - mean) / t;
    PushMean(k, mean, e, x);
    PushAlgebra(k, e);
    Negated(e);
  }

  lemma PushFacts(n: nat, mean: real, x: real, mean': real)
    requires mean' == NextMean(n, mean, x)
    ensures Scaled(n + 1, mean') == Scaled(n, mean) + x
    ensures Scaled(n, Square(mean - mean')) + Square(x - mean') == NextDeviation(n, mean, x)
  {
    ScaledIsProduct(n, mean);
    ScaledIsProduct(n + 1, mean');
    ScaledIsProduct(n, Square(mean - mean'));
    PushReals(n as real, mean, x, (n + 1) as real, mean');
  }

  lemma PushDescribesFor(xs: seq<real>, mean: real, m2: real, x: real, mean': real, c: real)
    requires Describes(xs, mean, m2)
    requires Scaled(|xs| + 1, mean') == Scaled(|xs|, mean) + x
    requires Scaled(|xs|, Square(mean - mean')) + Square(x - mean') == c
    ensures Describes(xs + [x], mean', m2 + c)
  {
    SumPush(xs, x);
    SpreadPush(xs, x, mean');
    SpreadFromMean(xs, mean, mean');
  }

  /** The one-pass update is right for one more sample. */
  lemma PushDescribes(xs: seq<real>, mean: real, m2: real, x: real)
    requires Describes(xs, mean, m2)
    ensures Describes(xs + [x], NextMean(|xs|, mean, x), m2 + NextDeviation(|xs|, mean, x))
  {
    var mean' := NextMean(|xs|, mean, x);
    PushFacts(|xs|, mean, x, mean');
    PushDescribesFor(xs, mean, m2, x, mean', NextDeviation(|xs|, mean, x));
  }

  /** With `w` the distance of two means over `t = n + k`: the correction of the merge. */
  lemma MergeAlgebra(n: real, k: real, w: real, t: real)
    requires t == n + k
    ensures n * Square(k * w) + k * Square(n * w) == (t * w) * w * n * k
  {
    var u := w * w * n * k;
    assert n * Square(k * w) == k * u;
    assert k * Square(n * w) == n * u;
    assert (t * w) * w * n * k == t * u;
    assert t * u == n * u + k * u;
  }

  lemma MergeQuotient(d: real, n: real, k: real, w: real, t: real)
    requires t > 0.0 && t * w == d
    ensures d * k / t == k * w
    ensures d * d * n * k / t == (t * w) * w * n * k
  {
    assert t * (k * w) == d * k;
    QuotientOf(t, k * w, d * k);
    assert t * (d * w * n * k) == d * d * n * k;
    QuotientOf(t, d * w * n * k, d * d * n * k);
  }

  lemma MergeMean(n: real, k: real, mean: real, mean2: real, w: real, t: real)
    requires t == n + k && t * w == mean2 - mean
    ensures t * (mean + k * w) == n * mean + k * mean2
    ensures mean2 - (mean + k * w) == n * w && mean - (mean + k * w) == -(k * w)
  {
    assert t * (mean + k * w) == t * mean + k * (t * w);
    assert t * w == n * w + k * w;
    assert t * mean == n * mean + k * mean;
    assert k * (t * w) == k * mean2 - k * mean;
  }

  lemma MergeReals(n: real, k: real, mean: real, mean2: real, t: real, mean': real, c: real)
    requires n > 0.0 && k > 0.0 && t == n + k
    requires mean' == mean + (mean2 - mean) * k / t
    requires c == (mean2 - mean) * (mean2 - mean) * n * k / t
    ensures t * mean' == n * mean + k * mean2
    ensures n * Square(mean - mean') + k * Square(mean2 - mean') == c
  {
    var d := mean2 - mean;
    var w := d / t;
    MergeQuotient(d, n, k, w, t);
    MergeMean(n, k, mean, mean2, w, t);
    MergeAlgebra(n, k, w, t);
    Negated(k * w);
  }

  lemma MergeInScaled(n: nat, mean: real, k: nat, mean2: real, mean': real, c: real)
    requires (n + k) as real * mean' == n as real * mean + k as real * mean2
    requires n as real * Square(mean - mean') + k as real * Square(mean2 - mean') == c
    ensures Scaled(n + k, mean') == Scaled(n, mean) + Scaled(k, mean2)
    ensures Scaled(n, Square(mean - mean')) + Scaled(k, Square(mean2 - mean')) == c
  {
    ScaledIsProduct(n, mean);
    ScaledIsProduct(k, mean2);
    ScaledIsProduct(n + k, mean');
    ScaledIsProduct(n, Square(mean - mean'));
    ScaledIsProduct(k, Square(mean2 - mean'));
  }

  lemma MergeFacts(n: nat, mean: real, k: nat, mean2: real, mean': real, c: real)
    requires n > 0 && k > 0 && mean' == JointMean(n, mean, k, mean2) && c == JointDeviation(n, mean, k, mean2)
    ensures Scaled(n + k, mean') == Scaled(n, mean) + Scaled(k, mean2)
    ensures Scaled(n, Square(mean - mean')) + Scaled(k, Square(mean2 - mean')) == c
  {
    MergeReals(n as real, k as real, mean, mean2, (n + k) as real, mean', c);
    MergeInScaled(n, mean, k, mean2, mean', c);
  }

  lemma MergeDescribesFor(xs: seq<real>, mean: real, m2: real, ys: seq<real>, mean2: real, m22: real,
                          mean': real, c: real)
    requires Describes(xs, mean, m2) && Describes(ys, mean2, m22) && |xs| > 0
    requires Scaled(|xs| + |ys|, mean') == Scaled(|xs|, mean) + Scaled(|ys|, mean2)
    requires Scaled(|xs|, Square(mean - mean')) + Scaled(|ys|, Square(mean2 - mean')) == c
    ensures Describes(xs + ys, mean', m2 + (m22 + c))
  {
    SumConcat(xs, ys);
    SpreadConcat(xs, ys, mean');
    SpreadFromMean(xs, mean, mean');
    SpreadFromMean(ys, mean2, mean');
  }

  /** The merge is right for the samples of both. */
  lemma MergeDescribes(xs: seq<real>, mean: real, m2: real, ys: seq<real>, mean2: real, m22: real)
    requires Describes(xs, mean, m2) && Describes(ys, mean2, m22) && |xs| > 0 && |ys| > 0
    ensures Describes(xs + ys, JointMean(|xs|, mean, |ys|, mean2), m2 + (m22 + JointDeviation(|xs|, mean, |ys|, mean2)))
  {
    var mean' := JointMean(|xs|, mean, |ys|, mean2);
    var c := JointDeviation(|xs|, mean, |ys|, mean2);
    MergeFacts(|xs|, mean, |ys|, mean2, mean', c);
    MergeDescribesFor(xs, mean, m2, ys, mean2, m22, mean', c);
  }

  lemma LeastConcat(m1: real, xs: seq<real>, m2: real, ys: seq<real>)
    requires IsLeast(m1, xs) && IsLeast(m2, ys) && |ys| > 0 && (|xs| == 0 ==> m2 <= TOP)
    ensures IsLeast(Lower(m1, m2), xs + ys)
  {
  }

  lemma GreatestConcat(m1: real, xs: seq<real>, m2: real, ys: seq<real>)
    requires IsFlooredGreatest(m1, xs) && (m2 == TINY || m2 in ys) && forall y | y in ys :: y <= m2
    ensures IsFlooredGreatest(Higher(m1, m2), xs + ys)
  {
  }

  // ---- what the operations compute ----

  datatype Stats = Stats(numSamples: nat, least: real, greatest: real, mean: real, deviation: real)

  const EMPTY: Stats := Stats(0, TOP, TINY, 0.0, 0.0)

  /** The statistics stand for exactly these samples. */
  predicate Holds(s: Stats, xs: seq<real>)
  {
    && s.numSamples == |xs|
    && Describes(xs, s.mean, s.deviation)
    && IsLeast(s.least, xs)
    && IsFlooredGreatest(s.greatest, xs)
  }

  function Added(s: Stats, x: real): Stats
  {
    Stats(s.numSamples + 1, Lower(s.least, x), Higher(s.greatest, x), NextMean(s.numSamples, s.mean, x),
          s.deviation + NextDeviation(s.numSamples, s.mean, x))
  }

  function AddedAll(s: Stats, xs: seq<real>): Stats
  {
    if |xs| == 0 then s else Added(AddedAll(s, xs[..|xs| - 1]), xs[|xs| - 1])
  }

  function Merged(s: Stats, t: Stats): Stats
  {
    if t.numSamples == 0 then s
    else if s.numSamples == 0 then t
    else Stats(s.numSamples + t.numSamples, Lower(s.least, t.least), Higher(s.greatest, t.greatest),
               JointMean(s.numSamples, s.mean, t.numSamples, t.mean),
               s.deviation + (t.deviation + JointDeviation(s.numSamples, s.mean, t.numSamples, t.mean)))
  }

  function MergedAll(ts: seq<Stats>): Stats
  {
    if |ts| == 0 then EMPTY else Merged(MergedAll(ts[..|ts| - 1]), ts[|ts| - 1])
  }

  lemma AddedHolds(s: Stats, xs: seq<real>, x: real)
    requires Holds(s, xs) && x <= TOP
    ensures Holds(Added(s, x), xs + [x])
  {
    PushDescribes(xs, s.mean, s.deviation, x);
    LeastConcat(s.least, xs, x, [x]);
    GreatestConcat(s.greatest, xs, x, [x]);
  }

  /** One pass over the samples leaves exactly their statistics. */
  lemma {:induction false} OnePassHolds(xs: seq<real>)
    requires Finite(xs)
    ensures Holds(AddedAll(EMPTY, xs), xs)
  {
    if |xs| > 0 {
      var k := |xs| - 1;
      assert forall x | x in xs[..k] :: x in xs;
      assert xs[k] in xs;
      OnePassHolds(xs[..k]);
      AddedHolds(AddedAll(EMPTY, xs[..k]), xs[..k], xs[k]);
      assert xs[..k] + [xs[k]] == xs;
    }
  }

  /** Merging leaves exactly the statistics of both sets of samples. */
  lemma MergedHolds(s: Stats, xs: seq<real>, t: Stats, ys: seq<real>)
    requires Holds(s, xs) && Holds(t, ys)
    ensures Holds(Merged(s, t), xs + ys)
  {
    if |ys| == 0 {
      assert xs + ys == xs;
    } else if |xs| == 0 {
      assert xs + ys == ys;
    } else {
      MergeDescribes(xs, s.mean, s.deviation, ys, t.mean, t.deviation);
      LeastConcat(s.least, xs, t.least, ys);
      GreatestConcat(s.greatest, xs, t.greatest, ys);
    }
  }

  lemma MeanUnique(xs: seq<real>, a: real, b: real)
    requires |xs| > 0 && |xs| as real * a == Sum(xs) == |xs| as real * b
    ensures a == b
  {
    QuotientOf(|xs| as real, a, Sum(xs));
    QuotientOf(|xs| as real, b, Sum(xs));
  }

  /** Samples determine their statistics, so any two ways of accumulating them agree in every field. */
  lemma StatisticsUnique(s: Stats, t: Stats, xs: seq<real>)
    requires Holds(s, xs) && Holds(t, xs)
    ensures s == t
  {
    if |xs| > 0 {
      ScaledIsProduct(|xs|, s.mean);
      ScaledIsProduct(|xs|, t.mean);
      MeanUnique(xs, s.mean, t.mean);
    }
    assert s.greatest == t.greatest;
    assert s.least == t.least;
  }

  /** Merging two accumulators is the same as having seen the samples of both in one pass. */
  lemma MergeIsOnePass(xs: seq<real>, ys: seq<real>)
    requires Finite(xs) && Finite(ys)
    ensures Merged(AddedAll(EMPTY, xs), AddedAll(EMPTY, ys)) == AddedAll(EMPTY, xs + ys)
  {
    OnePassHolds(xs);
    OnePassHolds(ys);
    OnePassHolds(xs + ys);
    MergedHolds(AddedAll(EMPTY, xs), xs, AddedAll(EMPTY, ys), ys);
    StatisticsUnique(Merged(AddedAll(EMPTY, xs), AddedAll(EMPTY, ys)), AddedAll(EMPTY, xs + ys), xs + ys);
  }

  /** The ranks' accumulators, each after its own samples. */
  function Ranks(samples: seq<seq<real>>): (ts: seq<Stats>)
    ensures |ts| == |samples|
  {
    seq(|samples|, i requires 0 <= i < |samples| => AddedAll(EMPTY, samples[i]))
  }

  lemma {:induction false} FlattenFinite(samples: seq<seq<real>>)
    requires forall i | 0 <= i < |samples| :: Finite(samples[i])
    ensures Finite(Flatten(samples))
  {
    if |samples| > 0 {
      FlattenFinite(samples[..|samples| - 1]);
    }
  }

  /** The reduction over ranks is one pass over all samples of all ranks. */
  lemma {:induction false} ReduceIsOnePass(samples: seq<seq<real>>)
    requires forall i | 0 <= i < |samples| :: Finite(samples[i])
    ensures MergedAll(Ranks(samples)) == AddedAll(EMPTY, Flatten(samples))
  {
    if |samples| > 0 {
      var k := |samples| - 1;
      ReduceIsOnePass(samples[..k]);
      FlattenFinite(samples[..k]);
      MergeIsOnePass(Flatten(samples[..k]), samples[k]);
      assert Ranks(samples)[..k] == Ranks(samples[..k]);
    }
  }

  /** The stored maximum is the samples' maximum exactly when some sample reaches the start value. */
  lemma MaximumExact(xs: seq<real>)
    requires Finite(xs) && |xs| > 0
    ensures IsGreatest(AddedAll(EMPTY, xs).greatest, xs) <==> exists x | x in xs :: x >= TINY
  {
    OnePassHolds(xs);
  }

  /** Negative samples leave the start value standing as their maximum. */
  lemma NegativeMaximum()
    ensures AddedAll(EMPTY, [-1.0]).greatest > 0.0
  {
    OnePassHolds([-1.0]);
  }

  function Variance(s: Stats): real
  {
    if s.numSamples > 1 then s.deviation / (s.numSamples - 1) as real else 0.0
  }

  /** The reported variance is the unbiased sample variance about the true mean, zero below two samples. */
  lemma VarianceUnbiased(s: Stats, xs: seq<real>)
    requires Holds(s, xs)
    ensures |xs| > 1 ==> Variance(s) * (|xs| - 1) as real == Spread(xs, Sum(xs) / |xs| as real)
    ensures |xs| <= 1 ==> Variance(s) == 0.0
  {
    if |xs| > 1 {
      ScaledIsProduct(|xs|, s.mean);
      QuotientOf(|xs| as real, s.mean, Sum(xs));
    }
  }

  /** The arithmetic of one more sample: the new mean and the extra deviation. */
  method NextUpdate(n: nat, mean: real, sample: real) returns (mean': real, extra: real)
    ensures mean' == NextMean(n, mean, sample) && extra == NextDeviation(n, mean, sample)
  {
    var delta := sample - mean;
    mean' := mean + delta / (n + 1) as real;
    extra := delta * (sample - mean');
  }

  /** The arithmetic of the merge: the shift of the mean and the extra deviation. */
  method JointUpdate(n: nat, mean: real, k: nat, mean2: real) returns (shift: real, extra: real)
    requires n + k > 0
    ensures mean + shift == JointMean(n, mean, k, mean2) && extra == JointDeviation(n, mean, k, mean2)
  {
    var delta := mean2 - mean;
    var total := n + k;
    shift := delta * k as real / total as real;
    extra := delta * delta * n as real * k as real / total as real;
  }

  // ---- the accumulator ----

  class Accumulator {
    var numSamples: nat
    var least: real
    var greatest: real
    var mean: real
    var deviation: real

    function State(): Stats
      reads this
    {
      Stats(numSamples, least, greatest, mean, deviation)
    }

    constructor ()
      ensures State() == EMPTY
    {
      numSamples, least, greatest, mean, deviation := 0, TOP, TINY, 0.0, 0.0;
    }

    method Add(sample: real)
      modifies this
      ensures State() == Added(old(State()), sample)
    {
      least := if sample < least then sample else least;
      greatest := if greatest < sample then sample else greatest;
      var mean', extra := NextUpdate(numSamples, mean, sample);
      numSamples := numSamples + 1;
      mean := mean';
      deviation := deviation + extra;
    }

    method AddAll(samples: seq<real>)
      modifies this
      ensures State() == AddedAll(old(State()), samples)
    {
      for i := 0 to |samples|
        invariant State() == AddedAll(old(State()), samples[..i])
      {
        Add(samples[i]);
        assert samples[..i + 1][..i] == samples[..i];
      }
      assert samples[..|samples|] == samples;
    }

    /** Takes in another accumulator, or itself. */
    method Merge(other: Accumulator)
      modifies this
      ensures State() == Merged(old(State()), old(other.State()))
    {
      if other.numSamples == 0 {
        return;
      }
      if numSamples == 0 {
        numSamples, least, greatest := other.numSamples, other.least, other.greatest;
        mean, deviation := other.mean, other.deviation;
        return;
      }
      least := if other.least < least then other.least else least;
      greatest := if greatest < other.greatest then other.greatest else greatest;
      var shift, extra := JointUpdate(numSamples, mean, other.numSamples, other.mean);
      mean := mean + shift;
      deviation := deviation + (other.deviation + extra);
      numSamples := numSamples + other.numSamples;
    }
  }

  /** Rank 0's fold over the gathered accumulators, when each rank has accumulated its own samples. */
  method Reduce(accs: seq<Accumulator>, ghost samples: seq<seq<real>>) returns (all: Accumulator)
    requires |accs| == |samples| && forall i | 0 <= i < |accs| :: Finite(samples[i])
    requires forall i | 0 <= i < |accs| :: accs[i].State() == AddedAll(EMPTY, samples[i])
    ensures fresh(all) && Holds(all.State(), Flatten(samples))
  {
    all := new Accumulator();
    ghost var ranks := Ranks(samples);
    for i := 0 to |accs|
      invariant fresh(all) && all.State() == MergedAll(ranks[..i])
      invariant forall j | 0 <= j < |accs| :: accs[j].State() == ranks[j]
    {
      all.Merge(accs[i]);
      assert ranks[..i + 1][..i] == ranks[..i];
    }
    assert ranks[..|accs|] == ranks;
    ReduceIsOnePass(samples);
    FlattenFinite(samples);
    OnePassHolds(Flatten(samples));
  }
}
