/** Counting and summing over sequences, and how one update changes the total.
    The protocol modules state their invariants with these two functions. */
module Counting {

  /** The number of elements of `s` that satisfy `p`. */
  ghost function Count<T>(s: seq<T>, p: T -> bool): (n: nat)
    ensures n <= |s|
  {
    if s == [] then 0 else Count(s[..|s| - 1], p) + (if p(s[|s| - 1]) then 1 else 0)
  }

  /** The sum of `f` over the elements of `s`. */
  ghost function Sum<T>(s: seq<T>, f: T -> int): int
  {
    if s == [] then 0 else Sum(s[..|s| - 1], f) + f(s[|s| - 1])
  }

  lemma CountPush<T>(s: seq<T>, x: T, p: T -> bool)
    ensures Count(s + [x], p) == Count(s, p) + (if p(x) then 1 else 0)
  {
    assert (s + [x])[..|s|] == s;
  }

  lemma {:induction false} CountUpdate<T>(s: seq<T>, i: nat, v: T, p: T -> bool)
    requires i < |s|
    ensures Count(s[i := v], p) == Count(s, p) - (if p(s[i]) then 1 else 0) + (if p(v) then 1 else 0)
  {
    var n := |s| - 1;
    if i == n {
      assert s[i := v][..n] == s[..n];
    } else {
      assert s[i := v][..n] == s[..n][i := v];
      CountUpdate(s[..n], i, v, p);
    }
  }

  lemma {:induction false} CountExtremes<T>(s: seq<T>, p: T -> bool)
    ensures Count(s, p) == |s| <==> forall i :: 0 <= i < |s| ==> p(s[i])
    ensures Count(s, p) == 0 <==> forall i :: 0 <= i < |s| ==> !p(s[i])
  {
    if s != [] {
      var n := |s| - 1;
      CountExtremes(s[..n], p);
      assert forall i :: 0 <= i < n ==> s[..n][i] == s[i];
    }
  }

  /** A count below the length leaves an element outside the predicate. */
  lemma CountMisses<T>(s: seq<T>, p: T -> bool) returns (i: nat)
    requires Count(s, p) < |s|
    ensures i < |s| && !p(s[i])
  {
    CountExtremes(s, p);
    i :| 0 <= i < |s| && !p(s[i]);
  }

  lemma {:induction false} SumUpdate<T>(s: seq<T>, i: nat, v: T, f: T -> int)
    requires i < |s|
    ensures Sum(s[i := v], f) == Sum(s, f) - f(s[i]) + f(v)
  {
    var n := |s| - 1;
    if i == n {
      assert s[i := v][..n] == s[..n];
    } else {
      assert s[i := v][..n] == s[..n][i := v];
      SumUpdate(s[..n], i, v, f);
    }
  }

  /** When every element but the one at `t` may be missing, `|s| - 1` hits leave none missing. */
  lemma CountAllBut<T>(s: seq<T>, t: nat, p: T -> bool)
    requires t < |s| && !p(s[t]) && Count(s, p) == |s| - 1
    ensures forall u :: 0 <= u < |s| && u != t ==> p(s[u])
  {
    forall u | 0 <= u < |s| && u != t
      ensures p(s[u])
    {
      if !p(s[u]) { TwoMisses(s, t, u, p); }
    }
  }

  lemma {:induction false} TwoMisses<T>(s: seq<T>, t: nat, u: nat, p: T -> bool)
    requires t < |s| && u < |s| && t != u && !p(s[t]) && !p(s[u])
    ensures Count(s, p) <= |s| - 2
  {
    var n := |s| - 1;
    if t == n {
      CountExtremes(s[..n], p);
      assert !p(s[..n][u]);
    } else if u == n {
      CountExtremes(s[..n], p);
      assert !p(s[..n][t]);
    } else {
      TwoMisses(s[..n], t, u, p);
    }
  }

  /** A sum of terms bounded by `hi` reaches `|s| * hi` only when every term does. */
  lemma {:induction false} SumAtMost<T>(s: seq<T>, f: T -> int, hi: int)
    requires forall x :: x in s ==> f(x) <= hi
    ensures Sum(s, f) <= |s| * hi
    ensures Sum(s, f) == |s| * hi <==> forall x :: x in s ==> f(x) == hi
  {
    if s != [] {
      var n := |s| - 1;
      var pre, last := s[..n], s[n];
      assert s == pre + [last];
      SumAtMost(pre, f, hi);
      OneMore(n, hi);
    }
  }

  lemma OneMore(n: nat, hi: int)
    ensures (n + 1) * hi == n * hi + hi
  {
  }

  lemma {:induction false} SumAtLeastZero<T>(s: seq<T>, f: T -> int)
    requires forall x :: x in s ==> f(x) >= 0
    ensures Sum(s, f) >= 0
    ensures Sum(s, f) == 0 <==> forall x :: x in s ==> f(x) == 0
  {
    if s != [] {
      var n := |s| - 1;
      var pre, last := s[..n], s[n];
      assert s == pre + [last];
      SumAtLeastZero(pre, f);
    }
  }

  lemma {:induction false} CountConcat<T>(a: seq<T>, b: seq<T>, p: T -> bool)
    ensures Count(a + b, p) == Count(a, p) + Count(b, p)
  {
    if b == [] {
      assert a + b == a;
    } else {
      var n := |b| - 1;
      assert (a + b)[..|a + b| - 1] == a + b[..n];
      CountConcat(a, b[..n], p);
    }
  }

  lemma {:induction false} CountRemove<T>(s: seq<T>, i: nat, p: T -> bool)
    requires i < |s|
    ensures Count(s[..i] + s[i + 1..], p) == Count(s, p) - (if p(s[i]) then 1 else 0)
  {
    var n := |s| - 1;
    if i == n {
      assert s[..i] + s[i + 1..] == s[..n];
    } else {
      var pre := s[..n];
      CountRemove(pre, i, p);
      assert s[..i] + s[i + 1..] == pre[..i] + pre[i + 1..] + [s[n]];
      CountPush(pre[..i] + pre[i + 1..], s[n], p);
    }
  }
}
