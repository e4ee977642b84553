/** How often a number occurs in a sequence, and how queue operations change that. */
module Occurrences {

  ghost function Occ(q: seq<nat>, id: nat): nat
  {
    if q == [] then 0 else
      var n := |q| - 1;
      Occ(q[..n], id) + (if q[n] == id then 1 else 0)
  }

  lemma OccAppend(q: seq<nat>, x: nat, id: nat)
    ensures Occ(q + [x], id) == Occ(q, id) + (if x == id then 1 else 0)
  {
    assert (q + [x])[..|q|] == q;
  }

  lemma {:induction false} OccConcat(a: seq<nat>, b: seq<nat>, id: nat)
    ensures Occ(a + b, id) == Occ(a, id) + Occ(b, id)
  {
    if b == [] {
      assert a + b == a;
    } else {
      var n := |b| - 1;
      assert (a + b)[..|a + b| - 1] == a + b[..n];
      OccConcat(a, b[..n], id);
    }
  }

  lemma {:induction false} OccMember(q: seq<nat>, id: nat)
    ensures Occ(q, id) > 0 <==> id in q
  {
    if q != [] {
      var n := |q| - 1;
      OccMember(q[..n], id);
      assert q == q[..n] + [q[n]];
    }
  }

  lemma {:induction false} OccIsMultiplicity(q: seq<nat>, id: nat)
    ensures Occ(q, id) == multiset(q)[id]
  {
    if q != [] {
      var n := |q| - 1;
      OccIsMultiplicity(q[..n], id);
      assert q == q[..n] + [q[n]];
    }
  }

  lemma OccSplit(q: seq<nat>, i: nat, id: nat)
    requires i < |q|
    ensures Occ(q, id) == Occ(q[..i], id) + (if q[i] == id then 1 else 0) + Occ(q[i + 1..], id)
  {
    assert q == (q[..i] + [q[i]]) + q[i + 1..];
    OccConcat(q[..i] + [q[i]], q[i + 1..], id);
    OccAppend(q[..i], q[i], id);
  }

  /** Removing position `i`. */
  lemma OccWithout(q: seq<nat>, i: nat, id: nat)
    requires i < |q|
    ensures Occ(q, id) == Occ(q[..i] + q[i + 1..], id) + (if q[i] == id then 1 else 0)
  {
    OccSplit(q, i, id);
    OccConcat(q[..i], q[i + 1..], id);
  }

  /** Removing position `i` and moving what was before it to the back. */
  lemma OccRotate(q: seq<nat>, i: nat, id: nat)
    requires i < |q|
    ensures Occ(q, id) == Occ(q[i + 1..] + q[..i], id) + (if q[i] == id then 1 else 0)
  {
    OccSplit(q, i, id);
    OccConcat(q[i + 1..], q[..i], id);
  }

  /** Taking the first entry off. */
  lemma OccHead(q: seq<nat>, id: nat)
    requires q != []
    ensures Occ(q, id) == (if q[0] == id then 1 else 0) + Occ(q[1..], id)
  {
    OccSplit(q, 0, id);
  }
}
