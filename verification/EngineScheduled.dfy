/** What the scheduled counters mean: the number of request states that are not ready yet. */
module EngineScheduled {
  import opened Counting
  import opened RequestQueue
  import opened Occurrences
  import opened Engine
  import opened EngineConservation
  import opened EngineNesting
  import opened EngineLifetime
  import opened EngineKinds

  /** The request states of queue `k` that are not ready. */
  ghost function Unfinished(s: State, k: nat): set<Id>
  {
    set id | id in s.reqs && s.reqs[id].kind == k && !s.reqs[id].ready
  }

  /** The requests of queue `k` whose callbacks run. */
  ghost function Running(stack: seq<Frame>, k: nat): seq<Id>
  {
    if stack == [] then [] else
      var f, below := stack[|stack| - 1], Running(stack[..|stack| - 1], k);
      if BatchedOf(k)(f) then below + [f.id] else below
  }

  /** Where queue `k` keeps its requests: in the queue, in the batch and on the stack. */
  ghost function Kept(s: State, k: nat): seq<Id>
    requires k < |s.chans|
  {
    s.chans[k].queue + s.chans[k].batch + Running(s.stack, k)
  }

  lemma {:induction false} RunningCounted(stack: seq<Frame>, k: nat, id: Id)
    ensures |Running(stack, k)| == Count(stack, BatchedOf(k))
    ensures Occ(Running(stack, k), id) <= Count(stack, BatchedFrame(id))
  {
    if stack != [] {
      var n := |stack| - 1;
      RunningCounted(stack[..n], k, id);
      if BatchedOf(k)(stack[n]) { OccAppend(Running(stack[..n], k), stack[n].id, id); }
    }
  }

  /** A callback frame of a request is a frame of the request's own queue. */
  lemma {:induction false} RunningExactly(s: State, stack: seq<Frame>, k: nat, id: Id)
    requires forall i :: 0 <= i < |stack| ==> FrameOk(s, stack[i])
    ensures Owns(s, k, id) ==> Occ(Running(stack, k), id) == Count(stack, BatchedFrame(id))
    ensures id in Running(stack, k) ==> Owns(s, k, id)
  {
    if stack != [] {
      var n := |stack| - 1;
      RunningExactly(s, stack[..n], k, id);
      assert FrameOk(s, stack[n]);
      if BatchedOf(k)(stack[n]) { OccAppend(Running(stack[..n], k), stack[n].id, id); }
    }
  }

  lemma KeptOcc(s: State, k: nat, id: Id)
    requires k < |s.chans|
    ensures Occ(Kept(s, k), id) == ChanOcc(s.chans[k], id) + Occ(Running(s.stack, k), id)
  {
    OccConcat(s.chans[k].queue, s.chans[k].batch, id);
    OccConcat(s.chans[k].queue + s.chans[k].batch, Running(s.stack, k), id);
  }

  /** No request is kept twice. */
  lemma KeptOnce(s: State, k: nat, id: Id)
    requires Accounted(s, id) && k < 3
    ensures Occ(Kept(s, k), id) <= 1
  {
    IsSingle(s, id);
    KeptOcc(s, k, id);
    RunningCounted(s.stack, k, id);
  }

  lemma HeldElsewhereNot(s: State, k: nat, j: nat, id: Id)
    requires Kinds(s) && Owns(s, k, id) && j < 3 && j != k
    ensures ChanOcc(s.chans[j], id) == 0
  {
    assert !Held(s, j, id);
    OccMember(s.chans[j].queue, id);
    OccMember(s.chans[j].batch, id);
  }

  /** A queue keeps exactly its own requests that are not ready. */
  lemma KeptIffUnfinished(s: State, k: nat, id: Id)
    requires Kinds(s) && Accounted(s, id) && Alive(s, id) && k < 3
    ensures id in Kept(s, k) <==> id in Unfinished(s, k)
  {
    IsSingle(s, id);
    KeptOcc(s, k, id);
    OccMember(Kept(s, k), id);
    RunningExactly(s, s.stack, k, id);
    if id in Kept(s, k) { KeptOwned(s, k, id); }
    if Owns(s, k, id) {
      forall j | 0 <= j < 3 && j != k ensures ChanOcc(s.chans[j], id) == 0 { HeldElsewhereNot(s, k, j, id); }
      assert HeldOcc(s.chans, id) == ChanOcc(s.chans[k], id);
    }
  }

  lemma KeptOwned(s: State, k: nat, id: Id)
    requires Kinds(s) && k < 3 && id in Kept(s, k)
    ensures Owns(s, k, id)
  {
    if id in Running(s.stack, k) {
      RunningExactly(s, s.stack, k, id);
    } else {
      assert Held(s, k, id);
    }
  }

  /** A sequence without repetition is as long as its set is large. */
  lemma {:induction false} DistinctCardinality(q: seq<nat>, members: set<nat>)
    requires forall id :: Occ(q, id) <= 1
    requires forall id :: id in q <==> id in members
    ensures |members| == |q|
  {
    if q == [] {
      assert members == {};
    } else {
      var n := |q| - 1;
      var x := q[n];
      assert q == q[..n] + [x];
      assert Occ(q, x) == Occ(q[..n], x) + 1;
      OccMember(q[..n], x);
      forall id ensures Occ(q[..n], id) <= 1 { assert Occ(q, id) <= 1; }
      forall id ensures id in q[..n] <==> id in members - {x} { assert id in q <==> id in members; }
      DistinctCardinality(q[..n], members - {x});
      assert x in members;
    }
  }

  lemma KeptCardinality(s: State, k: nat)
    requires Kinds(s) && LifetimeInv(s) && k < 3
    ensures |Unfinished(s, k)| == |Kept(s, k)|
  {
    forall id ensures Occ(Kept(s, k), id) <= 1 && (id in Kept(s, k) <==> id in Unfinished(s, k)) {
      assert Accounted(s, id) && Alive(s, id);
      KeptOnce(s, k, id);
      KeptIffUnfinished(s, k, id);
    }
    DistinctCardinality(Kept(s, k), Unfinished(s, k));
  }

  /** Each scheduled counter is the number of request states of its queue that are not ready, so it never underflows;
      they are the queued, the collected and those whose callbacks run. */
  lemma ScheduledCountsUnfinished(limit: nat, s: State, k: nat)
    requires Reachable(limit, s) && k < 3
    ensures |s.chans| == 3
    ensures s.chans[k].scheduled == |set id | id in s.reqs && s.reqs[id].kind == k && !s.reqs[id].ready|
    ensures s.chans[k].scheduled == |s.chans[k].queue| + |s.chans[k].batch| + Count(s.stack, BatchedOf(k))
  {
    ReachableNesting(limit, s);
    ReachableKinds(limit, s);
    ReachableLifetime(limit, s);
    assert ChanOk(s, k);
    KeptCardinality(s, k);
    RunningCounted(s.stack, k, 0);
    assert Unfinished(s, k) == set id | id in s.reqs && s.reqs[id].kind == k && !s.reqs[id].ready;
  }
}
