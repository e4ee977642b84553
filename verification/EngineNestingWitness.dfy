/** The nesting bound is attained: some run really stacks `2 * (limit + 1) + 3` callbacks. */
module EngineNestingWitness {
  import opened Counting
  import opened RequestQueue
  import opened Engine
  import opened EngineNesting

  /** What the construction carries along: user code runs and the recursion counters are known. */
  ghost predicate Stage(limit: nat, s: State, callbacks: nat)
  {
    && Reachable(limit, s) && |s.chans| == 3 && UserTurn(s) && s.fault == NoFault
    && Count(s.stack, IsCallback) == callbacks
  }

  /** Post one operation on an idle, empty queue. */
  lemma PostOne(limit: nat, s: State, k: nat) returns (s': State)
    requires Reachable(limit, s) && |s.chans| == 3 && UserTurn(s) && s.fault == NoFault
    requires k < 3 && s.chans[k].queue == []
    ensures Reachable(limit, s') && s'.stack == s.stack && s'.fault == NoFault
    ensures s'.depth == s.depth && s'.ctxDepth == s.ctxDepth
    ensures |s'.chans| == 3 && s'.chans[k].queue == [s.posted] && s'.chans[k].busy == s.chans[k].busy
    ensures forall j :: 0 <= j < 3 && j != k ==> s'.chans[j] == s.chans[j]
    ensures s.posted in s'.reqs && !s'.reqs[s.posted].nulled
  {
    s' := AfterPost(s, k);
    Extend(limit, s, PostQueued(k), s');
  }

  /** Call `progress` and walk past the queues before `k`. */
  lemma {:induction false} WalkTo(limit: nat, s: State, k: nat) returns (s': State)
    requires Reachable(limit, s) && |s.chans| == 3 && UserTurn(s) && k < 3 && s.fault == NoFault
    requires forall j :: 0 <= j < k ==> s.chans[j].busy
    ensures s' == Push(s, Progress(k)) && Reachable(limit, s')
  {
    if k == 0 {
      s' := Push(s, Progress(0));
      Extend(limit, s, CallProgress(0), s');
    } else {
      var mid := WalkTo(limit, s, k - 1);
      s' := Push(s, Progress(k));
      assert Pop(mid) == s;
      Extend(limit, mid, VisitNothing, s');
    }
  }

  ghost predicate OneQueued(limit: nat, s: State, k: nat, id: Id)
  {
    && Reachable(limit, s) && |s.chans| == 3 && k < 3 && AtProgress(s, k)
    && s.chans[k].queue == [id] && !s.chans[k].busy && s.fault == NoFault
    && id in s.reqs && !s.reqs[id].nulled
  }

  /** The queue at the current stage holds one request, and it tests complete. */
  ghost function Collected(s: State, k: nat, id: Id): State
    requires k < |s.chans| && s.stack != []
  {
    var c := s.chans[k];
    var c' := c.(queue := [], batch := [id], busy := true);
    Push(Push(Pop(SetChan(s, k, c')), Progress(k + 1)), Drain(k))
  }

  lemma CollectMpi(limit: nat, s: State, k: nat, id: Id)
    requires OneQueued(limit, s, k, id) && k < SHARED
    ensures Reachable(limit, Collected(s, k, id))
  {
    var hit := [true];
    OneSplit(id, s.chans[k].index);
    assert hit[0];
    assert AfterCollect(s.chans[k], hit) == s.chans[k].(queue := [], batch := [id], busy := true);
    Extend(limit, s, VisitMpi(hit), Collected(s, k, id));
  }

  lemma OneSplit(id: Id, index: map<Id, nat>)
    ensures Selected([id], [true]) == [id] && Rejected([id], [true]) == []
    ensures Positions([id], [true], index) == index
  {
    assert [id][..0] == [] && [true][..0] == [];
  }

  lemma CollectShared(limit: nat, s: State, id: Id)
    requires OneQueued(limit, s, SHARED, id)
    ensures Reachable(limit, Collected(s, SHARED, id))
  {
    var q := s.chans[SHARED].queue;
    assert q[1..] + q[..0] == [];
    Extend(limit, s, VisitShared(0), Collected(s, SHARED, id));
  }

  /** The collected request's callback starts. */
  lemma StartBatch(limit: nat, s: State, k: nat, id: Id) returns (s': State)
    requires OneQueued(limit, s, k, id)
    ensures Reachable(limit, s')
    ensures s'.stack == Pop(s).stack + [Progress(k + 1)] + [Drain(k)] + [Callback(id, Batched(k))]
    ensures |s'.chans| == 3 && forall j :: 0 <= j < 3 && j != k ==> s'.chans[j] == s.chans[j]
    ensures s'.depth == s.depth && s'.ctxDepth == s.ctxDepth && s'.fault == NoFault && s'.chans[k].busy
  {
    if k == SHARED { CollectShared(limit, s, id); } else { CollectMpi(limit, s, k, id); }
    var mid := Collected(s, k, id);
    s' := AfterRunNext(mid, k);
    Extend(limit, mid, RunNext, s');
  }

  /** One more callback, started by the loop of queue `k`. */
  lemma EnterBatch(limit: nat, s: State, k: nat, callbacks: nat) returns (s': State)
    requires Stage(limit, s, callbacks) && k < 3 && s.chans[k].queue == [] && !s.chans[k].busy
    requires forall j :: 0 <= j < k ==> s.chans[j].busy
    ensures Stage(limit, s', callbacks + 1) && s'.chans[k].busy
    ensures s'.depth == s.depth && s'.ctxDepth == s.ctxDepth
    ensures forall j :: 0 <= j < 3 && j != k ==> s'.chans[j] == s.chans[j]
  {
    var s1 := PostOne(limit, s, k);
    var s2 := WalkTo(limit, s1, k);
    s' := StartBatch(limit, s2, k, s.posted);
    assert Pop(s2).stack == s.stack;
    CountPush(s.stack, Progress(k + 1), IsCallback);
    CountPush(s.stack + [Progress(k + 1)], Drain(k), IsCallback);
    CountPush(s.stack + [Progress(k + 1)] + [Drain(k)], Callback(s.posted, Batched(k)), IsCallback);
  }

  /** `n` more callbacks, each started inline by `send` or by `shared_recv`. */
  lemma {:induction false} EnterInline(limit: nat, s: State, k: nat, callbacks: nat, n: nat) returns (s': State)
    requires Stage(limit, s, callbacks) && (k == SEND || k == SHARED)
    requires (if k == SHARED then s.ctxDepth else s.depth) + n <= limit + 1
    ensures Stage(limit, s', callbacks + n)
    ensures k == SEND ==> s'.ctxDepth == s.ctxDepth
    decreases n
  {
    if n == 0 {
      s' := s;
    } else {
      var how := if k == SHARED then InlineShared else Inline;
      var mid := Push(s, Callback(s.posted, how)).(
                   posted := s.posted + 1,
                   ran := s.ran + [s.posted],
                   depth := if k == SHARED then s.depth else s.depth + 1,
                   ctxDepth := if k == SHARED then s.ctxDepth + 1 else s.ctxDepth);
      Extend(limit, s, PostInline(k), mid);
      CountPush(s.stack, Callback(s.posted, how), IsCallback);
      s' := EnterInline(limit, mid, k, callbacks + 1, n - 1);
    }
  }

  lemma StartState(limit: nat) returns (s: State)
    ensures Stage(limit, s, 0) && s.depth == 0 && s.ctxDepth == 0
    ensures forall k :: 0 <= k < 3 ==> s.chans[k].queue == [] && !s.chans[k].busy
  {
    s := State(seq(3, i => Chan([], map[], [], false, 0)), 0, 0, [], 0, map[], [], [], [], NoFault);
    var tr := [s];
    assert IsRun(limit, tr) && Init(tr[0]) && tr[|tr| - 1] == s;
  }

  /** For every limit there is a run that reaches the bound of `NestingBounded`. */
  lemma NestingBoundAttained(limit: nat) returns (s: State)
    ensures Reachable(limit, s) && Count(s.stack, IsCallback) == 2 * (limit + 1) + 3
  {
    var s0 := StartState(limit);
    var s1 := EnterBatch(limit, s0, SEND, 0);
    var s2 := EnterBatch(limit, s1, RECV, 1);
    var s3 := EnterBatch(limit, s2, SHARED, 2);
    var s4 := EnterInline(limit, s3, SEND, 3, limit + 1);
    s := EnterInline(limit, s4, SHARED, 3 + (limit + 1), limit + 1);
  }
}
