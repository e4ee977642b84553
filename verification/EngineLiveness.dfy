/** Which operations can still complete: all of them, except those a failed cancel has stranded and those behind a
    `progress` that cannot but test a receive queue of null handles. */
module EngineLiveness {
  import opened Counting
  import opened RequestQueue
  import opened Occurrences
  import opened Engine
  import opened EngineConservation
  import opened EngineNesting
  import opened EngineLifetime
  import opened EngineCancel
  import opened EngineKinds
  import opened EngineCompletion

  ghost predicate Sound(limit: nat, s: State)
  {
    LifetimeInv(s) && NestingInv(limit, s) && Kinds(s) && s.fault == NoFault
  }

  lemma SoundStep(limit: nat, s: State, a: Action, s': State)
    requires Sound(limit, s) && Step(limit, s, a, s') && s'.fault == NoFault
    ensures Sound(limit, s')
  {
    assert Next(limit, s, s');
    StepLifetime(limit, s, s');
    StepNesting(limit, s, s');
    StepKinds(limit, s, a, s');
  }

  lemma ReachableSound(limit: nat, s: State)
    requires Reachable(limit, s) && s.fault == NoFault
    ensures Sound(limit, s)
  {
    ReachableLifetime(limit, s);
    ReachableNesting(limit, s);
    ReachableKinds(limit, s);
  }

  // ---------- any batch can be collected ----------

  ghost function Visited(s: State, k: nat, hit: seq<bool>): State
    requires s.stack != [] && k < |s.chans| && |hit| == |s.chans[k].queue|
  {
    Push(Push(Pop(SetChan(s, k, AfterCollect(s.chans[k], hit))), Progress(k + 1)), Drain(k))
  }

  lemma VisitEnabled(limit: nat, s: State, k: nat, hit: seq<bool>, i: nat)
    requires s.fault == NoFault && |s.chans| == 3 && AtProgress(s, k) && k < SHARED && !s.chans[k].busy
    requires |hit| == |s.chans[k].queue| && i < |hit| && hit[i]
    requires forall j :: 0 <= j < |hit| && hit[j] ==> !Nulled(s, s.chans[k].queue[j])
    ensures Step(limit, s, VisitMpi(hit), Visited(s, k, hit))
  {
  }

  lemma VisitedState(s: State, k: nat, hit: seq<bool>)
    requires s.stack != [] && k < |s.chans| == 3 && |hit| == |s.chans[k].queue|
    ensures var s' := Visited(s, k, hit);
            && s'.chans == s.chans[k := AfterCollect(s.chans[k], hit)] && s'.fault == s.fault && s'.reqs == s.reqs
            && s'.stack == Pop(s).stack + [Progress(k + 1), Drain(k)]
  {
  }

  /** MPI may complete any set of live requests: a `progress` that has come to a queue can then move exactly these to
      its batch, in order, and leaves the others in the queue. */
  lemma AnyBatch(limit: nat, s: State, k: nat, idx: seq<nat>) returns (s': State)
    requires s.fault == NoFault && AtProgress(s, k) && k < SHARED && |s.chans| == 3
    requires !s.chans[k].busy && idx != [] && Ascending(idx)
    requires forall x :: x in idx ==> x < |s.chans[k].queue| && !Nulled(s, s.chans[k].queue[x])
    ensures Step(limit, s, VisitMpi(Marks(|s.chans[k].queue|, idx)), s')
    ensures |s'.chans| == 3 && |s'.chans[k].batch| == |idx| && CollectedAt(s.chans[k].queue, idx, s'.chans[k].batch)
    ensures KeptElsewhere(s.chans[k].queue, idx, |idx|, s'.chans[k].queue)
    ensures |s'.chans[k].queue| + |idx| == |s.chans[k].queue|
    ensures s'.stack == Pop(s).stack + [Progress(k + 1), Drain(k)]
  {
    var hit := Marks(|s.chans[k].queue|, idx);
    assert idx[0] in idx;
    MarkedBatch(s.chans[k].queue, idx);
    s' := Visited(s, k, hit);
    VisitEnabled(limit, s, k, hit, idx[0]);
    VisitedState(s, k, hit);
  }

  lemma MarkedBatch(queue: seq<Id>, idx: seq<nat>)
    requires Ascending(idx) && forall x :: x in idx ==> x < |queue|
    ensures var hit := Marks(|queue|, idx);
            && |Selected(queue, hit)| == |idx| && |Rejected(queue, hit)| + |idx| == |queue|
            && CollectedAt(queue, idx, Selected(queue, hit)) && KeptElsewhere(queue, idx, |idx|, Rejected(queue, hit))
  {
    var hit := Marks(|queue|, idx);
    SelectedSize(queue, hit);
    PartitionSizes(queue, hit);
    assert forall x :: 0 <= x < |idx| ==> idx[x] in idx;
    MarksBefore(|queue|, idx, |queue|, |idx|);
    assert idx[..|idx|] == idx;
    TakenAsReported(queue, idx, |idx|);
  }

  // ---------- anything can be posted ----------

  /** User code can post every kind of operation: it runs its callback on the spot when MPI is done with it and the
      recursion depth allows, and otherwise waits in its queue, not ready, with one handle for the user. */
  lemma AnyPost(limit: nat, s: State, k: nat) returns (queued: State, inline_: State)
    requires s.fault == NoFault && UserTurn(s) && k < 3 == |s.chans|
    ensures Step(limit, s, PostQueued(k), queued) && |queued.chans| == 3
    ensures queued.chans[k].queue == s.chans[k].queue + [s.posted] && s.posted in queued.reqs
    ensures var q := queued.reqs[s.posted]; q.kind == k && q.handles == 1 && !q.ready && !q.nulled && q.freed == 0
    ensures (if k == SHARED then s.ctxDepth else s.depth) <= limit <==> Step(limit, s, PostInline(k), inline_)
    ensures inline_.stack == s.stack + [Callback(s.posted, if k == SHARED then InlineShared else Inline)]
    ensures inline_.ran == s.ran + [s.posted] && inline_.chans == s.chans && inline_.reqs == s.reqs
  {
    queued := AfterPost(s, k);
    inline_ := Push(s, Callback(s.posted, if k == SHARED then InlineShared else Inline)).(
                 posted := s.posted + 1,
                 ran := s.ran + [s.posted],
                 depth := if k == SHARED then s.depth else s.depth + 1,
                 ctxDepth := if k == SHARED then s.ctxDepth + 1 else s.ctxDepth);
  }

  // ---------- any finished request state can be freed ----------

  lemma {:induction false} DropAll(limit: nat, s0: State, s: State, id: Id) returns (s': State)
    requires Reaches(limit, s0, s) && Sound(limit, s) && UserTurn(s) && id in s.reqs && s.reqs[id].ready
    ensures Reaches(limit, s0, s') && id in s'.reqs && s'.reqs[id].freed == 1 && s'.reqs[id].refs == 0
    decreases s.reqs[id].handles
  {
    ReadyIsFree(limit, s, id);
    if s.reqs[id].handles == 0 {
      s' := s;
    } else {
      var q := s.reqs[id];
      var next := s.(reqs := s.reqs[id := Unref(q.(handles := q.handles - 1))]);
      GoOn(limit, s0, s, DropHandle(id), next);
      SoundStep(limit, s, DropHandle(id), next);
      s' := DropAll(limit, s0, next, id);
    }
  }

  lemma ReadyIsFree(limit: nat, s: State, id: Id)
    requires Sound(limit, s) && id in s.reqs && s.reqs[id].ready
    ensures var q := s.reqs[id]; q.refs == q.handles && q.freed == if q.handles == 0 then 1 else 0
  {
    assert Accounted(s, id) && Alive(s, id);
    IsSingle(s, id);
  }

  /** User code can drop its handles of a finished operation, and the request state is then freed, once. */
  lemma ReadyCanBeFreed(limit: nat, s: State, id: Id) returns (s': State)
    requires Reachable(limit, s) && s.fault == NoFault && UserTurn(s) && id in s.reqs && s.reqs[id].ready
    ensures Reaches(limit, s, s') && id in s'.reqs && s'.reqs[id].freed == 1 && s'.reqs[id].refs == 0
  {
    ReachableSound(limit, s);
    Stay(limit, s);
    s' := DropAll(limit, s, s, id);
  }

  // ---------- any queued receive can be cancelled ----------

  /** User code that holds a handle of a queued receive can cancel it, and MPI may decide either way: the receive
      leaves its queue alone and is cancelled, or stays queued with a null handle. */
  lemma AnyCancel(limit: nat, s: State, k: nat, id: Id, ok: bool) returns (s': State)
    requires Reachable(limit, s) && s.fault == NoFault && UserTurn(s) && (k == RECV || k == SHARED) && |s.chans| == 3
    requires id in s.chans[k].queue && id in s.reqs && s.reqs[id].handles > 0 && (ok ==> !Nulled(s, id))
    ensures Step(limit, s, CancelQueued(k, id, ok), s') && |s'.chans| == 3 && id in s'.reqs
    ensures ok ==> && s'.cancelled == s.cancelled + [id] && s'.reqs[id].ready && id !in s'.chans[k].queue
                   && multiset(s.chans[k].queue) == multiset(s'.chans[k].queue) + multiset{id}
    ensures !ok ==> s' == s.(reqs := s.reqs[id := s.reqs[id].(nulled := true)])
    ensures forall j :: 0 <= j < 3 && j != k ==> s'.chans[j] == s.chans[j]
  {
    if ok {
      ReachableConserves(limit, s);
      var i: nat :| i < |s.chans[k].queue| && s.chans[k].queue[i] == id;
      s' := CancelAt(s, k, i);
      RemovedAlone(s, k, i);
    } else {
      s' := s.(reqs := s.reqs[id := s.reqs[id].(nulled := true)]);
    }
  }

  lemma CancelAt(s: State, k: nat, i: nat) returns (s': State)
    requires Tidy(s) && UserTurn(s) && (k == RECV || k == SHARED) && i < |s.chans[k].queue|
    requires var id := s.chans[k].queue[i]; id in s.reqs && s.reqs[id].handles > 0 && !s.reqs[id].nulled
    ensures var c, id := s.chans[k], s.chans[k].queue[i];
            && DoCancel(s, s', k, id, true) && s'.cancelled == s.cancelled + [id] && id in s'.reqs && s'.reqs[id].ready
            && s'.chans == s.chans[k := AfterRemoval(c, k, i).(scheduled := c.scheduled - 1)]
  {
    var c := s.chans[k];
    var id := c.queue[i];
    s' := SetChan(s, k, AfterRemoval(c, k, i).(scheduled := c.scheduled - 1)).(
            cancelled := s.cancelled + [id],
            reqs := s.reqs[id := Unref(s.reqs[id].(selfRef := false, ready := true))]);
  }

  lemma RemovedAlone(s: State, k: nat, i: nat)
    requires Conserved(s) && k < 3 && i < |s.chans[k].queue|
    ensures var c := s.chans[k]; var q := AfterRemoval(c, k, i).queue;
            multiset(c.queue) == multiset(q) + multiset{c.queue[i]} && c.queue[i] !in q
  {
    var c := s.chans[k];
    RemovalConserves(c, k, i);
    assert Accounted(s, c.queue[i]);
    NotTwice(c.queue, AfterRemoval(c, k, i).queue, c.queue[i]);
  }

  lemma RemovalConserves(c: Chan, k: nat, i: nat)
    requires i < |c.queue|
    ensures multiset(c.queue) == multiset(AfterRemoval(c, k, i).queue) + multiset{c.queue[i]}
  {
    if k == SHARED {
      var before, after := c.queue[..i], c.queue[i + 1..];
      assert c.queue == before + [c.queue[i]] + after;
      assert multiset(c.queue) == multiset(before) + multiset{c.queue[i]} + multiset(after);
      assert multiset(before + after) == multiset(before) + multiset(after);
    } else {
      SwapRemoveConserves(c.queue, i);
    }
  }

  lemma NotTwice(q: seq<Id>, rest: seq<Id>, id: Id)
    requires Occ(q, id) <= 1 && multiset(q) == multiset(rest) + multiset{id}
    ensures id !in rest
  {
    OccIsMultiplicity(q, id);
    assert multiset(rest)[id] == multiset(q)[id] - 1;
  }

  // ---------- doomed states ----------

  /** The library is about to test the receive queue, which holds null handles only, and no user code runs before. */
  ghost predicate Doomed(s: State)
  {
    && |s.chans| == 3 && s.stack != [] && !Testable(s, RECV)
    && match Top(s)
       case Progress(stage) => stage == RECV || (stage == SEND && (s.chans[SEND].busy || s.chans[SEND].queue == []))
       case Drain(k) => k == SEND && s.chans[SEND].batch == []
       case Callback(_, _) => false
  }

  /** A doomed state stays doomed until the fault, and nothing completes. */
  lemma DoomedStep(limit: nat, s: State, a: Action, s': State)
    requires Sound(limit, s) && Doomed(s) && Step(limit, s, a, s')
    ensures s'.done == s.done && (s'.fault != NoFault || Doomed(s'))
  {
    match Top(s)
    case Progress(stage) => DoomedProgress(limit, s, a, s');
    case Drain(k) =>
      var n := |s.stack| - 1;
      assert n > 0;
      assert Above(s.stack[n - 1], s.stack[n - 1 + 1]);
      assert a == EndDrain;
      assert Top(s') == Progress(RECV);
  }

  lemma DoomedProgress(limit: nat, s: State, a: Action, s': State)
    requires Sound(limit, s) && Doomed(s) && Top(s).Progress? && Step(limit, s, a, s')
    ensures s'.done == s.done && (s'.fault != NoFault || Doomed(s'))
  {
    if a.VisitMpi? {
      var i :| 0 <= i < |a.hit| && a.hit[i];
      assert Held(s, RECV, s.chans[RECV].queue[i]);
    }
  }

  lemma {:induction false} DoomedRun(limit: nat, tr: seq<State>)
    requires IsRun(limit, tr) && Sound(limit, tr[0]) && Doomed(tr[0])
    ensures var s := tr[|tr| - 1]; s.done == tr[0].done && (s.fault != NoFault || (Sound(limit, s) && Doomed(s)))
    decreases |tr|
  {
    if |tr| > 1 {
      RunInit(limit, tr);
      var n := |tr| - 2;
      var pre := tr[..n + 1];
      assert pre[0] == tr[0] && pre[|pre| - 1] == tr[n];
      DoomedRun(limit, pre);
      var a :| Step(limit, tr[n], a, tr[n + 1]);
      DoomedStep(limit, tr[n], a, tr[n + 1]);
      if tr[n + 1].fault == NoFault { SoundStep(limit, tr[n], a, tr[n + 1]); }
    }
  }

  // ---------- otherwise user code gets its turn ----------

  /** A step of the library's own that brings user code nearer. */
  ghost predicate Nearer(limit: nat, s: State, a: Action, s': State)
  {
    && Step(limit, s, a, s') && Internal(a) && s'.fault == NoFault && |s.chans| == 3 == |s'.chans|
    && !Doomed(s') && Work(s') < Work(s)
  }

  lemma NearerDrain(limit: nat, s: State) returns (a: Action, s': State)
    requires Sound(limit, s) && !Doomed(s) && s.stack != [] && Top(s).Drain?
    ensures Nearer(limit, s, a, s')
  {
    a, s' := DrainOne(limit, s);
    if a == EndDrain { DrainEnded(limit, s, s', Top(s).k); }
  }

  lemma DrainEnded(limit: nat, s: State, s': State, k: nat)
    requires Sound(limit, s) && !Doomed(s) && s.stack != [] && Top(s) == Drain(k) && k < 3 && s.chans[k].batch == []
    requires s' == Pop(SetChan(s, k, s.chans[k].(busy := false)))
    ensures !Doomed(s')
  {
    var n := |s.stack| - 1;
    assert n > 0;
    assert Above(s.stack[n - 1], s.stack[n - 1 + 1]);
    assert Top(s') == Progress(k + 1);
  }

  lemma NearerShared(limit: nat, s: State) returns (a: Action, s': State)
    requires Sound(limit, s) && AtProgress(s, SHARED)
    ensures Nearer(limit, s, a, s')
  {
    a, s' := SharedOne(limit, s);
  }

  /** Sends never lose their handle, so their queue can always be tested. */
  lemma SendsTestable(s: State)
    requires Kinds(s)
    ensures Testable(s, SEND)
  {
    if s.chans[SEND].queue != [] { assert Held(s, SEND, s.chans[SEND].queue[0]); }
  }

  lemma NearerTest(limit: nat, s: State, st: nat) returns (a: Action, s': State)
    requires Sound(limit, s) && !Doomed(s) && AtProgress(s, st) && st < SHARED
    ensures Nearer(limit, s, a, s')
  {
    SendsTestable(s);
    if st == SEND && !Testable(s, RECV) {
      a, s' := CollectFirst(limit, s);
    } else {
      a, s' := VisitNothing, Push(Pop(s), Progress(st + 1));
      PushWork(Pop(s).stack, Progress(st + 1));
    }
  }

  /** Collecting the first send alone, so that its callback runs. */
  lemma CollectFirst(limit: nat, s: State) returns (a: Action, s': State)
    requires Sound(limit, s) && AtProgress(s, SEND) && !s.chans[SEND].busy && s.chans[SEND].queue != []
    ensures Nearer(limit, s, a, s')
  {
    assert Held(s, SEND, s.chans[SEND].queue[0]) && ChanOk(s, SEND);
    s' := CollectOne(limit, s, SEND, 0);
    a := VisitMpi(Only(|s.chans[SEND].queue|, 0));
  }

  /** A visit that collects the request at position `i` alone. */
  lemma CollectOne(limit: nat, s: State, k: nat, i: nat) returns (s': State)
    requires s.fault == NoFault && |s.chans| == 3 && AtProgress(s, k) && k < SHARED && !s.chans[k].busy
    requires i < |s.chans[k].queue| && !Nulled(s, s.chans[k].queue[i]) && s.chans[k].batch == []
    ensures Step(limit, s, VisitMpi(Only(|s.chans[k].queue|, i)), s')
    ensures |s'.chans| == 3 && s'.fault == NoFault && s'.reqs == s.reqs && s'.chans[k].batch == [s.chans[k].queue[i]]
    ensures s'.stack == Pop(s).stack + [Progress(k + 1), Drain(k)] && Work(s') < Work(s)
    ensures k == SEND ==> s'.chans[RECV] == s.chans[RECV]
  {
    var hit := Only(|s.chans[k].queue|, i);
    s' := Visited(s, k, hit);
    VisitEnabled(limit, s, k, hit, i);
    VisitedState(s, k, hit);
    CollectOneWork(s.chans[k], i);
    VisitedWork(s, k, hit);
  }

  lemma VisitedWork(s: State, k: nat, hit: seq<bool>)
    requires |s.chans| == 3 && AtProgress(s, k) && k < SHARED && |hit| == |s.chans[k].queue|
    requires ChanWork(AfterCollect(s.chans[k], hit)) <= ChanWork(s.chans[k]) - 2
    ensures |Visited(s, k, hit).chans| == 3 && Work(Visited(s, k, hit)) < Work(s)
  {
    VisitedState(s, k, hit);
    var below := Pop(s).stack;
    PushWork(below, Progress(k + 1));
    PushWork(below + [Progress(k + 1)], Drain(k));
    assert below + [Progress(k + 1), Drain(k)] == below + [Progress(k + 1)] + [Drain(k)];
    assert StackWork(s.stack) == StackWork(below) + FrameWork(Progress(k));
  }

  lemma CollectOneWork(c: Chan, i: nat)
    requires i < |c.queue| && c.batch == []
    ensures var c' := AfterCollect(c, Only(|c.queue|, i)); c'.batch == [c.queue[i]] && ChanWork(c') == ChanWork(c) - 2
  {
    var hit := Only(|c.queue|, i);
    SelectedOnly(c.queue, hit, i);
    PartitionSizes(c.queue, hit);
  }

  lemma NearerStep(limit: nat, s: State) returns (a: Action, s': State)
    requires Sound(limit, s) && !Doomed(s) && !UserTurn(s)
    ensures Nearer(limit, s, a, s')
  {
    var n := |s.stack| - 1;
    assert FrameOk(s, s.stack[n]);
    match Top(s)
    case Drain(_) => a, s' := NearerDrain(limit, s);
    case Progress(stage) =>
      if stage == 3 {
        a, s' := EndProgress, Pop(s);
        assert n > 0 ==> Above(s.stack[n - 1], s.stack[n - 1 + 1]);
      } else if stage == SHARED {
        a, s' := NearerShared(limit, s);
      } else {
        a, s' := NearerTest(limit, s, stage);
      }
  }

  lemma {:induction false} ToUser(limit: nat, s0: State, s: State) returns (s': State)
    requires Reaches(limit, s0, s) && Sound(limit, s) && !Doomed(s)
    ensures Reaches(limit, s0, s') && Sound(limit, s') && UserTurn(s') && Harmless(s, s')
    decreases Work(s)
  {
    if UserTurn(s) {
      s' := s;
    } else {
      var a, mid := NearerStep(limit, s);
      GoOn(limit, s0, s, a, mid);
      InternalHarmless(limit, s, a, mid);
      SoundStep(limit, s, a, mid);
      s' := ToUser(limit, s0, mid);
    }
  }

  // ---------- and then the operation completes ----------

  /** What the construction keeps of operation `id`: it is not cancelled, and its handle stays as it is. */
  ghost predicate Follows(s: State, s': State, id: Id)
  {
    && s.posted <= s'.posted && s'.cancelled == s.cancelled && (id in s'.reqs <==> id in s.reqs)
    && (id in s.reqs ==> s'.reqs[id].kind == s.reqs[id].kind && s'.reqs[id].nulled == s.reqs[id].nulled)
  }

  lemma HarmlessFollows(s: State, s': State, id: Id)
    requires Harmless(s, s')
    ensures Follows(s, s', id)
  {
    assert id in s.reqs.Keys <==> id in s'.reqs.Keys;
  }

  /** User code posts a receive that stays open, so that every later test of the receive queue is defined. */
  lemma PostLive(limit: nat, s0: State, s: State, id: Id) returns (s': State)
    requires Reaches(limit, s0, s) && Sound(limit, s) && UserTurn(s) && id < s.posted
    ensures Reaches(limit, s0, s') && Open(limit, s', s.posted) && Follows(s, s', id)
  {
    s' := AfterPost(s, RECV);
    assert s'.chans[RECV].queue == s.chans[RECV].queue + [s.posted];
    GoOn(limit, s0, s, PostQueued(RECV), s');
    SoundStep(limit, s, PostQueued(RECV), s');
  }

  /** With nothing on the stack an operation that is neither done nor cancelled is in the queue it was posted to. */
  lemma RestQueued(limit: nat, s: State, id: Id)
    requires Sound(limit, s) && s.stack == [] && id < s.posted && id !in s.done && id !in s.cancelled
    ensures id in s.reqs && s.reqs[id].kind < 3 && id in s.chans[s.reqs[id].kind].queue
  {
    assert Accounted(s, id);
    OccMember(s.done, id);
    OccMember(s.cancelled, id);
    forall k | 0 <= k < 3 ensures Occ(s.chans[k].batch, id) == 0 { RestIdle(limit, s, k); }
    assert HeldOcc(s.chans, id) == 1;
    var k :| 0 <= k < 3 && Occ(s.chans[k].queue, id) > 0;
    OccMember(s.chans[k].queue, id);
    assert Held(s, k, id);
  }

  lemma RestIdle(limit: nat, s: State, k: nat)
    requires NestingInv(limit, s) && s.stack == [] && k < 3
    ensures |s.chans| == 3 && !s.chans[k].busy && s.chans[k].batch == []
  {
    assert ChanOk(s, k);
  }

  lemma FinishSend(limit: nat, s0: State, s: State, id: Id) returns (s': State)
    requires Reaches(limit, s0, s) && Sound(limit, s) && s.stack == [] && id in s.chans[SEND].queue
    ensures Reaches(limit, s0, s') && id in s'.done
  {
    RestIdle(limit, s, SEND);
    assert Held(s, SEND, id);
    var s1 := Push(s, Progress(SEND));
    GoOn(limit, s0, s, CallProgress(SEND), s1);
    var i: nat :| i < |s.chans[SEND].queue| && s.chans[SEND].queue[i] == id;
    var s2 := CollectOne(limit, s1, SEND, i);
    GoOn(limit, s0, s1, VisitMpi(Only(|s1.chans[SEND].queue|, i)), s2);
    s' := FinishIt(limit, s0, s2, SEND, id);
  }

  /** The position of the first null handle before `id`, or that of `id`. */
  lemma FirstReady(s: State, q: seq<Id>, id: Id) returns (pos: nat)
    requires id in q
    ensures pos < |q| && forall i :: 0 <= i < pos ==> !Nulled(s, q[i])
    ensures q[pos] == id || Nulled(s, q[pos])
  {
    pos :| pos < |q| && q[pos] == id;
    if exists i :: 0 <= i < pos && Nulled(s, q[i]) { pos := FirstNull(s, q, pos); }
  }

  lemma EnterShared(limit: nat, s0: State, s: State, r: Id) returns (s': State)
    requires Reaches(limit, s0, s) && Open(limit, s, r) && s.stack == []
    ensures Reaches(limit, s0, s') && Open(limit, s', r) && s' == s.(stack := [Progress(SHARED)])
    ensures Work(s') == Work(s) + 2
  {
    s' := Push(s, Progress(SHARED));
    GoOn(limit, s0, s, CallProgress(SHARED), s');
    OpenStays(limit, s, CallProgress(SHARED), s', r);
    PushWork(s.stack, Progress(SHARED));
  }

  /** From the user's code, one more request is collected from the shared queue: the first null handle, or `id`. */
  lemma CollectShared(limit: nat, s0: State, s: State, r: Id, id: Id) returns (s': State, x: Id)
    requires Reaches(limit, s0, s) && Open(limit, s, r) && s.stack == [] && id in s.chans[SHARED].queue
    ensures Reaches(limit, s0, s') && Open(limit, s', r) && Work(s') <= Work(s)
    ensures s'.stack != [] && Top(s') == Drain(SHARED) && s'.chans[SHARED].batch == [x]
    ensures s'.reqs == s.reqs && s'.posted == s.posted && s'.cancelled == s.cancelled
  {
    RestIdle(limit, s, SHARED);
    var s1 := EnterShared(limit, s0, s, r);
    var pos := FirstReady(s1, s1.chans[SHARED].queue, id);
    x := s1.chans[SHARED].queue[pos];
    s' := VisitSharedAt(s1, pos);
    GoOn(limit, s0, s1, VisitShared(pos), s');
    OpenStays(limit, s1, VisitShared(pos), s', r);
  }

  lemma {:induction false} FinishShared(limit: nat, s0: State, s: State, r: Id, id: Id) returns (s': State)
    requires Reaches(limit, s0, s) && Open(limit, s, r) && s.stack == [] && id in s.chans[SHARED].queue
    requires id < s.posted && id !in s.cancelled
    ensures Reaches(limit, s0, s') && id in s'.done
    decreases Work(s)
  {
    assert Held(s, SHARED, id);
    var s1, x := CollectShared(limit, s0, s, r, id);
    if x == id {
      s' := FinishIt(limit, s0, s1, SHARED, id);
    } else {
      var s2 := RunAndUnwind(limit, s0, s1, r, id);
      if id in s2.done {
        s' := s2;
      } else {
        RestQueued(limit, s2, id);
        s' := FinishShared(limit, s0, s2, r, id);
      }
    }
  }

  lemma RunAndUnwind(limit: nat, s0: State, s: State, r: Id, id: Id) returns (s': State)
    requires Reaches(limit, s0, s) && Open(limit, s, r) && s.stack != [] && Top(s).Drain? && id in s.reqs
    ensures Reaches(limit, s0, s') && Open(limit, s', r) && s'.stack == []
    ensures Follows(s, s', id) && Work(s') < Work(s)
  {
    var a, mid := UnwindDrain(limit, s, r);
    GoOn(limit, s0, s, a, mid);
    InternalHarmless(limit, s, a, mid);
    HarmlessFollows(s, mid, id);
    s' := Unwind(limit, s0, mid, r);
    HarmlessFollows(mid, s', id);
  }

  /** From a state in which user code has its turn, or will get it. */
  lemma CanComplete(limit: nat, s: State, id: Id) returns (s': State)
    requires Sound(limit, s) && !Doomed(s) && id < s.posted && id !in s.cancelled
    requires !(id in s.reqs && s.reqs[id].kind == RECV && s.reqs[id].nulled)
    ensures Reaches(limit, s, s') && id in s'.done
  {
    Stay(limit, s);
    var s1 := ToUser(limit, s, s);
    HarmlessFollows(s, s1, id);
    var s2 := PostLive(limit, s, s1, id);
    var s3 := Unwind(limit, s, s2, s1.posted);
    HarmlessFollows(s2, s3, id);
    if id in s3.done {
      s' := s3;
    } else {
      RestQueued(limit, s3, id);
      if s3.reqs[id].kind == SEND {
        s' := FinishSend(limit, s, s3, id);
      } else if s3.reqs[id].kind == RECV {
        var s4 := CollectIt(limit, s, s3, id);
        s' := FinishIt(limit, s, s4, RECV, id);
      } else {
        s' := FinishShared(limit, s, s3, s1.posted, id);
      }
    }
  }

  // ---------- nulled receives are queued ----------

  ghost predicate NulledQueued(s: State)
  {
    && |s.chans| == 3
    && forall id :: Owns(s, RECV, id) && s.reqs[id].nulled ==> id in s.chans[RECV].queue
  }

  lemma NulledQueuedStep(limit: nat, s: State, a: Action, s': State)
    requires Conserved(s) && Kinds(s) && Kinds(s') && NulledQueued(s) && Step(limit, s, a, s')
    ensures NulledQueued(s')
  {
    assert Next(limit, s, s');
    forall id | Owns(s', RECV, id) && s'.reqs[id].nulled ensures id in s'.chans[RECV].queue {
      if Owns(s, RECV, id) && s.reqs[id].nulled {
        StepStranded(limit, s, s', id);
      } else {
        NewlyNulled(limit, s, a, s', id);
      }
    }
  }

  lemma NewlyNulled(limit: nat, s: State, a: Action, s': State, id: Id)
    requires Kinds(s) && Step(limit, s, a, s') && |s'.chans| == 3
    requires Owns(s', RECV, id) && s'.reqs[id].nulled && !(Owns(s, RECV, id) && s.reqs[id].nulled)
    ensures id in s'.chans[RECV].queue
  {
    match a
    case CancelQueued(k, t, ok) =>
      assert DoCancel(s, s', k, t, ok);
      assert Held(s, k, t);
    case _ =>
  }

  lemma {:induction false} RunNulledQueued(limit: nat, tr: seq<State>)
    requires IsRun(limit, tr) && Init(tr[0])
    ensures NulledQueued(tr[|tr| - 1])
    decreases |tr|
  {
    if |tr| > 1 {
      RunInit(limit, tr);
      var n := |tr| - 2;
      var pre := tr[..n + 1];
      assert pre[0] == tr[0] && pre[|pre| - 1] == tr[n];
      RunNulledQueued(limit, pre);
      RunConserves(limit, pre);
      RunKinds(limit, pre);
      RunKinds(limit, tr);
      var a :| Step(limit, tr[n], a, tr[n + 1]);
      NulledQueuedStep(limit, tr[n], a, tr[n + 1]);
    }
  }

  // ---------- the theorem ----------

  /** In every reachable state without a fault, an operation that is neither done nor cancelled can still complete
      exactly when the state is not doomed and the operation is not a receive whose cancel failed.  While user code
      runs the state is not doomed. */
  lemma CanCompleteIff(limit: nat, s: State, id: Id)
    requires Reachable(limit, s) && s.fault == NoFault && id < s.posted && id !in s.done && id !in s.cancelled
    ensures (exists s' :: Reaches(limit, s, s') && id in s'.done)
            <==> !Doomed(s) && !(id in s.reqs && s.reqs[id].kind == RECV && s.reqs[id].nulled)
    ensures UserTurn(s) ==> !Doomed(s)
  {
    ReachableSound(limit, s);
    if id in s.reqs && s.reqs[id].kind == RECV && s.reqs[id].nulled {
      var tr :| IsRun(limit, tr) && Init(tr[0]) && tr[|tr| - 1] == s;
      RunNulledQueued(limit, tr);
      assert Owns(s, RECV, id);
      QueuedReceiveCanComplete(limit, s, id);
    } else if Doomed(s) {
      forall s' | Reaches(limit, s, s') ensures id !in s'.done {
        var tr :| IsRun(limit, tr) && tr[0] == s && tr[|tr| - 1] == s';
        DoomedRun(limit, tr);
      }
    } else {
      var s' := CanComplete(limit, s, id);
    }
  }
}
