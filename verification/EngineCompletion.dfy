/** Which posted receives can still complete, and when `progress` and `cancel` are safe to call. */
module EngineCompletion {
  import opened Counting
  import opened RequestQueue
  import opened Occurrences
  import opened Engine
  import opened EngineConservation
  import opened EngineNesting
  import opened EngineLifetime
  import opened EngineCancel
  import opened EngineKinds

  // ---------- when `progress` is defined ----------

  /** A `progress` call that has come to queue `st` can go on exactly when the queue is busy, empty or holds
      a handle that is not null. */
  lemma ProgressDefinedIff(limit: nat, s: State, st: nat)
    requires Reachable(limit, s) && s.fault == NoFault && AtProgress(s, st) && st < SHARED
    ensures (exists a, s' :: Step(limit, s, a, s') && s'.fault == NoFault) <==> Testable(s, st)
  {
    ReachableKinds(limit, s);
    if Testable(s, st) {
      assert Step(limit, s, VisitNothing, Push(Pop(s), Progress(st + 1)));
    }
    if a, s' :| Step(limit, s, a, s') && s'.fault == NoFault {
      SafeTest(limit, s, a, s', st);
    }
  }

  lemma SafeTest(limit: nat, s: State, a: Action, s': State, st: nat)
    requires Kinds(s) && AtProgress(s, st) && st < SHARED && Step(limit, s, a, s') && s'.fault == NoFault
    ensures Testable(s, st)
  {
    match a
    case VisitMpi(hit) =>
      var i :| 0 <= i < |hit| && hit[i];
      assert Held(s, st, s.chans[st].queue[i]);
    case _ =>
  }

  lemma Start(limit: nat) returns (s: State)
    ensures Reachable(limit, s) && Init(s)
  {
    s := State(seq(3, i => Chan([], map[], [], false, 0)), 0, 0, [], 0, map[], [], [], [], NoFault);
    assert IsRun(limit, [s]) && Init([s][0]) && [s][|[s]| - 1] == s;
  }

  /** One receive is posted, and its cancel fails. */
  lemma OneFailedCancel(limit: nat) returns (s: State)
    ensures Reachable(limit, s) && |s.chans| == 3 && s.fault == NoFault && s.stack == []
    ensures s.chans[SEND].queue == [] && s.chans[RECV].queue == [0] && !s.chans[RECV].busy
    ensures Nulled(s, 0) && s.ran == [] && s.cancelled == []
  {
    var s0 := Start(limit);
    var s1 := AfterPost(s0, RECV);
    Extend(limit, s0, PostQueued(RECV), s1);
    assert s1.chans[RECV].queue == [0];
    s := s1.(reqs := s1.reqs[0 := s1.reqs[0].(nulled := true)]);
    Extend(limit, s1, CancelQueued(RECV, 0, false), s);
  }

  /** One receive whose cancel fails, then `progress`: the test gets null handles only. */
  lemma LoneFailedCancelFaults(limit: nat) returns (s: State)
    ensures Reachable(limit, s) && s.fault == AllNull
    ensures |s.chans| == 3 && s.chans[RECV].queue == [0] && Nulled(s, 0) && s.ran == [] && s.cancelled == []
  {
    var s1 := OneFailedCancel(limit);
    var s2 := Push(s1, Progress(SEND));
    Extend(limit, s1, CallProgress(SEND), s2);
    var s3 := Push(s1, Progress(RECV));
    assert Pop(s2) == s1;
    Extend(limit, s2, VisitNothing, s3);
    s := s3.(fault := AllNull);
    Extend(limit, s3, TestNulls, s);
  }

  // ---------- a live receive can complete ----------

  /** A receive is queued with a live handle, in a state all invariants hold of. */
  ghost predicate Open(limit: nat, s: State, id: Id)
  {
    && LifetimeInv(s) && NestingInv(limit, s) && Kinds(s) && s.fault == NoFault
    && id in s.chans[RECV].queue && !Nulled(s, id)
  }

  lemma OpenStays(limit: nat, s: State, a: Action, s': State, id: Id)
    requires Open(limit, s, id) && Step(limit, s, a, s') && s'.fault == NoFault
    requires |s'.chans| == 3 && id in s'.chans[RECV].queue && !Nulled(s', id)
    ensures Open(limit, s', id)
  {
    assert Next(limit, s, s');
    StepLifetime(limit, s, s');
    StepNesting(limit, s, s');
    StepKinds(limit, s, a, s');
  }

  ghost function FrameWork(f: Frame): nat
  {
    match f
    case Progress(stage) => if stage <= 3 then 4 - stage else 0
    case _ => 1
  }

  ghost function StackWork(stack: seq<Frame>): nat
  {
    if stack == [] then 0 else StackWork(stack[..|stack| - 1]) + FrameWork(stack[|stack| - 1])
  }

  ghost function ChanWork(c: Chan): nat { 4 * |c.queue| + 2 * |c.batch| }

  /** What is left to do before the user's own code runs again. */
  ghost function Work(s: State): nat
    requires |s.chans| == 3
  {
    ChanWork(s.chans[0]) + ChanWork(s.chans[1]) + ChanWork(s.chans[2]) + StackWork(s.stack)
  }

  lemma PushWork(stack: seq<Frame>, f: Frame)
    ensures StackWork(stack + [f]) == StackWork(stack) + FrameWork(f)
  {
    assert (stack + [f])[..|stack|] == stack;
  }

  /** The step is the library's own. */
  predicate Internal(a: Action)
  {
    a.VisitNothing? || a.VisitMpi? || a.VisitShared? || a.EndProgress? || a.RunNext? || a.EndDrain? || a.Return?
  }

  /** Nothing was posted or cancelled in between, and what is done stays done. */
  ghost predicate Harmless(s: State, s': State)
  {
    && s'.posted == s.posted && s'.cancelled == s.cancelled && s.done <= s'.done && s'.reqs.Keys == s.reqs.Keys
    && forall x :: x in s.reqs ==> s'.reqs[x].kind == s.reqs[x].kind && s'.reqs[x].nulled == s.reqs[x].nulled
  }

  lemma InternalHarmless(limit: nat, s: State, a: Action, s': State)
    requires Step(limit, s, a, s') && Internal(a)
    ensures Harmless(s, s')
  {
  }

  /** The rest of `progress` and of the callbacks runs without posting anything: one step of it. */
  ghost predicate Unwinds(limit: nat, s: State, a: Action, s': State, id: Id)
  {
    Step(limit, s, a, s') && Internal(a) && |s.chans| == 3 && Open(limit, s', id) && Work(s') < Work(s)
  }

  lemma UnwindReturn(limit: nat, s: State, id: Id) returns (s': State)
    requires Open(limit, s, id) && s.stack != [] && Top(s).Callback?
    ensures Unwinds(limit, s, Return, s', id)
  {
    var x := Top(s).id;
    match Top(s).how {
      case Inline => s' := Pop(s).(depth := s.depth - 1, done := s.done + [x]);
      case InlineShared => s' := Pop(s).(ctxDepth := s.ctxDepth - 1, done := s.done + [x]);
      case Batched(k) => s' := AfterBatched(s, k, x);
    }
    OpenStays(limit, s, Return, s', id);
  }

  /** A callback of queue `k` has returned. */
  lemma AfterBatched(s: State, k: nat, x: Id) returns (s': State)
    requires Kinds(s) && s.stack != [] && Top(s) == Callback(x, Batched(k))
    ensures DoReturn(s, s') && |s'.chans| == 3 && s'.fault == s.fault && Work(s') < Work(s)
    ensures s'.chans[RECV].queue == s.chans[RECV].queue && forall id :: Nulled(s', id) <==> Nulled(s, id)
  {
    assert FrameOk(s, s.stack[|s.stack| - 1]);
    s' := Pop(SetChan(s, k, s.chans[k].(scheduled := s.chans[k].scheduled - 1))).(
            done := s.done + [x],
            reqs := s.reqs[x := Unref(s.reqs[x].(local := false, ready := true))]);
  }

  /** One step of the loop over a batch. */
  lemma DrainOne(limit: nat, s: State) returns (a: Action, s': State)
    requires Kinds(s) && s.fault == NoFault && s.stack != [] && Top(s).Drain?
    ensures Step(limit, s, a, s') && Internal(a) && |s'.chans| == 3 && s'.fault == NoFault && Work(s') < Work(s)
    ensures s'.chans[RECV].queue == s.chans[RECV].queue
    ensures Top(s).k < 3
    ensures if s.chans[Top(s).k].batch == [] then a == EndDrain else a == RunNext && s'.stack != [] && Top(s').Callback?
  {
    var k := Top(s).k;
    assert FrameOk(s, s.stack[|s.stack| - 1]);
    if s.chans[k].batch == [] {
      a, s' := EndDrain, Pop(SetChan(s, k, s.chans[k].(busy := false)));
    } else {
      assert Held(s, k, s.chans[k].batch[0]);
      a, s' := RunNext, AfterRunNext(s, k);
      PushWork(s.stack, Callback(s.chans[k].batch[0], Batched(k)));
    }
  }

  lemma UnwindDrain(limit: nat, s: State, id: Id) returns (a: Action, s': State)
    requires Open(limit, s, id) && s.stack != [] && Top(s).Drain?
    ensures Unwinds(limit, s, a, s', id)
  {
    a, s' := DrainOne(limit, s);
    InternalHarmless(limit, s, a, s');
    OpenStays(limit, s, a, s', id);
  }

  /** A visit of the shared queue that collects the request at `pos`. */
  lemma VisitSharedAt(s: State, pos: nat) returns (s': State)
    requires Kinds(s) && AtProgress(s, SHARED) && !s.chans[SHARED].busy && pos < |s.chans[SHARED].queue|
    requires s.chans[SHARED].batch == []
    requires forall i :: 0 <= i < pos ==> !Nulled(s, s.chans[SHARED].queue[i])
    ensures DoVisitShared(s, s', pos) && |s'.chans| == 3 && s'.fault == s.fault && Work(s') <= Work(s) - 2
    ensures s'.chans[RECV] == s.chans[RECV] && s'.chans[SHARED].batch == [s.chans[SHARED].queue[pos]]
    ensures s'.stack == Pop(s).stack + [Progress(SHARED + 1), Drain(SHARED)] && s'.reqs == s.reqs
  {
    var c, below := s.chans[SHARED], Pop(s).stack;
    s' := Push(Push(Pop(SetChan(s, SHARED, c.(queue := c.queue[pos + 1..] + c.queue[..pos],
                                              batch := [c.queue[pos]], busy := true))),
                    Progress(SHARED + 1)), Drain(SHARED));
    PushWork(below, Progress(SHARED + 1));
    PushWork(below + [Progress(SHARED + 1)], Drain(SHARED));
  }

  /** One visit of the shared queue: a null handle, if there is any, is collected. */
  lemma SharedOne(limit: nat, s: State) returns (a: Action, s': State)
    requires Kinds(s) && ChanOk(s, SHARED) && s.fault == NoFault && AtProgress(s, SHARED)
    ensures Step(limit, s, a, s') && Internal(a) && |s'.chans| == 3 && s'.fault == NoFault && Work(s') < Work(s)
    ensures s'.chans[RECV] == s.chans[RECV] && s'.stack != []
    ensures Top(s') == Progress(SHARED + 1) || Top(s') == Drain(SHARED)
  {
    var c := s.chans[SHARED];
    if !c.busy && exists i :: 0 <= i < |c.queue| && Nulled(s, c.queue[i]) {
      var pos := FirstNull(s, c.queue, |c.queue|);
      a := VisitShared(pos);
      s' := VisitSharedAt(s, pos);
    } else {
      a, s' := VisitNothing, Push(Pop(s), Progress(SHARED + 1));
      PushWork(Pop(s).stack, Progress(SHARED + 1));
    }
  }

  lemma UnwindShared(limit: nat, s: State, id: Id) returns (a: Action, s': State)
    requires Open(limit, s, id) && AtProgress(s, SHARED)
    ensures Unwinds(limit, s, a, s', id)
  {
    a, s' := SharedOne(limit, s);
    InternalHarmless(limit, s, a, s');
    OpenStays(limit, s, a, s', id);
  }

  /** A queue of sends can always be tested, and so can a queue that holds a live receive. */
  lemma CanTest(limit: nat, s: State, id: Id, st: nat)
    requires Open(limit, s, id) && st < SHARED
    ensures Testable(s, st)
  {
    assert Held(s, RECV, id);
    if s.chans[SEND].queue != [] {
      assert Held(s, SEND, s.chans[SEND].queue[0]);
    }
  }

  lemma UnwindTest(limit: nat, s: State, id: Id, st: nat) returns (s': State)
    requires Open(limit, s, id) && AtProgress(s, st) && st < SHARED
    ensures Unwinds(limit, s, VisitNothing, s', id) && s' == Push(Pop(s), Progress(st + 1))
  {
    CanTest(limit, s, id, st);
    s' := Push(Pop(s), Progress(st + 1));
    PushWork(Pop(s).stack, Progress(st + 1));
    OpenStays(limit, s, VisitNothing, s', id);
  }

  lemma UnwindStep(limit: nat, s: State, id: Id) returns (a: Action, s': State)
    requires Open(limit, s, id) && s.stack != []
    ensures Unwinds(limit, s, a, s', id)
  {
    assert FrameOk(s, s.stack[|s.stack| - 1]);
    match Top(s)
    case Callback(_, _) =>
      a := Return;
      s' := UnwindReturn(limit, s, id);
    case Drain(_) => a, s' := UnwindDrain(limit, s, id);
    case Progress(stage) =>
      if stage == 3 {
        a, s' := EndProgress, Pop(s);
        OpenStays(limit, s, a, s', id);
      } else if stage == SHARED {
        a, s' := UnwindShared(limit, s, id);
      } else {
        a := VisitNothing;
        s' := UnwindTest(limit, s, id, stage);
      }
  }

  lemma {:induction false} Unwind(limit: nat, s0: State, s: State, id: Id) returns (s': State)
    requires Reaches(limit, s0, s) && Open(limit, s, id)
    ensures Reaches(limit, s0, s') && Open(limit, s', id) && s'.stack == []
    ensures Harmless(s, s') && Work(s') <= Work(s)
    decreases Work(s)
  {
    if s.stack == [] {
      s' := s;
    } else {
      var a, mid := UnwindStep(limit, s, id);
      GoOn(limit, s0, s, a, mid);
      InternalHarmless(limit, s, a, mid);
      s' := Unwind(limit, s0, mid, id);
    }
  }

  /** Only position `i` is marked. */
  ghost function Only(n: nat, i: nat): (hit: seq<bool>)
    ensures |hit| == n && forall j :: 0 <= j < n ==> (hit[j] <==> j == i)
  {
    seq(n, j => j == i)
  }

  lemma {:induction false} SelectedOnly(q: seq<Id>, hit: seq<bool>, i: nat)
    requires |hit| == |q| && forall j :: 0 <= j < |q| ==> (hit[j] <==> j == i)
    ensures Selected(q, hit) == if i < |q| then [q[i]] else []
  {
    if q != [] {
      SelectedOnly(q[..|q| - 1], hit[..|q| - 1], i);
    }
  }

  /** From the user's code, `progress` collects the receive alone. */
  lemma CollectIt(limit: nat, s0: State, s: State, id: Id) returns (s': State)
    requires Reaches(limit, s0, s) && Open(limit, s, id) && s.stack == []
    ensures Reaches(limit, s0, s') && |s'.chans| == 3 && s'.fault == NoFault && id in s'.reqs
    ensures s'.stack == [Progress(SHARED), Drain(RECV)] && s'.chans[RECV].batch == [id]
  {
    var s1 := Push(s, Progress(SEND));
    GoOn(limit, s0, s, CallProgress(SEND), s1);
    OpenStays(limit, s, CallProgress(SEND), s1, id);
    var s2 := UnwindTest(limit, s1, id, SEND);
    GoOn(limit, s0, s1, VisitNothing, s2);
    assert Pop(s1) == s;
    s' := CollectNow(limit, s0, s2, id);
  }

  lemma CollectNow(limit: nat, s0: State, s: State, id: Id) returns (s': State)
    requires Reaches(limit, s0, s) && Open(limit, s, id) && s.stack == [Progress(RECV)]
    ensures Reaches(limit, s0, s') && |s'.chans| == 3 && s'.fault == NoFault && id in s'.reqs
    ensures s'.stack == [Progress(SHARED), Drain(RECV)] && s'.chans[RECV].batch == [id]
  {
    var c := s.chans[RECV];
    assert Held(s, RECV, id);
    NotBusy(limit, s);
    var i: nat :| i < |c.queue| && c.queue[i] == id;
    s' := CollectAt(limit, s0, s, i);
  }

  lemma NotBusy(limit: nat, s: State)
    requires NestingInv(limit, s) && s.stack == [Progress(RECV)]
    ensures |s.chans| == 3 && !s.chans[RECV].busy
  {
    assert ChanOk(s, RECV);
    CountExtremes(s.stack, DrainOf(RECV));
  }

  lemma CollectAt(limit: nat, s0: State, s: State, i: nat) returns (s': State)
    requires Reaches(limit, s0, s) && s.stack == [Progress(RECV)] && s.fault == NoFault
    requires |s.chans| == 3 && !s.chans[RECV].busy && i < |s.chans[RECV].queue|
    requires var id := s.chans[RECV].queue[i]; id in s.reqs && !Nulled(s, id)
    ensures Reaches(limit, s0, s') && |s'.chans| == 3 && s'.fault == NoFault && s'.reqs == s.reqs
    ensures s'.stack == [Progress(SHARED), Drain(RECV)] && s'.chans[RECV].batch == [s.chans[RECV].queue[i]]
  {
    var c := s.chans[RECV];
    var hit := Only(|c.queue|, i);
    SelectedOnly(c.queue, hit, i);
    assert hit[i];
    s' := Push(Push(Pop(SetChan(s, RECV, AfterCollect(c, hit))), Progress(SHARED)), Drain(RECV));
    GoOn(limit, s0, s, VisitMpi(hit), s');
  }

  /** The callback of the collected request runs to its end. */
  lemma FinishIt(limit: nat, s0: State, s: State, k: nat, id: Id) returns (s': State)
    requires Reaches(limit, s0, s) && |s.chans| == 3 && s.fault == NoFault && id in s.reqs && k < 3
    requires s.stack != [] && Top(s) == Drain(k) && s.chans[k].batch == [id]
    ensures Reaches(limit, s0, s') && id in s'.done
  {
    var s1 := AfterRunNext(s, k);
    GoOn(limit, s0, s, RunNext, s1);
    s' := Pop(SetChan(s1, k, s1.chans[k].(scheduled := s1.chans[k].scheduled - 1))).(
            done := s1.done + [id],
            reqs := s1.reqs[id := Unref(s1.reqs[id].(local := false, ready := true))]);
    GoOn(limit, s0, s1, Return, s');
  }

  /** In every reachable state without a fault, a queued receive can still complete exactly when no failed
      cancel has nulled its handle. */
  lemma QueuedReceiveCanComplete(limit: nat, s: State, id: Id)
    requires Reachable(limit, s) && s.fault == NoFault && |s.chans| == 3 && id in s.chans[RECV].queue
    ensures (exists s' :: Reaches(limit, s, s') && id in s'.done) <==> !Nulled(s, id)
  {
    if Nulled(s, id) {
      forall s' | Reaches(limit, s, s') ensures id !in s'.done {
        NeverDone(limit, s, s', id);
      }
    } else {
      ReachableLifetime(limit, s);
      ReachableNesting(limit, s);
      ReachableKinds(limit, s);
      Stay(limit, s);
      var s1 := Unwind(limit, s, s, id);
      var s2 := CollectIt(limit, s, s1, id);
      var s3 := FinishIt(limit, s, s2, RECV, id);
    }
  }

  lemma NeverDone(limit: nat, s: State, s': State, id: Id)
    requires Reachable(limit, s) && |s.chans| == 3 && id in s.chans[RECV].queue && Nulled(s, id)
    requires Reaches(limit, s, s')
    ensures id !in s'.done
  {
    ReachableConserves(limit, s);
    assert Accounted(s, id);
    HeldMember(s, RECV, id);
    var tr :| IsRun(limit, tr) && tr[0] == s && tr[|tr| - 1] == s';
    RunStranded(limit, tr, id);
    assert Accounted(s', id);
    OccMember(s'.chans[RECV].queue, id);
    OccMember(s'.done, id);
  }

  // ---------- when `cancel` is safe ----------

  /** While the receive queue is not in progress, every receive that is not ready is queued, so that `cancel`
      finds it where it remembers to be. */
  lemma NotReadyMeansQueued(limit: nat, s: State, id: Id)
    requires Reachable(limit, s) && |s.chans| == 3 && !s.chans[RECV].busy
    requires id in s.reqs && s.reqs[id].kind == RECV && !s.reqs[id].ready
    ensures id in s.chans[RECV].queue && id in s.chans[RECV].index
    ensures s.chans[RECV].index[id] < |s.chans[RECV].queue|
    ensures s.chans[RECV].queue[s.chans[RECV].index[id]] == id
  {
    ReachableLifetime(limit, s);
    ReachableNesting(limit, s);
    ReachableKinds(limit, s);
    assert Accounted(s, id) && Alive(s, id) && ChanOk(s, RECV);
    IsSingle(s, id);
    NoBatchedReceive(limit, s, id);
    OccMember(s.chans[RECV].queue, id);
    HeldElsewhere(s, id);
  }

  lemma NoBatchedReceive(limit: nat, s: State, id: Id)
    requires NestingInv(limit, s) && Kinds(s) && !s.chans[RECV].busy
    requires id in s.reqs && s.reqs[id].kind == RECV
    ensures Count(s.stack, BatchedFrame(id)) == 0
  {
    assert ChanOk(s, RECV);
    BatchedVersusDrain(s.stack, RECV);
    CountExtremes(s.stack, BatchedOf(RECV));
    forall i | 0 <= i < |s.stack| ensures !BatchedFrame(id)(s.stack[i]) {
      assert FrameOk(s, s.stack[i]);
      assert !BatchedOf(RECV)(s.stack[i]);
    }
    CountExtremes(s.stack, BatchedFrame(id));
  }

  lemma HeldElsewhere(s: State, id: Id)
    requires Kinds(s) && id in s.reqs && s.reqs[id].kind == RECV
    ensures ChanOcc(s.chans[SEND], id) == 0 && ChanOcc(s.chans[SHARED], id) == 0
  {
    assert !Held(s, SEND, id) && !Held(s, SHARED, id);
    OccMember(s.chans[SEND].queue, id);
    OccMember(s.chans[SEND].batch, id);
    OccMember(s.chans[SHARED].queue, id);
    OccMember(s.chans[SHARED].batch, id);
  }

  /** Seen from user code: every receive that is not ready is queued exactly when no callback of the receive queue
      is under way. */
  lemma ReceivesQueuedIff(limit: nat, s: State)
    requires Reachable(limit, s) && UserTurn(s) && |s.chans| == 3
    ensures (forall id :: Owns(s, RECV, id) && !s.reqs[id].ready ==> id in s.chans[RECV].queue)
            <==> !s.chans[RECV].busy
  {
    if s.chans[RECV].busy {
      var id := RunningReceive(limit, s);
    } else {
      forall id | Owns(s, RECV, id) && !s.reqs[id].ready ensures id in s.chans[RECV].queue {
        NotReadyMeansQueued(limit, s, id);
      }
    }
  }

  lemma RunningReceive(limit: nat, s: State) returns (id: Id)
    requires Reachable(limit, s) && UserTurn(s) && |s.chans| == 3 && s.chans[RECV].busy
    ensures Owns(s, RECV, id) && !s.reqs[id].ready && id !in s.chans[RECV].queue
  {
    ReachableNesting(limit, s);
    ReachableKinds(limit, s);
    ReachableLifetime(limit, s);
    assert ChanOk(s, RECV);
    BatchedVersusDrain(s.stack, RECV);
    CountExtremes(s.stack, BatchedOf(RECV));
    var i :| 0 <= i < |s.stack| && BatchedOf(RECV)(s.stack[i]);
    assert FrameOk(s, s.stack[i]);
    id := s.stack[i].id;
    RunsOnly(s, i);
  }

  lemma RunsOnly(s: State, i: nat)
    requires LifetimeInv(s) && i < |s.stack| && s.stack[i].Callback? && s.stack[i].how.Batched?
    ensures var id := s.stack[i].id; id in s.reqs && !s.reqs[id].ready && id !in s.chans[RECV].queue
  {
    var id := s.stack[i].id;
    assert Accounted(s, id) && Alive(s, id);
    IsSingle(s, id);
    CountExtremes(s.stack, BatchedFrame(id));
    assert BatchedFrame(id)(s.stack[i]);
    OccMember(s.chans[RECV].queue, id);
  }

  /** The first `n` operations of a run were receives, and nothing else has happened. */
  ghost predicate OnlyReceives(limit: nat, s: State, n: nat)
  {
    && Reachable(limit, s) && s.fault == NoFault && s.stack == [] && |s.chans| == 3 && s.posted == n
    && s.chans[SEND].queue == [] && !s.chans[RECV].busy && |s.chans[RECV].queue| == n
    && forall i :: 0 <= i < n ==> s.chans[RECV].queue[i] == i && PostedReceive(s, i)
  }

  ghost predicate PostedReceive(s: State, id: Id)
    requires |s.chans| == 3
  {
    && id in s.chans[RECV].index && s.chans[RECV].index[id] == id
    && Owns(s, RECV, id) && s.reqs[id].handles == 1 && !s.reqs[id].ready && !s.reqs[id].nulled
  }

  lemma {:induction false} PostReceives(limit: nat, n: nat) returns (s: State)
    ensures OnlyReceives(limit, s, n)
  {
    if n == 0 {
      s := Start(limit);
    } else {
      var before := PostReceives(limit, n - 1);
      s := AfterPost(before, RECV);
      Extend(limit, before, PostQueued(RECV), s);
      forall i | 0 <= i < n ensures s.chans[RECV].queue[i] == i && PostedReceive(s, i) {
        if i < n - 1 { assert PostedReceive(before, i); }
      }
    }
  }

  /** Four receives are posted; `progress` collects the first two. */
  lemma TwoOfFourCollected(limit: nat) returns (s: State)
    ensures Reachable(limit, s) && s.fault == NoFault && |s.chans| == 3
    ensures s.stack == [Progress(SHARED), Drain(RECV)]
    ensures s.chans[RECV].queue == [2, 3] && s.chans[RECV].batch == [0, 1]
    ensures 1 in s.chans[RECV].index && s.chans[RECV].index[1] == 1
    ensures Owns(s, RECV, 0) && Owns(s, RECV, 1) && s.reqs[1].handles > 0 && !s.reqs[1].ready
  {
    var s4 := PostReceives(limit, 4);
    assert PostedReceive(s4, 0) && PostedReceive(s4, 1);
    assert s4.chans[RECV].queue == [0, 1, 2, 3];
    var s5 := AtReceives(limit, s4);
    TwoCut(s5.chans[RECV]);
    s := CollectTwo(limit, s5);
  }

  lemma AtReceives(limit: nat, s: State) returns (s': State)
    requires OnlyReceives(limit, s, 4)
    ensures s' == Push(s, Progress(RECV)) && Reachable(limit, s')
  {
    var s1 := Push(s, Progress(SEND));
    Extend(limit, s, CallProgress(SEND), s1);
    s' := Push(s, Progress(RECV));
    assert Pop(s1) == s;
    Extend(limit, s1, VisitNothing, s');
  }

  lemma CollectTwo(limit: nat, s: State) returns (s': State)
    requires Reachable(limit, s) && s.fault == NoFault && s.stack == [Progress(RECV)] && |s.chans| == 3
    requires s.chans[RECV].queue == [0, 1, 2, 3] && !s.chans[RECV].busy
    requires forall i :: 0 <= i < 4 ==> i in s.reqs && !s.reqs[i].nulled
    ensures Reachable(limit, s') && s'.fault == NoFault && |s'.chans| == 3 && s'.reqs == s.reqs
    ensures s'.stack == [Progress(SHARED), Drain(RECV)]
    ensures s'.chans[RECV] == AfterCollect(s.chans[RECV], [true, true, false, false])
  {
    var hit := [true, true, false, false];
    assert hit[0];
    s' := Push(Push(Pop(SetChan(s, RECV, AfterCollect(s.chans[RECV], hit))), Progress(SHARED)), Drain(RECV));
    Extend(limit, s, VisitMpi(hit), s');
  }

  /** When the marked positions come first, the split is a cut. */
  lemma {:induction false} PrefixSplit(q: seq<Id>, hit: seq<bool>, m: nat)
    requires |hit| == |q| && m <= |q| && forall j :: 0 <= j < |q| ==> (hit[j] <==> j < m)
    ensures Selected(q, hit) == q[..m] && Rejected(q, hit) == q[m..]
  {
    if q != [] {
      var n := |q| - 1;
      PrefixSplit(q[..n], hit[..n], if m <= n then m else n);
      if m <= n {
        assert q[m..] == q[..n][m..] + [q[n]];
      } else {
        assert q[..m] == q[..n] + [q[n]];
      }
    }
  }

  /** The first two of four are collected, and the second keeps its old position. */
  lemma TwoCut(c: Chan)
    requires c.queue == [0, 1, 2, 3] && IndexOk(c.queue, c.index)
    ensures var after := AfterCollect(c, [true, true, false, false]);
            after.queue == [2, 3] && after.batch == [0, 1] && 1 in after.index && after.index[1] == 1
  {
    var q: seq<Id>, hit := [0, 1, 2, 3], [true, true, false, false];
    PrefixSplit(q, hit, 2);
    assert q[..2] == [0, 1] && q[2..] == [2, 3];
    PositionsStale(q, hit, c.index, 1);
  }

  /** In that callback, cancelling receive 1 takes receive 3 out of the queue. */
  lemma CancelRemovesAnother(limit: nat) returns (s: State)
    ensures Reachable(limit, s) && |s.chans| == 3 && DoCancelCollected(s, s.(fault := WrongEntry(1)), 1)
    ensures var c := s.chans[RECV];
            && 1 !in c.queue && 3 in c.queue
            && 1 in c.index && c.index[1] < |c.queue| && AfterCancel(c.queue, c.index, 1) == [2]
  {
    var s1 := TwoOfFourCollected(limit);
    s := AfterRunNext(s1, RECV);
    Extend(limit, s1, RunNext, s);
  }
}
