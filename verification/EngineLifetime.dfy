/** Request states outlive every raw pointer to them: the queues hold raw pointers, and a
    self-reference keeps each queued request state alive. */
module EngineLifetime {
  import opened Counting
  import opened RequestQueue
  import opened Occurrences
  import opened Engine
  import opened EngineConservation
  import opened EngineNesting

  ghost function BatchedFrame(id: Id): Frame -> bool { (f: Frame) => f.Callback? && f.id == id && f.how.Batched? }
  ghost function InlineFrame(id: Id): Frame -> bool { (f: Frame) => f.Callback? && f.id == id && !f.how.Batched? }

  ghost function Bit(b: bool): int { if b then 1 else 0 }

  ghost predicate ReqOk(s: State, id: Id, q: Req)
    requires |s.chans| == 3
  {
    && q.refs == q.handles + Bit(q.selfRef) + Bit(q.local)
    && q.freed == (if q.refs == 0 then 1 else 0)
    && (q.selfRef <==> HeldOcc(s.chans, id) > 0)
    && (q.local <==> Count(s.stack, BatchedFrame(id)) > 0)
    && (q.ready <==> Occ(s.done, id) + Occ(s.cancelled, id) > 0)
    && Count(s.stack, InlineFrame(id)) == 0
  }

  /** An operation either has a sound request state, or completed inline and is held nowhere. */
  ghost predicate Alive(s: State, id: Id)
  {
    && |s.chans| == 3
    && if id in s.reqs then id < s.posted && ReqOk(s, id, s.reqs[id])
       else HeldOcc(s.chans, id) == 0 && Count(s.stack, BatchedFrame(id)) == 0
  }

  ghost predicate LifetimeInv(s: State)
  {
    Conserved(s) && forall id :: Alive(s, id)
  }

  // ---------- frames of one operation ----------

  lemma {:induction false} FramesOf(stack: seq<Frame>, id: Id)
    ensures RunOcc(stack, id) == Count(stack, BatchedFrame(id)) + Count(stack, InlineFrame(id))
  {
    if stack != [] { FramesOf(stack[..|stack| - 1], id); }
  }

  /** What a step does to the frames of one operation. */
  lemma FrameStep(limit: nat, s: State, a: Action, s': State, id: Id)
    requires Step(limit, s, a, s')
    ensures a.PostInline? ==>
              && Count(s'.stack, BatchedFrame(id)) == Count(s.stack, BatchedFrame(id))
              && Count(s'.stack, InlineFrame(id)) == Count(s.stack, InlineFrame(id)) + Bit(id == s.posted)
    ensures a.RunNext? ==>
              && Count(s'.stack, BatchedFrame(id))
                 == Count(s.stack, BatchedFrame(id)) + Bit(id == s.chans[Top(s).k].batch[0])
              && Count(s'.stack, InlineFrame(id)) == Count(s.stack, InlineFrame(id))
    ensures a.Return? ==>
              && Count(s'.stack, BatchedFrame(id)) == Count(s.stack, BatchedFrame(id)) - Bit(BatchedFrame(id)(Top(s)))
              && Count(s'.stack, InlineFrame(id)) == Count(s.stack, InlineFrame(id)) - Bit(InlineFrame(id)(Top(s)))
    ensures !a.PostInline? && !a.RunNext? && !a.Return? ==>
              && Count(s'.stack, BatchedFrame(id)) == Count(s.stack, BatchedFrame(id))
              && Count(s'.stack, InlineFrame(id)) == Count(s.stack, InlineFrame(id))
  {
    PushedOrPopped(limit, s, a, s');
    CountStep(limit, s, a, s', BatchedFrame(id));
    CountStep(limit, s, a, s', InlineFrame(id));
  }

  /** What one operation needs from a step: the pieces `Alive` is made of. */
  ghost predicate Facts(s: State, s': State, id: Id, held: int, batched: int, inlined: int, finished: int)
  {
    && |s.chans| == 3 && |s'.chans| == 3
    && HeldOcc(s'.chans, id) == HeldOcc(s.chans, id) + held
    && Count(s'.stack, BatchedFrame(id)) == Count(s.stack, BatchedFrame(id)) + batched
    && Count(s'.stack, InlineFrame(id)) == Count(s.stack, InlineFrame(id)) + inlined
    && Occ(s'.done, id) + Occ(s'.cancelled, id) == Occ(s.done, id) + Occ(s.cancelled, id) + finished
  }

  ghost predicate Single(s: State, id: Id)
    requires |s.chans| == 3
  {
    HeldOcc(s.chans, id) + Count(s.stack, BatchedFrame(id)) + Count(s.stack, InlineFrame(id))
    + Occ(s.done, id) + Occ(s.cancelled, id) == if id < s.posted then 1 else 0
  }

  lemma IsSingle(s: State, id: Id)
    requires Accounted(s, id)
    ensures Single(s, id)
  {
    FramesOf(s.stack, id);
  }

  // ---------- every step keeps requests alive ----------

  lemma PostInlineAlive(limit: nat, s: State, s': State, k: nat, id: Id)
    requires |s.chans| == 3 && Single(s, id) && Alive(s, id) && DoPostInline(limit, s, s', k)
    requires Facts(s, s', id, 0, 0, Bit(id == s.posted), 0)
    ensures Alive(s', id)
  {
  }

  lemma PostQueuedAlive(s: State, s': State, k: nat, id: Id)
    requires |s.chans| == 3 && Single(s, id) && Alive(s, id) && DoPostQueued(s, s', k)
    requires Facts(s, s', id, Bit(id == s.posted), 0, 0, 0)
    ensures Alive(s', id)
  {
  }

  lemma CancelAlive(s: State, s': State, k: nat, target: Id, ok: bool, id: Id)
    requires |s.chans| == 3 && Single(s, id) && Alive(s, id) && DoCancel(s, s', k, target, ok)
    requires Facts(s, s', id, -Bit(ok && id == target), 0, 0, Bit(ok && id == target))
    ensures Alive(s', id)
  {
  }

  lemma HandleAlive(s: State, s': State, target: Id, id: Id)
    requires Alive(s, id) && (DoCopyHandle(s, s', target) || DoDropHandle(s, s', target))
    ensures Alive(s', id)
  {
  }

  lemma RunNextAlive(s: State, s': State, id: Id)
    requires |s.chans| == 3 && Single(s, id) && Alive(s, id) && DoRunNext(s, s')
    requires var t := s.chans[Top(s).k].batch[0]; Facts(s, s', id, -Bit(id == t), Bit(id == t), 0, 0)
    ensures Alive(s', id)
  {
  }

  lemma ReturnAlive(s: State, s': State, id: Id)
    requires |s.chans| == 3 && Single(s, id) && Alive(s, id) && DoReturn(s, s')
    requires Facts(s, s', id, 0, -Bit(BatchedFrame(id)(Top(s))), -Bit(InlineFrame(id)(Top(s))), Bit(id == Top(s).id))
    ensures Alive(s', id)
  {
  }

  lemma FinishedStep(limit: nat, s: State, a: Action, s': State, id: Id)
    requires Step(limit, s, a, s')
    ensures Occ(s'.done, id) == Occ(s.done, id) + Bit(a.Return? && s.stack != [] && Top(s).Callback? && id == Top(s).id)
    ensures Occ(s'.cancelled, id) == Occ(s.cancelled, id) + Bit(a.CancelQueued? && a.mpiCancelled && id == a.id)
  {
    match a
    case Return => OccAppend(s.done, Top(s).id, id);
    case CancelQueued(k, t, ok) =>
      assert DoCancel(s, s', k, t, ok);
      OccAppend(s.cancelled, t, id);
    case _ =>
  }

  /** The pieces, from the three views of a step. */
  lemma StepFacts(limit: nat, s: State, a: Action, s': State, id: Id)
    requires Tidy(s) && Accounted(s, id) && Step(limit, s, a, s')
    ensures Single(s, id)
    ensures Facts(s, s', id, HeldDelta(s, a, id), BatchedDelta(s, a, id), InlineDelta(s, a, id),
                  FinishedDelta(s, a, id))
  {
    IsSingle(s, id);
    StepAccounts(limit, s, a, s', id);
    FrameStep(limit, s, a, s', id);
    FinishedStep(limit, s, a, s', id);
  }

  ghost function BatchedDelta(s: State, a: Action, id: Id): int
  {
    match a
    case RunNext => -HeldDelta(s, a, id)
    case Return => if s.stack != [] && BatchedFrame(id)(Top(s)) then -1 else 0
    case _ => 0
  }

  ghost function InlineDelta(s: State, a: Action, id: Id): int
  {
    match a
    case PostInline(_) => Bit(id == s.posted)
    case Return => if s.stack != [] && InlineFrame(id)(Top(s)) then -1 else 0
    case _ => 0
  }

  ghost function FinishedDelta(s: State, a: Action, id: Id): int
  {
    match a
    case CancelQueued(_, t, ok) => Bit(ok && id == t)
    case Return => Bit(s.stack != [] && Top(s).Callback? && id == Top(s).id)
    case _ => 0
  }

  lemma StepAlive(limit: nat, s: State, a: Action, s': State, id: Id)
    requires Tidy(s) && Accounted(s, id) && Alive(s, id) && Step(limit, s, a, s')
    ensures Alive(s', id)
  {
    match a
    case PostInline(k) => UserAlive(limit, s, a, s', id);
    case PostQueued(k) => UserAlive(limit, s, a, s', id);
    case CancelQueued(k, t, ok) => UserAlive(limit, s, a, s', id);
    case CopyHandle(t) => HandleAlive(s, s', t, id);
    case DropHandle(t) => HandleAlive(s, s', t, id);
    case _ => LibraryAlive(limit, s, a, s', id);
  }

  /** The steps of the library itself. */
  lemma LibraryAlive(limit: nat, s: State, a: Action, s': State, id: Id)
    requires Tidy(s) && Accounted(s, id) && Alive(s, id) && Step(limit, s, a, s')
    requires !a.PostInline? && !a.PostQueued? && !a.CancelQueued? && !a.CopyHandle? && !a.DropHandle?
    ensures Alive(s', id)
  {
    StepFacts(limit, s, a, s', id);
    match a
    case RunNext => RunNextAlive(s, s', id);
    case Return => ReturnAlive(s, s', id);
    case _ => OtherAlive(limit, s, a, s', id);
  }

  /** The calls of the user that post or cancel. */
  lemma UserAlive(limit: nat, s: State, a: Action, s': State, id: Id)
    requires Tidy(s) && Accounted(s, id) && Alive(s, id) && Step(limit, s, a, s')
    requires a.PostInline? || a.PostQueued? || a.CancelQueued?
    ensures Alive(s', id)
  {
    StepFacts(limit, s, a, s', id);
    match a
    case PostInline(k) => PostInlineAlive(limit, s, s', k, id);
    case PostQueued(k) => PostQueuedAlive(s, s', k, id);
    case CancelQueued(k, t, ok) => CancelAlive(s, s', k, t, ok, id);
  }

  /** The other steps touch no request state. */
  lemma OtherAlive(limit: nat, s: State, a: Action, s': State, id: Id)
    requires Alive(s, id) && Step(limit, s, a, s') && Facts(s, s', id, 0, 0, 0, 0)
    requires !a.PostQueued? && !a.CancelQueued? && !a.CopyHandle? && !a.DropHandle? && !a.RunNext? && !a.Return?
    ensures Alive(s', id)
  {
  }

  lemma StepLifetime(limit: nat, s: State, s': State)
    requires LifetimeInv(s) && Next(limit, s, s')
    ensures LifetimeInv(s')
  {
    var a :| Step(limit, s, a, s');
    StepConserves(limit, s, s');
    forall id ensures Alive(s', id) {
      assert Accounted(s, id) && Alive(s, id);
      StepAlive(limit, s, a, s', id);
    }
  }

  lemma {:induction false} RunLifetime(limit: nat, tr: seq<State>)
    requires IsRun(limit, tr) && Init(tr[0])
    ensures LifetimeInv(tr[|tr| - 1])
    decreases |tr|
  {
    if |tr| > 1 {
      RunInit(limit, tr);
      var pre := tr[..|tr| - 1];
      assert pre[0] == tr[0] && pre[|pre| - 1] == tr[|tr| - 2];
      RunLifetime(limit, pre);
      StepLifetime(limit, tr[|tr| - 2], tr[|tr| - 1]);
    } else {
      RunConserves(limit, tr);
    }
  }

  lemma ReachableLifetime(limit: nat, s: State)
    requires Reachable(limit, s)
    ensures LifetimeInv(s)
  {
    var tr :| IsRun(limit, tr) && Init(tr[0]) && tr[|tr| - 1] == s;
    RunLifetime(limit, tr);
  }

  // ---------- the theorems ----------

  /** The reference count is exactly the number of live handles; the object is freed once, when
      the last handle dies, and never before its operation is done or cancelled. */
  lemma FreedOnceAtLastHandle(limit: nat, s: State, id: Id)
    requires Reachable(limit, s) && id in s.reqs
    ensures var q := s.reqs[id];
            && q.refs == q.handles + Bit(q.selfRef) + Bit(q.local)
            && q.freed == Bit(q.handles == 0 && !q.selfRef && !q.local)
            && (q.freed > 0 ==> id in s.done || id in s.cancelled)
            && (q.ready <==> id in s.done || id in s.cancelled)
  {
    ReachableLifetime(limit, s);
    assert Accounted(s, id) && Alive(s, id);
    IsSingle(s, id);
    OccMember(s.done, id);
    OccMember(s.cancelled, id);
  }

  /** Every raw pointer a queue or batch will still use refers to a request state that has not
      been freed, whatever handles the user has dropped; so does a running callback's. */
  lemma RawPointersLive(limit: nat, s: State, id: Id)
    requires Reachable(limit, s)
    ensures |s.chans| == 3
    ensures (exists k :: 0 <= k < 3 && (id in s.chans[k].queue || id in s.chans[k].batch)) ==>
              id in s.reqs && s.reqs[id].freed == 0 && s.reqs[id].selfRef && !s.reqs[id].ready
    ensures (exists j :: 0 <= j < |s.stack| && BatchedFrame(id)(s.stack[j])) ==>
              id in s.reqs && s.reqs[id].freed == 0 && s.reqs[id].local && !s.reqs[id].ready
  {
    ReachableLifetime(limit, s);
    assert Accounted(s, id) && Alive(s, id);
    IsSingle(s, id);
    CountExtremes(s.stack, BatchedFrame(id));
    forall k | 0 <= k < 3 && (id in s.chans[k].queue || id in s.chans[k].batch)
      ensures HeldOcc(s.chans, id) > 0
    {
      OccMember(s.chans[k].queue, id);
      OccMember(s.chans[k].batch, id);
    }
  }

  /** Batched callback frames belong to one of the three queues. */
  lemma BatchedKinds(stack: seq<Frame>, i: nat)
    requires Nested(stack) && i < |stack| && stack[i].Callback? && stack[i].how.Batched?
    ensures stack[i].how.k < 3
  {
    assert Above(stack[i - 1], stack[i - 1 + 1]);
    assert Above(stack[i - 2], stack[i - 2 + 1]);
  }

  /** When the three scheduled counters are zero, as `wait_all` waits for, every request state has
      run its callback to the end or been cancelled. */
  lemma WaitAllMeansAllFinished(limit: nat, s: State, id: Id)
    requires Reachable(limit, s) && id in s.reqs
    requires |s.chans| == 3 && forall k :: 0 <= k < 3 ==> s.chans[k].scheduled == 0
    ensures id in s.done || id in s.cancelled
  {
    ReachableLifetime(limit, s);
    ReachableNesting(limit, s);
    assert Accounted(s, id) && Alive(s, id);
    forall i | 0 <= i < |s.stack| ensures !BatchedFrame(id)(s.stack[i]) {
      if BatchedFrame(id)(s.stack[i]) {
        BatchedKinds(s.stack, i);
        var k := s.stack[i].how.k;
        assert ChanOk(s, k);
        CountExtremes(s.stack, BatchedOf(k));
      }
    }
    CountExtremes(s.stack, BatchedFrame(id));
    assert ChanOk(s, 0) && ChanOk(s, 1) && ChanOk(s, 2);
    assert HeldOcc(s.chans, id) == 0;
    IsSingle(s, id);
    OccMember(s.done, id);
    OccMember(s.cancelled, id);
  }
}
