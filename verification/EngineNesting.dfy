/** How deep callbacks nest, and what the scheduled counters count. */
module EngineNesting {
  import opened Counting
  import opened RequestQueue
  import opened Engine

  predicate IsInline(f: Frame) { f.Callback? && f.how == Inline }
  predicate IsInlineShared(f: Frame) { f.Callback? && f.how == InlineShared }
  predicate IsCallback(f: Frame) { f.Callback? }
  ghost function DrainOf(k: nat): Frame -> bool { (f: Frame) => f == Drain(k) }
  ghost function BatchedOf(k: nat): Frame -> bool { (f: Frame) => f.Callback? && f.how == Batched(k) }

  /** Which frame may sit on top of which. */
  ghost predicate Above(f: Frame, g: Frame)
  {
    match f
    case Progress(stage) => g.Drain? && g.k < 3 && stage == g.k + 1
    case Drain(k) => g.Callback? && g.how == Batched(k)
    case Callback(_, _) => g.Progress? || (g.Callback? && !g.how.Batched?)
  }

  ghost predicate Nested(stack: seq<Frame>)
  {
    && (stack != [] ==> stack[0].Progress? || (stack[0].Callback? && !stack[0].how.Batched?))
    && forall i :: 0 <= i < |stack| - 1 ==> Above(stack[i], stack[i + 1])
  }

  /** The recursion counters equal the inline callbacks on the stack. */
  ghost predicate DepthOk(limit: nat, s: State)
  {
    && s.depth == Count(s.stack, IsInline) <= limit + 1
    && s.ctxDepth == Count(s.stack, IsInlineShared) <= limit + 1
  }

  /** `in_progress` says whether the queue's loop is on the stack; the scheduled counter counts the
      request states that are not ready. */
  ghost predicate ChanOk(s: State, k: nat)
  {
    && |s.chans| == 3 && k < 3
    && Count(s.stack, DrainOf(k)) == (if s.chans[k].busy then 1 else 0)
    && s.chans[k].scheduled == |s.chans[k].queue| + |s.chans[k].batch| + Count(s.stack, BatchedOf(k))
    && (!s.chans[k].busy ==> s.chans[k].batch == [])
  }

  ghost predicate NestingInv(limit: nat, s: State)
  {
    Nested(s.stack) && DepthOk(limit, s) && forall k :: 0 <= k < 3 ==> ChanOk(s, k)
  }

  // ---------- the stack shape ----------

  lemma PushNested(stack: seq<Frame>, f: Frame)
    requires Nested(stack)
    requires if stack == [] then f.Progress? || (f.Callback? && !f.how.Batched?) else Above(stack[|stack| - 1], f)
    ensures Nested(stack + [f])
  {
  }

  lemma StepNested(limit: nat, s: State, a: Action, s': State)
    requires Nested(s.stack) && Step(limit, s, a, s')
    ensures Nested(s'.stack)
  {
    PushedOrPopped(limit, s, a, s');
    match a
    case VisitMpi(hit) => VisitNested(s, s');
    case VisitShared(pos) => VisitNested(s, s');
    case VisitNothing => PushNested(Pop(s).stack, Progress(Top(s).stage + 1));
    case PostInline(k) => PushNested(s.stack, Top(s'));
    case CallProgress(stage) => PushNested(s.stack, Top(s'));
    case RunNext => PushNested(s.stack, Top(s'));
    case _ =>
  }

  lemma VisitNested(s: State, s': State)
    requires Nested(s.stack) && s.stack != [] && Top(s).Progress? && Top(s).stage < 3
    requires s'.stack == Pop(s).stack + [Progress(Top(s).stage + 1)] + [Drain(Top(s).stage)]
    ensures Nested(s'.stack)
  {
    PushNested(Pop(s).stack, Progress(Top(s).stage + 1));
    PushNested(Pop(s).stack + [Progress(Top(s).stage + 1)], Drain(Top(s).stage));
  }

  // ---------- counting frames through a step ----------

  ghost function One(p: Frame -> bool, f: Frame): int { if p(f) then 1 else 0 }

  lemma CountVisit(s: State, s': State, p: Frame -> bool)
    requires s.stack != [] && Top(s).Progress?
    requires s'.stack == Pop(s).stack + [Progress(Top(s).stage + 1)] + [Drain(Top(s).stage)]
    ensures Count(s'.stack, p) == Count(s.stack, p) - One(p, Top(s))
                                  + One(p, Progress(Top(s).stage + 1)) + One(p, Drain(Top(s).stage))
  {
    CountPush(Pop(s).stack, Progress(Top(s).stage + 1), p);
    CountPush(Pop(s).stack + [Progress(Top(s).stage + 1)], Drain(Top(s).stage), p);
  }

  /** A step that is no visit pushes one frame, pops one, or leaves the stack alone. */
  ghost predicate Pushed(s: State, s': State) { s'.stack != [] && s'.stack == s.stack + [Top(s')] }
  ghost predicate Popped(s: State, s': State) { s.stack != [] && s'.stack == Pop(s).stack }

  lemma PushedOrPopped(limit: nat, s: State, a: Action, s': State)
    requires Step(limit, s, a, s')
    ensures a.PostInline? || a.CallProgress? || a.RunNext? ==> Pushed(s, s')
    ensures a.EndProgress? || a.EndDrain? || a.Return? ==> Popped(s, s')
    ensures a.PostQueued? || a.CancelQueued? || a.CopyHandle? || a.DropHandle? || a.TestNulls? || a.CancelCollected? ==>
              s'.stack == s.stack
    ensures a.VisitNothing? ==>
              s.stack != [] && Top(s).Progress? && s'.stack == Pop(s).stack + [Progress(Top(s).stage + 1)]
    ensures a.VisitMpi? || a.VisitShared? ==>
              s.stack != [] && Top(s).Progress?
              && s'.stack == Pop(s).stack + [Progress(Top(s).stage + 1)] + [Drain(Top(s).stage)]
  {
    match a
    case CancelQueued(k, id, ok) => assert DoCancel(s, s', k, id, ok);
    case _ =>
  }

  lemma CountStep(limit: nat, s: State, a: Action, s': State, p: Frame -> bool)
    requires Step(limit, s, a, s')
    ensures Pushed(s, s') ==> Count(s'.stack, p) == Count(s.stack, p) + One(p, Top(s'))
    ensures Popped(s, s') ==> Count(s'.stack, p) == Count(s.stack, p) - One(p, Top(s))
    ensures a.VisitNothing? ==>
              s.stack != [] && Top(s).Progress?
              && Count(s'.stack, p) == Count(s.stack, p) - One(p, Top(s)) + One(p, Progress(Top(s).stage + 1))
    ensures a.VisitMpi? || a.VisitShared? ==>
              s.stack != [] && Top(s).Progress?
              && Count(s'.stack, p) == Count(s.stack, p) - One(p, Top(s))
                                       + One(p, Progress(Top(s).stage + 1)) + One(p, Drain(Top(s).stage))
  {
    PushedOrPopped(limit, s, a, s');
    if Pushed(s, s') {
      CountPush(s.stack, Top(s'), p);
    } else if a.VisitNothing? {
      CountPush(Pop(s).stack, Progress(Top(s).stage + 1), p);
    } else if a.VisitMpi? || a.VisitShared? {
      CountVisit(s, s', p);
    }
  }

  // ---------- every step keeps the counters ----------

  lemma StepDepth(limit: nat, s: State, a: Action, s': State)
    requires DepthOk(limit, s) && Step(limit, s, a, s')
    ensures DepthOk(limit, s')
  {
    OwnDepth(limit, s, a, s');
    SharedDepth(limit, s, a, s');
  }

  lemma OwnDepth(limit: nat, s: State, a: Action, s': State)
    requires s.depth == Count(s.stack, IsInline) <= limit + 1 && Step(limit, s, a, s')
    ensures s'.depth == Count(s'.stack, IsInline) <= limit + 1
  {
    PushedOrPopped(limit, s, a, s');
    CountStep(limit, s, a, s', IsInline);
  }

  lemma SharedDepth(limit: nat, s: State, a: Action, s': State)
    requires s.ctxDepth == Count(s.stack, IsInlineShared) <= limit + 1 && Step(limit, s, a, s')
    ensures s'.ctxDepth == Count(s'.stack, IsInlineShared) <= limit + 1
  {
    PushedOrPopped(limit, s, a, s');
    CountStep(limit, s, a, s', IsInlineShared);
  }

  /** The channel a step writes to. */
  ghost predicate Touches(s: State, a: Action, k: nat)
  {
    match a
    case PostQueued(j) => j == k
    case CancelQueued(j, _, _) => j == k
    case VisitMpi(_) => s.stack != [] && Top(s) == Progress(k)
    case VisitShared(_) => k == SHARED
    case RunNext => s.stack != [] && Top(s) == Drain(k)
    case EndDrain => s.stack != [] && Top(s) == Drain(k)
    case Return => s.stack != [] && Top(s).Callback? && Top(s).how == Batched(k)
    case _ => false
  }

  lemma OtherChan(limit: nat, s: State, a: Action, s': State, k: nat)
    requires ChanOk(s, k) && Step(limit, s, a, s') && !Touches(s, a, k)
    ensures |s'.chans| == 3 && s'.chans[k] == s.chans[k]
    ensures Count(s'.stack, DrainOf(k)) == Count(s.stack, DrainOf(k))
    ensures Count(s'.stack, BatchedOf(k)) == Count(s.stack, BatchedOf(k))
  {
    OtherFrames(limit, s, a, s', k);
    match a
    case CancelQueued(j, id, ok) => assert DoCancel(s, s', j, id, ok);
    case _ =>
  }

  lemma OtherFrames(limit: nat, s: State, a: Action, s': State, k: nat)
    requires Step(limit, s, a, s') && !Touches(s, a, k)
    ensures Count(s'.stack, DrainOf(k)) == Count(s.stack, DrainOf(k))
    ensures Count(s'.stack, BatchedOf(k)) == Count(s.stack, BatchedOf(k))
  {
    PushedOrPopped(limit, s, a, s');
    CountStep(limit, s, a, s', DrainOf(k));
    CountStep(limit, s, a, s', BatchedOf(k));
  }

  lemma TouchedChan(limit: nat, s: State, a: Action, s': State, k: nat)
    requires ChanOk(s, k) && Step(limit, s, a, s') && Touches(s, a, k)
    requires !a.VisitMpi? && !a.CancelQueued?
    ensures ChanOk(s', k)
  {
    CountStep(limit, s, a, s', DrainOf(k));
    CountStep(limit, s, a, s', BatchedOf(k));
    PushedOrPopped(limit, s, a, s');
  }

  lemma CancelledChan(s: State, s': State, k: nat, id: Id, ok: bool)
    requires ChanOk(s, k) && DoCancel(s, s', k, id, ok)
    ensures ChanOk(s', k)
  {
  }

  lemma VisitedChan(s: State, s': State, k: nat, hit: seq<bool>)
    requires ChanOk(s, k) && DoVisitMpi(s, s', hit) && Top(s) == Progress(k)
    ensures ChanOk(s', k)
  {
    PartitionSizes(s.chans[k].queue, hit);
    CountVisit(s, s', DrainOf(k));
    CountVisit(s, s', BatchedOf(k));
  }

  lemma StepChan(limit: nat, s: State, a: Action, s': State, k: nat)
    requires ChanOk(s, k) && Step(limit, s, a, s')
    ensures ChanOk(s', k)
  {
    if !Touches(s, a, k) {
      OtherChan(limit, s, a, s', k);
    } else if a.CancelQueued? {
      CancelledChan(s, s', k, a.id, a.mpiCancelled);
    } else if a.VisitMpi? {
      VisitedChan(s, s', k, a.hit);
    } else {
      TouchedChan(limit, s, a, s', k);
    }
  }

  lemma StepNesting(limit: nat, s: State, s': State)
    requires NestingInv(limit, s) && Next(limit, s, s')
    ensures NestingInv(limit, s')
  {
    var a :| Step(limit, s, a, s');
    StepNested(limit, s, a, s');
    StepDepth(limit, s, a, s');
    forall k | 0 <= k < 3 ensures ChanOk(s', k) {
      StepChan(limit, s, a, s', k);
    }
  }

  lemma {:induction false} RunNesting(limit: nat, tr: seq<State>)
    requires IsRun(limit, tr) && Init(tr[0])
    ensures NestingInv(limit, tr[|tr| - 1])
    decreases |tr|
  {
    if |tr| > 1 {
      RunInit(limit, tr);
      var pre := tr[..|tr| - 1];
      assert pre[0] == tr[0] && pre[|pre| - 1] == tr[|tr| - 2];
      RunNesting(limit, pre);
      StepNesting(limit, tr[|tr| - 2], tr[|tr| - 1]);
    }
  }

  lemma ReachableNesting(limit: nat, s: State)
    requires Reachable(limit, s)
    ensures NestingInv(limit, s)
  {
    var tr :| IsRun(limit, tr) && Init(tr[0]) && tr[|tr| - 1] == s;
    RunNesting(limit, tr);
  }

  // ---------- the bound ----------

  /** Each loop frame carries at most one callback, directly above it. */
  lemma {:induction false} BatchedVersusDrain(stack: seq<Frame>, k: nat)
    requires Nested(stack)
    ensures Count(stack, BatchedOf(k))
            == Count(stack, DrainOf(k)) - (if stack != [] && stack[|stack| - 1] == Drain(k) then 1 else 0)
    decreases |stack|
  {
    if stack != [] {
      var n := |stack| - 1;
      BatchedVersusDrain(stack[..n], k);
      assert n > 0 ==> Above(stack[n - 1], stack[n - 1 + 1]);
    }
  }

  /** Callback frames by who called them. */
  lemma {:induction false} CallbacksByCaller(stack: seq<Frame>)
    requires Nested(stack)
    ensures Count(stack, IsCallback)
            == Count(stack, IsInline) + Count(stack, IsInlineShared)
               + Count(stack, BatchedOf(SEND)) + Count(stack, BatchedOf(RECV)) + Count(stack, BatchedOf(SHARED))
    ensures stack != [] && stack[|stack| - 1].Drain? ==> stack[|stack| - 1].k < 3
    decreases |stack|
  {
    if stack != [] {
      var n := |stack| - 1;
      CallbacksByCaller(stack[..n]);
      assert n > 0 ==> Above(stack[n - 1], stack[n - 1 + 1]);
    }
  }

  /** The recursion counters never exceed the limit plus one, each request queue runs at most
      one callback at a time, and callbacks nest at most `2 * (limit + 1) + 3` deep. */
  lemma NestingBounded(limit: nat, s: State)
    requires Reachable(limit, s)
    ensures s.depth == Count(s.stack, IsInline) && 0 <= s.depth <= limit + 1
    ensures s.ctxDepth == Count(s.stack, IsInlineShared) && 0 <= s.ctxDepth <= limit + 1
    ensures forall k :: 0 <= k < 3 ==> Count(s.stack, BatchedOf(k)) <= 1
    ensures Count(s.stack, IsCallback) <= 2 * (limit + 1) + 3
  {
    ReachableNesting(limit, s);
    forall k | 0 <= k < 3 ensures Count(s.stack, BatchedOf(k)) <= 1 {
      assert ChanOk(s, k);
      BatchedVersusDrain(s.stack, k);
    }
    CallbacksByCaller(s.stack);
  }
}
