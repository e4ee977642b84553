/** Every operation posted to the communicator is in exactly one place, in every run:
    queued, in a ready batch, running, done or cancelled. */
module EngineConservation {
  import opened RequestQueue
  import opened Occurrences
  import opened Engine

  ghost function ChanOcc(c: Chan, id: Id): nat
  {
    Occ(c.queue, id) + Occ(c.batch, id)
  }

  ghost function HeldOcc(chans: seq<Chan>, id: Id): nat
    requires |chans| == 3
  {
    ChanOcc(chans[0], id) + ChanOcc(chans[1], id) + ChanOcc(chans[2], id)
  }

  /** How many callback frames of the stack run the callback of `id`. */
  ghost function RunOcc(stack: seq<Frame>, id: Id): nat
  {
    if stack == [] then 0 else
      var n := |stack| - 1;
      RunOcc(stack[..n], id) + (if stack[n].Callback? && stack[n].id == id then 1 else 0)
  }

  /** In how many places the operation is. */
  ghost function Places(s: State, id: Id): nat
    requires |s.chans| == 3
  {
    HeldOcc(s.chans, id) + RunOcc(s.stack, id) + Occ(s.done, id) + Occ(s.cancelled, id)
  }

  /** One operation is accounted for. */
  ghost predicate Accounted(s: State, id: Id)
  {
    && |s.chans| == 3
    && Places(s, id) == (if id < s.posted then 1 else 0)
    && Occ(s.ran, id) == RunOcc(s.stack, id) + Occ(s.done, id)
  }

  /** The queues of the communicator know their positions; a queue that is not in progress
      has no batch. */
  ghost predicate Tidy(s: State)
  {
    && |s.chans| == 3
    && (forall k :: 0 <= k < 3 && !s.chans[k].busy ==> s.chans[k].batch == [])
    && IndexOk(s.chans[SEND].queue, s.chans[SEND].index)
    && IndexOk(s.chans[RECV].queue, s.chans[RECV].index)
  }

  ghost predicate Conserved(s: State)
  {
    Tidy(s) && forall id :: Accounted(s, id)
  }

  // ---------- small facts ----------

  lemma HeldUpdate(chans: seq<Chan>, k: nat, c: Chan, id: Id)
    requires |chans| == 3 && k < 3
    ensures HeldOcc(chans[k := c], id) == HeldOcc(chans, id) - ChanOcc(chans[k], id) + ChanOcc(c, id)
  {
  }

  lemma PushRun(stack: seq<Frame>, f: Frame, id: Id)
    ensures RunOcc(stack + [f], id) == RunOcc(stack, id) + (if f.Callback? && f.id == id then 1 else 0)
  {
    assert (stack + [f])[..|stack|] == stack;
  }

  lemma HeldMember(s: State, k: nat, id: Id)
    requires |s.chans| == 3 && k < 3 && (id in s.chans[k].queue || id in s.chans[k].batch)
    ensures Places(s, id) > 0
  {
    OccMember(s.chans[k].queue, id);
    OccMember(s.chans[k].batch, id);
  }

  // ---------- every step conserves ----------

  lemma PostQueuedTidy(s: State, s': State, k: nat)
    requires Conserved(s) && DoPostQueued(s, s', k)
    ensures Tidy(s')
  {
    assert Accounted(s, s.posted);
    if s.posted in s.chans[k].queue { HeldMember(s, k, s.posted); }
  }

  lemma PostQueuedConserves(s: State, s': State, k: nat, id: Id)
    requires Accounted(s, id) && DoPostQueued(s, s', k)
    ensures Accounted(s', id)
    ensures HeldOcc(s'.chans, id) == HeldOcc(s.chans, id) + (if id == s.posted then 1 else 0)
  {
    HeldUpdate(s.chans, k, s'.chans[k], id);
    OccAppend(s.chans[k].queue, s.posted, id);
  }

  lemma PostInlineConserves(limit: nat, s: State, s': State, k: nat, id: Id)
    requires Accounted(s, id) && DoPostInline(limit, s, s', k)
    ensures Accounted(s', id)
  {
    PushRun(s.stack, Top(s'), id);
    OccAppend(s.ran, s.posted, id);
  }

  lemma RemovalTidy(c: Chan, k: nat, i: nat)
    requires i < |c.queue| && (k != SHARED ==> IndexOk(c.queue, c.index))
    ensures AfterRemoval(c, k, i).batch == c.batch && AfterRemoval(c, k, i).busy == c.busy
    ensures k != SHARED ==> IndexOk(AfterRemoval(c, k, i).queue, AfterRemoval(c, k, i).index)
  {
  }

  lemma RemovalOcc(c: Chan, k: nat, i: nat, id: Id)
    requires i < |c.queue|
    ensures ChanOcc(c, id) == ChanOcc(AfterRemoval(c, k, i), id) + (if c.queue[i] == id then 1 else 0)
  {
    if k == SHARED {
      OccWithout(c.queue, i, id);
    } else {
      SwapRemoveConserves(c.queue, i);
      OccIsMultiplicity(c.queue, id);
      OccIsMultiplicity(SwapRemove(c.queue, i), id);
    }
  }

  /** The position at which a successful cancel removes its target. */
  lemma CancelPosition(s: State, s': State, k: nat, id: Id) returns (i: nat)
    requires Tidy(s) && DoCancel(s, s', k, id, true)
    ensures i < |s.chans[k].queue| && s.chans[k].queue[i] == id
    ensures s'.chans == s.chans[k := AfterRemoval(s.chans[k], k, i).(scheduled := s.chans[k].scheduled - 1)]
  {
    var c := s.chans[k];
    i :| i < |c.queue|
      && (if k == RECV then id in c.index && c.index[id] == i else c.queue[i] == id)
      && s'.chans == s.chans[k := AfterRemoval(c, k, i).(scheduled := c.scheduled - 1)];
  }

  lemma CancelTidy(s: State, s': State, k: nat, id: Id, ok: bool)
    requires Tidy(s) && DoCancel(s, s', k, id, ok)
    ensures Tidy(s')
  {
    if ok {
      var i := CancelPosition(s, s', k, id);
      RemovalTidy(s.chans[k], k, i);
    }
  }

  lemma CancelConserves(s: State, s': State, k: nat, target: Id, ok: bool, id: Id)
    requires Tidy(s) && Accounted(s, id) && DoCancel(s, s', k, target, ok)
    ensures Accounted(s', id)
    ensures HeldOcc(s'.chans, id) == HeldOcc(s.chans, id) - (if ok && id == target then 1 else 0)
  {
    if ok {
      var i := CancelPosition(s, s', k, target);
      RemovalOcc(s.chans[k], k, i, id);
      HeldUpdate(s.chans, k, s'.chans[k], id);
      OccAppend(s.cancelled, target, id);
    }
  }

  lemma VisitNothingConserves(s: State, s': State, id: Id)
    requires Accounted(s, id) && DoVisitNothing(s, s')
    ensures Accounted(s', id)
  {
    PushRun(Pop(s).stack, Top(s'), id);
  }

  lemma PartitionOcc(q: seq<Id>, hit: seq<bool>, id: Id)
    requires |q| == |hit|
    ensures Occ(q, id) == Occ(Selected(q, hit), id) + Occ(Rejected(q, hit), id)
  {
    PartitionConserves(q, hit);
    OccIsMultiplicity(q, id);
    OccIsMultiplicity(Selected(q, hit), id);
    OccIsMultiplicity(Rejected(q, hit), id);
  }

  lemma VisitMpiConserves(s: State, s': State, hit: seq<bool>, id: Id)
    requires Tidy(s) && Accounted(s, id) && DoVisitMpi(s, s', hit)
    ensures Accounted(s', id)
    ensures HeldOcc(s'.chans, id) == HeldOcc(s.chans, id)
  {
    var st := Top(s).stage;
    var q := s.chans[st].queue;
    PushRun(Pop(s).stack, Progress(st + 1), id);
    PushRun(Pop(s).stack + [Progress(st + 1)], Drain(st), id);
    HeldUpdate(s.chans, st, s'.chans[st], id);
    PartitionOcc(q, hit, id);
  }

  lemma VisitSharedConserves(s: State, s': State, pos: nat, id: Id)
    requires Tidy(s) && Accounted(s, id) && DoVisitShared(s, s', pos)
    ensures Accounted(s', id)
    ensures HeldOcc(s'.chans, id) == HeldOcc(s.chans, id)
  {
    var q := s.chans[SHARED].queue;
    PushRun(Pop(s).stack, Progress(SHARED + 1), id);
    PushRun(Pop(s).stack + [Progress(SHARED + 1)], Drain(SHARED), id);
    HeldUpdate(s.chans, SHARED, s'.chans[SHARED], id);
    OccRotate(q, pos, id);
    assert Occ([q[pos]], id) == (if q[pos] == id then 1 else 0) by { OccAppend([], q[pos], id); }
  }

  lemma RunNextConserves(s: State, s': State, id: Id)
    requires Accounted(s, id) && DoRunNext(s, s')
    ensures Accounted(s', id)
    ensures HeldOcc(s'.chans, id) == HeldOcc(s.chans, id) - (if id == s.chans[Top(s).k].batch[0] then 1 else 0)
  {
    var k := Top(s).k;
    var b := s.chans[k].batch;
    PushRun(s.stack, Callback(b[0], Batched(k)), id);
    OccHead(b, id);
    HeldUpdate(s.chans, k, s'.chans[k], id);
    OccAppend(s.ran, b[0], id);
  }

  lemma EndDrainConserves(s: State, s': State, id: Id)
    requires Accounted(s, id) && DoEndDrain(s, s')
    ensures Accounted(s', id)
    ensures HeldOcc(s'.chans, id) == HeldOcc(s.chans, id)
  {
    HeldUpdate(s.chans, Top(s).k, s'.chans[Top(s).k], id);
  }

  lemma ReturnConserves(s: State, s': State, id: Id)
    requires Accounted(s, id) && DoReturn(s, s')
    ensures Accounted(s', id)
    ensures HeldOcc(s'.chans, id) == HeldOcc(s.chans, id)
  {
    OccAppend(s.done, Top(s).id, id);
    if Top(s).how.Batched? {
      HeldUpdate(s.chans, Top(s).how.k, s'.chans[Top(s).how.k], id);
    }
  }

  /** The change a step makes to the number of queues and batches that hold `id`. */
  ghost function HeldDelta(s: State, a: Action, id: Id): int
  {
    match a
    case PostQueued(_) => if id == s.posted then 1 else 0
    case CancelQueued(_, target, ok) => if ok && id == target then -1 else 0
    case RunNext =>
      if s.stack != [] && Top(s).Drain? && Top(s).k < |s.chans| && s.chans[Top(s).k].batch != []
         && id == s.chans[Top(s).k].batch[0] then -1 else 0
    case _ => 0
  }

  lemma StepAccounts(limit: nat, s: State, a: Action, s': State, id: Id)
    requires Tidy(s) && Accounted(s, id) && Step(limit, s, a, s')
    ensures Accounted(s', id)
    ensures HeldOcc(s'.chans, id) == HeldOcc(s.chans, id) + HeldDelta(s, a, id)
  {
    match a
    case PostInline(k) => PostInlineConserves(limit, s, s', k, id);
    case PostQueued(k) => PostQueuedConserves(s, s', k, id);
    case CallProgress(stage) => PushRun(s.stack, Progress(stage), id);
    case CancelQueued(k, target, ok) => CancelConserves(s, s', k, target, ok, id);
    case CopyHandle(_) =>
    case DropHandle(_) =>
    case VisitNothing => VisitNothingConserves(s, s', id);
    case VisitMpi(hit) => VisitMpiConserves(s, s', hit, id);
    case VisitShared(pos) => VisitSharedConserves(s, s', pos, id);
    case EndProgress =>
    case RunNext => RunNextConserves(s, s', id);
    case EndDrain => EndDrainConserves(s, s', id);
    case Return => ReturnConserves(s, s', id);
    case TestNulls =>
    case CancelCollected(_) =>
  }

  lemma StepTidy(limit: nat, s: State, a: Action, s': State)
    requires Conserved(s) && Step(limit, s, a, s')
    ensures Tidy(s')
  {
    match a
    case PostQueued(k) => PostQueuedTidy(s, s', k);
    case CancelQueued(k, id, ok) => CancelTidy(s, s', k, id, ok);
    case VisitMpi(hit) => VisitMpiTidy(s, s', hit);
    case _ =>
  }

  /** Compaction writes the right positions because the old ones were right. */
  lemma VisitMpiTidy(s: State, s': State, hit: seq<bool>)
    requires Tidy(s) && DoVisitMpi(s, s', hit)
    ensures Tidy(s')
  {
    var c := s.chans[Top(s).stage];
    PositionsRight(c.queue, hit, c.index);
  }

  lemma StepConserves(limit: nat, s: State, s': State)
    requires Conserved(s) && Next(limit, s, s')
    ensures Conserved(s')
  {
    var a :| Step(limit, s, a, s');
    StepTidy(limit, s, a, s');
    forall id ensures Accounted(s', id) {
      assert Accounted(s, id);
      StepAccounts(limit, s, a, s', id);
    }
  }

  lemma {:induction false} RunConserves(limit: nat, tr: seq<State>)
    requires IsRun(limit, tr) && Init(tr[0])
    ensures Conserved(tr[|tr| - 1])
    decreases |tr|
  {
    if |tr| > 1 {
      RunInit(limit, tr);
      var pre := tr[..|tr| - 1];
      assert pre[0] == tr[0] && pre[|pre| - 1] == tr[|tr| - 2];
      RunConserves(limit, pre);
      StepConserves(limit, tr[|tr| - 2], tr[|tr| - 1]);
    }
  }

  lemma ReachableConserves(limit: nat, s: State)
    requires Reachable(limit, s)
    ensures Conserved(s)
  {
    var tr :| IsRun(limit, tr) && Init(tr[0]) && tr[|tr| - 1] == s;
    RunConserves(limit, tr);
  }

  // ---------- the theorems ----------

  /** Exactly one place for every posted operation, none for any other; its callback has run at most
      once, and not at all if the operation was cancelled. */
  lemma ExactlyOnePlace(limit: nat, s: State, id: Id)
    requires Reachable(limit, s)
    ensures |s.chans| == 3
    ensures HeldOcc(s.chans, id) + RunOcc(s.stack, id) + Occ(s.done, id) + Occ(s.cancelled, id)
            == if id < s.posted then 1 else 0
    ensures multiset(s.ran)[id] <= 1
    ensures id in s.ran <==> RunOcc(s.stack, id) == 1 || id in s.done
    ensures id in s.cancelled ==> id !in s.ran
  {
    ReachableConserves(limit, s);
    assert Accounted(s, id);
    OccIsMultiplicity(s.ran, id);
    OccMember(s.ran, id);
    OccMember(s.done, id);
    OccMember(s.cancelled, id);
  }

  /** In every reachable state the queued requests know their positions. */
  lemma IndicesAlwaysRight(limit: nat, s: State, k: nat, i: nat)
    requires Reachable(limit, s) && (k == SEND || k == RECV)
    ensures |s.chans| == 3
    ensures i < |s.chans[k].queue| ==>
              s.chans[k].queue[i] in s.chans[k].index && s.chans[k].index[s.chans[k].queue[i]] == i
  {
    ReachableConserves(limit, s);
  }

  /** The logs only grow: an invocation or a cancellation is never taken back. */
  lemma LogsGrow(limit: nat, s: State, s': State)
    requires Next(limit, s, s')
    ensures s.ran <= s'.ran && s.done <= s'.done && s.cancelled <= s'.cancelled && s.posted <= s'.posted
  {
    var a :| Step(limit, s, a, s');
    match a
    case CancelQueued(k, id, ok) => assert DoCancel(s, s', k, id, ok);
    case _ =>
  }
}
