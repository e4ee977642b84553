/** The shared request queue of the MPI context, used by any number of threads at once.

    A step is one atomic access: one pop, one push, one counter update.  A thread that has popped
    a request is the only one that touches its MPI handle, so the test or cancel that follows a pop
    belongs to the same step.  Inside a callback a thread may enqueue and cancel again; a nested
    `progress` returns at once because the thread's `in_progress` is set. */
module SharedQueue {
  import opened Counting
  import opened Occurrences

  type Id = nat

  /** Where a thread is inside `progress`.  `held` is its thread-local queue. */
  datatype Prog =
    | Idle
    | Popping(held: seq<Id>)
    | Returning(held: seq<Id>, found: seq<Id>)
    | Running(id: Id)
    | Finishing

  /** Where a thread is inside `cancel`, with that function's own thread-local queue. */
  datatype Canc = NoCancel | Consuming(target: Id, held: seq<Id>) | Restoring(held: seq<Id>)

  /** `gap`: the thread is between the push and the count of `enqueue`. */
  datatype Thread = Thread(prog: Prog, canc: Canc, gap: bool)

  datatype State = State(
    queue: seq<Id>, size: int, threads: seq<Thread>,
    posted: nat, nulled: set<Id>, ran: seq<Id>, done: seq<Id>, cancelled: seq<Id>)

  ghost predicate UserTurn(th: Thread)
  {
    th.canc.NoCancel? && !th.gap && (th.prog.Idle? || th.prog.Running?)
  }

  ghost function Put(s: State, t: nat, th: Thread): State
    requires t < |s.threads|
  {
    s.(threads := s.threads[t := th])
  }

  ghost predicate EnqueueStep(s: State, s': State, t: nat)
    requires t < |s.threads|
  {
    var th := s.threads[t];
    || (UserTurn(th) && s' == Put(s, t, th.(gap := true)).(queue := s.queue + [s.posted], posted := s.posted + 1))
    || (th.gap && s' == Put(s, t, th.(gap := false)).(size := s.size + 1))
  }

  /** `progress`: pop until a request tests ready, push the others back, then run the callback.
      A null handle tests ready. */
  ghost predicate ProgressStep(s: State, s': State, t: nat)
    requires t < |s.threads|
  {
    var th := s.threads[t];
    && th.canc.NoCancel? && !th.gap
    && match th.prog
       case Idle => s' == Put(s, t, th.(prog := Popping([])))
       case Popping(held) =>
         if s.queue == [] then s' == Put(s, t, th.(prog := Returning(held, [])))
         else
           var x := s.queue[0];
           || s' == Put(s, t, th.(prog := Returning(held, [x]))).(queue := s.queue[1..])
           || (x !in s.nulled && s' == Put(s, t, th.(prog := Popping(held + [x]))).(queue := s.queue[1..]))
       case Returning(held, found) =>
         if held != [] then s' == Put(s, t, th.(prog := Returning(held[1..], found))).(queue := s.queue + [held[0]])
         else if found != [] then s' == Put(s, t, th.(prog := Running(found[0]))).(ran := s.ran + [found[0]])
         else s' == Put(s, t, th.(prog := Idle))
       case Running(id) => s' == Put(s, t, th.(prog := Finishing)).(done := s.done + [id])
       case Finishing => s' == Put(s, t, th.(prog := Idle)).(size := s.size - 1)
  }

  /** `cancel`: pop everything, cancel the target if it turns up, push the rest back.  The cancel may fail and
      leaves a null handle then; with a null handle it fails again. */
  ghost predicate CancelStep(s: State, s': State, t: nat)
    requires t < |s.threads|
  {
    var th := s.threads[t];
    match th.canc
    case NoCancel => UserTurn(th) && exists target :: s' == Put(s, t, th.(canc := Consuming(target, [])))
    case Consuming(target, held) =>
      if s.queue == [] then s' == Put(s, t, th.(canc := Restoring(held)))
      else
        var x := s.queue[0];
        if x != target then s' == Put(s, t, th.(canc := Consuming(target, held + [x]))).(queue := s.queue[1..])
        else
          || (x !in s.nulled && s' == Put(s, t, th).(queue := s.queue[1..], cancelled := s.cancelled + [x]))
          || s' == Put(s, t, th.(canc := Consuming(target, held + [x]))).(
                     queue := s.queue[1..], nulled := s.nulled + {x})
    case Restoring(held) =>
      if held != [] then s' == Put(s, t, th.(canc := Restoring(held[1..]))).(queue := s.queue + [held[0]])
      else s' == Put(s, t, th.(canc := NoCancel))
  }

  datatype Call = Enqueue | Progress | Cancel

  ghost predicate Step(c: Call, s: State, s': State, t: nat)
  {
    && t < |s.threads|
    && match c
       case Enqueue => EnqueueStep(s, s', t)
       case Progress => ProgressStep(s, s', t)
       case Cancel => CancelStep(s, s', t)
  }

  ghost predicate Next(s: State, s': State)
  {
    exists c, t: nat :: Step(c, s, s', t)
  }

  ghost predicate Init(s: State)
  {
    && s == State([], 0, s.threads, 0, {}, [], [], [])
    && forall t :: 0 <= t < |s.threads| ==> s.threads[t] == Thread(Idle, NoCancel, false)
  }

  ghost predicate IsRun(tr: seq<State>)
  {
    |tr| > 0 && forall i :: 0 <= i < |tr| - 1 ==> Next(tr[i], tr[i + 1])
  }

  ghost predicate Reachable(s: State)
  {
    exists tr :: IsRun(tr) && Init(tr[0]) && tr[|tr| - 1] == s
  }

  // ---------- conservation ----------

  ghost function ProgOcc(p: Prog, id: Id): int
  {
    match p
    case Popping(held) => Occ(held, id)
    case Returning(held, found) => Occ(held, id) + Occ(found, id)
    case Running(x) => if x == id then 1 else 0
    case _ => 0
  }

  ghost function CancOcc(c: Canc, id: Id): int
  {
    match c
    case Consuming(_, held) => Occ(held, id)
    case Restoring(held) => Occ(held, id)
    case NoCancel => 0
  }

  /** How often a thread holds `id`. */
  ghost function HoldsOf(id: Id): Thread -> int
  {
    (th: Thread) => ProgOcc(th.prog, id) + CancOcc(th.canc, id)
  }

  ghost function RunsOf(id: Id): Thread -> int
  {
    (th: Thread) => if th.prog == Running(id) then 1 else 0
  }

  ghost predicate FoundOk(th: Thread) { th.prog.Returning? ==> |th.prog.found| <= 1 }

  ghost predicate Accounted(s: State, id: Id)
  {
    && Occ(s.queue, id) + Sum(s.threads, HoldsOf(id)) + Occ(s.done, id) + Occ(s.cancelled, id)
       == (if id < s.posted then 1 else 0)
    && Occ(s.ran, id) == Sum(s.threads, RunsOf(id)) + Occ(s.done, id)
  }

  /** A nulled request is never put aside by `progress`, and never cancelled. */
  ghost predicate NotShelved(s: State, id: Id)
  {
    id in s.nulled ==> id < s.posted && id !in s.cancelled && forall t :: 0 <= t < |s.threads| ==>
      match s.threads[t].prog
      case Popping(held) => id !in held
      case Returning(held, _) => id !in held
      case _ => true
  }

  /** What the stepping thread must balance for one request. */
  ghost predicate Balanced(s: State, s': State, t: nat, id: Id)
  {
    && t < |s.threads| == |s'.threads| && s'.threads == s.threads[t := s'.threads[t]]
    && var x, y := s.threads[t], s'.threads[t];
       && Occ(s'.queue, id) + HoldsOf(id)(y) + Occ(s'.done, id) + Occ(s'.cancelled, id)
          - (if id < s'.posted then 1 else 0)
          == Occ(s.queue, id) + HoldsOf(id)(x) + Occ(s.done, id) + Occ(s.cancelled, id)
             - (if id < s.posted then 1 else 0)
       && Occ(s'.ran, id) - RunsOf(id)(y) - Occ(s'.done, id) == Occ(s.ran, id) - RunsOf(id)(x) - Occ(s.done, id)
  }

  lemma BalancedAccounts(s: State, s': State, t: nat, id: Id)
    requires Accounted(s, id) && Balanced(s, s', t, id)
    ensures Accounted(s', id)
  {
    SumUpdate(s.threads, t, s'.threads[t], HoldsOf(id));
    SumUpdate(s.threads, t, s'.threads[t], RunsOf(id));
  }

  lemma OccOne(x: Id, id: Id)
    ensures Occ([x], id) == (if x == id then 1 else 0)
  {
    OccAppend([], x, id);
    assert [] + [x] == [x];
  }

  lemma EnqueueBalanced(s: State, s': State, t: nat, id: Id)
    requires t < |s.threads| && EnqueueStep(s, s', t)
    ensures Balanced(s, s', t, id)
  {
    OccAppend(s.queue, s.posted, id);
  }

  lemma PoppingBalanced(s: State, s': State, t: nat, id: Id)
    requires t < |s.threads| && ProgressStep(s, s', t) && s.threads[t].prog.Popping?
    ensures Balanced(s, s', t, id)
  {
    if s.queue != [] {
      OccHead(s.queue, id);
      OccOne(s.queue[0], id);
      OccAppend(s.threads[t].prog.held, s.queue[0], id);
    }
  }

  lemma ReturningBalanced(s: State, s': State, t: nat, id: Id)
    requires t < |s.threads| && ProgressStep(s, s', t) && s.threads[t].prog.Returning? && FoundOk(s.threads[t])
    ensures Balanced(s, s', t, id)
  {
    var p := s.threads[t].prog;
    if p.held != [] {
      OccHead(p.held, id);
      OccAppend(s.queue, p.held[0], id);
    } else if p.found != [] {
      OccHead(p.found, id);
      OccAppend(s.ran, p.found[0], id);
    }
  }

  lemma ProgressBalanced(s: State, s': State, t: nat, id: Id)
    requires t < |s.threads| && ProgressStep(s, s', t) && FoundOk(s.threads[t])
    ensures Balanced(s, s', t, id)
  {
    match s.threads[t].prog
    case Popping(_) => PoppingBalanced(s, s', t, id);
    case Returning(_, _) => ReturningBalanced(s, s', t, id);
    case Running(x) => RunningBalanced(s, s', t, id);
    case _ =>
  }

  lemma RunningBalanced(s: State, s': State, t: nat, id: Id)
    requires t < |s.threads| && ProgressStep(s, s', t) && s.threads[t].prog.Running?
    ensures Balanced(s, s', t, id)
  {
    OccAppend(s.done, s.threads[t].prog.id, id);
  }

  lemma ConsumingBalanced(s: State, s': State, t: nat, id: Id)
    requires t < |s.threads| && CancelStep(s, s', t) && s.threads[t].canc.Consuming?
    ensures Balanced(s, s', t, id)
  {
    if s.queue != [] {
      OccHead(s.queue, id);
      OccAppend(s.threads[t].canc.held, s.queue[0], id);
      OccAppend(s.cancelled, s.queue[0], id);
    }
  }

  lemma CancelBalanced(s: State, s': State, t: nat, id: Id)
    requires t < |s.threads| && CancelStep(s, s', t)
    ensures Balanced(s, s', t, id)
  {
    match s.threads[t].canc
    case NoCancel =>
    case Consuming(_, _) => ConsumingBalanced(s, s', t, id);
    case Restoring(_) => RestoringBalanced(s, s', t, id);
  }

  lemma RestoringBalanced(s: State, s': State, t: nat, id: Id)
    requires t < |s.threads| && CancelStep(s, s', t) && s.threads[t].canc.Restoring?
    ensures Balanced(s, s', t, id)
  {
    var held := s.threads[t].canc.held;
    if held != [] {
      OccHead(held, id);
      OccAppend(s.queue, held[0], id);
    }
  }

  // ---------- the size counter ----------

  /** Requests a thread accounts for in `m_size`. */
  ghost function Pending(th: Thread): int
  {
    (match th.prog
     case Popping(held) => |held|
     case Returning(held, found) => |held| + |found|
     case Running(_) => 1
     case Finishing => 1
     case Idle => 0)
    + (match th.canc
       case Consuming(_, held) => |held|
       case Restoring(held) => |held|
       case NoCancel => 0)
    - (if th.gap then 1 else 0)
  }

  ghost predicate SizeOk(s: State)
  {
    && s.size == |s.queue| + Sum(s.threads, Pending) + |s.cancelled|
    && forall t :: 0 <= t < |s.threads| ==> FoundOk(s.threads[t])
  }

  ghost predicate SizeStep(s: State, s': State, t: nat)
  {
    && t < |s.threads| == |s'.threads| && s'.threads == s.threads[t := s'.threads[t]]
    && s'.size - |s'.queue| - Pending(s'.threads[t]) - |s'.cancelled|
       == s.size - |s.queue| - Pending(s.threads[t]) - |s.cancelled|
    && FoundOk(s'.threads[t])
  }

  lemma SizeKept(s: State, s': State, t: nat)
    requires SizeOk(s) && SizeStep(s, s', t)
    ensures SizeOk(s')
  {
    SumUpdate(s.threads, t, s'.threads[t], Pending);
  }

  lemma EnqueueSize(s: State, s': State, t: nat)
    requires t < |s.threads| && EnqueueStep(s, s', t) && FoundOk(s.threads[t])
    ensures SizeStep(s, s', t)
  {
  }

  lemma ProgressSize(s: State, s': State, t: nat)
    requires t < |s.threads| && ProgressStep(s, s', t) && FoundOk(s.threads[t])
    ensures SizeStep(s, s', t)
  {
  }

  lemma CancelSize(s: State, s': State, t: nat)
    requires t < |s.threads| && CancelStep(s, s', t) && FoundOk(s.threads[t])
    ensures SizeStep(s, s', t)
  {
  }

  // ---------- all steps, all runs ----------

  ghost predicate Inv(s: State)
  {
    && SizeOk(s) && (s.posted == 0 || s.threads != [])
    && (forall id :: Accounted(s, id)) && (forall id :: NotShelved(s, id))
  }

  lemma StepSize(c: Call, s: State, s': State, t: nat)
    requires SizeOk(s) && Step(c, s, s', t)
    ensures SizeOk(s')
  {
    match c {
      case Enqueue => EnqueueSize(s, s', t);
      case Progress => ProgressSize(s, s', t);
      case Cancel => CancelSize(s, s', t);
    }
    SizeKept(s, s', t);
  }

  lemma StepAccounts(c: Call, s: State, s': State, t: nat, id: Id)
    requires SizeOk(s) && Accounted(s, id) && Step(c, s, s', t)
    ensures Accounted(s', id)
  {
    match c {
      case Enqueue => EnqueueBalanced(s, s', t, id);
      case Progress => ProgressBalanced(s, s', t, id);
      case Cancel => CancelBalanced(s, s', t, id);
    }
    BalancedAccounts(s, s', t, id);
  }

  /** The request at the head of the queue is held by no thread and was posted. */
  lemma HeadFree(s: State, t: nat)
    requires s.queue != [] && Accounted(s, s.queue[0]) && t < |s.threads|
    ensures s.queue[0] < s.posted && s.queue[0] !in s.cancelled && HoldsOf(s.queue[0])(s.threads[t]) == 0
  {
    var id := s.queue[0];
    OccHead(s.queue, id);
    SumAtLeastZero(s.threads, HoldsOf(id));
    assert s.threads[t] in s.threads;
    OccMember(s.cancelled, id);
  }

  lemma StepNotShelved(c: Call, s: State, s': State, t: nat, id: Id)
    requires NotShelved(s, id) && (forall x :: Accounted(s, x)) && Step(c, s, s', t)
    ensures NotShelved(s', id)
  {
    if c.Cancel? && s.queue != [] && s.queue[0] == id && id in s'.nulled && id !in s.nulled {
      NewlyNulled(s, s', t, id);
    }
  }

  lemma NewlyNulled(s: State, s': State, t: nat, id: Id)
    requires (forall x :: Accounted(s, x)) && t < |s.threads| && CancelStep(s, s', t)
    requires s.queue != [] && s.queue[0] == id && id in s'.nulled && id !in s.nulled
    ensures NotShelved(s', id)
  {
    assert Accounted(s, s.queue[0]);
    HeadFree(s, t);
    forall u | 0 <= u < |s.threads|
      ensures s.threads[u].prog.Popping? || s.threads[u].prog.Returning? ==> id !in s.threads[u].prog.held
    {
      HeadFree(s, u);
      match s.threads[u].prog
      case Popping(held) => OccMember(held, id);
      case Returning(held, _) => OccMember(held, id);
      case _ =>
    }
  }

  lemma StepInv(s: State, s': State)
    requires Inv(s) && Next(s, s')
    ensures Inv(s')
  {
    var c, t: nat :| Step(c, s, s', t);
    StepSize(c, s, s', t);
    forall id ensures Accounted(s', id) {
      assert Accounted(s, id);
      StepAccounts(c, s, s', t, id);
    }
    forall id ensures NotShelved(s', id) {
      assert NotShelved(s, id);
      StepNotShelved(c, s, s', t, id);
    }
  }

  lemma InitInv(s: State)
    requires Init(s)
    ensures Inv(s)
  {
    SumAtLeastZero(s.threads, Pending);
    forall id ensures Accounted(s, id) {
      SumAtLeastZero(s.threads, HoldsOf(id));
      SumAtLeastZero(s.threads, RunsOf(id));
    }
  }

  lemma RunInit(tr: seq<State>)
    requires IsRun(tr) && |tr| > 1
    ensures IsRun(tr[..|tr| - 1]) && Next(tr[|tr| - 2], tr[|tr| - 1])
  {
    var n := |tr| - 2;
    assert Next(tr[n], tr[n + 1]);
  }

  lemma {:induction false} RunInv(tr: seq<State>)
    requires IsRun(tr) && Init(tr[0])
    ensures Inv(tr[|tr| - 1])
    decreases |tr|
  {
    if |tr| == 1 {
      InitInv(tr[0]);
    } else {
      RunInit(tr);
      var pre := tr[..|tr| - 1];
      assert pre[0] == tr[0] && pre[|pre| - 1] == tr[|tr| - 2];
      RunInv(pre);
      StepInv(tr[|tr| - 2], tr[|tr| - 1]);
    }
  }

  lemma ReachableInv(s: State)
    requires Reachable(s)
    ensures Inv(s)
  {
    var tr :| IsRun(tr) && Init(tr[0]) && tr[|tr| - 1] == s;
    RunInv(tr);
  }

  // ---------- the theorems ----------

  /** Under every interleaving each request is in the shared queue, in one thread's hands, done or
      cancelled, and in only one of these; its callback starts at most once, and never after a
      successful cancel. */
  lemma SharedConservation(s: State, id: Id)
    requires Reachable(s)
    ensures Occ(s.queue, id) + Sum(s.threads, HoldsOf(id)) + Occ(s.done, id) + Occ(s.cancelled, id)
            == if id < s.posted then 1 else 0
    ensures multiset(s.ran)[id] <= 1
    ensures id in s.cancelled ==> id !in s.ran
  {
    ReachableInv(s);
    assert Accounted(s, id);
    OccIsMultiplicity(s.ran, id);
    OccMember(s.ran, id);
    OccMember(s.cancelled, id);
    RunsAreHolds(s.threads, id);
  }

  lemma {:induction false} RunsAreHolds(ts: seq<Thread>, id: Id)
    ensures 0 <= Sum(ts, RunsOf(id)) <= Sum(ts, HoldsOf(id))
  {
    if ts != [] {
      RunsAreHolds(ts[..|ts| - 1], id);
    }
  }

  /** `m_size` counts what is pending plus every request ever cancelled, less the pushes not yet counted. */
  lemma SizeLeaksCancels(s: State)
    requires Reachable(s)
    ensures s.size == |s.queue| + Sum(s.threads, Pending) + |s.cancelled|
    ensures (forall t :: 0 <= t < |s.threads| ==> s.threads[t] == Thread(Idle, NoCancel, false)) ==>
              (s.size == |s.queue| <==> s.cancelled == [])
  {
    ReachableInv(s);
    if forall t :: 0 <= t < |s.threads| ==> s.threads[t] == Thread(Idle, NoCancel, false) {
      SumAtLeastZero(s.threads, Pending);
    }
  }

  lemma Extend(s: State, c: Call, s': State, t: nat)
    requires Reachable(s) && Step(c, s, s', t)
    ensures Reachable(s')
  {
    var tr :| IsRun(tr) && Init(tr[0]) && tr[|tr| - 1] == s;
    Appended(tr, c, s', t);
    assert Init((tr + [s'])[0]) && (tr + [s'])[|tr + [s']| - 1] == s';
  }

  lemma Appended(tr: seq<State>, c: Call, s': State, t: nat)
    requires IsRun(tr) && Step(c, tr[|tr| - 1], s', t)
    ensures IsRun(tr + [s'])
  {
    var tr' := tr + [s'];
    forall i | 0 <= i < |tr'| - 1 ensures Next(tr'[i], tr'[i + 1]) {
      if i < |tr| - 1 {
        assert Next(tr[i], tr[i + 1]);
      } else {
        assert Step(c, tr'[i], tr'[i + 1], t);
      }
    }
  }

  /** One request posted and cancelled: at rest, with an empty queue, the size is one. */
  lemma CancelLeavesSize() returns (s: State)
    ensures Reachable(s) && s.threads == [Thread(Idle, NoCancel, false)]
    ensures s.queue == [] && s.size == 1 && s.cancelled == [0]
  {
    var rest := Thread(Idle, NoCancel, false);
    var s0 := State([], 0, [rest], 0, {}, [], [], []);
    assert IsRun([s0]) && Init([s0][0]) && [s0][|[s0]| - 1] == s0;
    var s1 := State([0], 0, [rest.(gap := true)], 1, {}, [], [], []);
    Extend(s0, Enqueue, s1, 0);
    var s2 := State([0], 1, [rest], 1, {}, [], [], []);
    Extend(s1, Enqueue, s2, 0);
    s := CancelOnly(s2);
  }

  lemma CancelOnly(s: State) returns (s': State)
    requires Reachable(s) && s == State([0], 1, [Thread(Idle, NoCancel, false)], 1, {}, [], [], [])
    ensures Reachable(s') && s' == s.(queue := [], cancelled := [0])
  {
    var s1 := s.(threads := [Thread(Idle, Consuming(0, []), false)]);
    assert s1 == Put(s, 0, s.threads[0].(canc := Consuming(0, [])));
    Extend(s, Cancel, s1, 0);
    var s2 := s1.(queue := [], cancelled := [0]);
    assert s2 == Put(s1, 0, s1.threads[0]).(queue := s1.queue[1..], cancelled := s1.cancelled + [0]);
    Extend(s1, Cancel, s2, 0);
    var s3 := s2.(threads := [Thread(Idle, Restoring([]), false)]);
    Extend(s2, Cancel, s3, 0);
    s' := s3.(threads := [Thread(Idle, NoCancel, false)]);
    Extend(s3, Cancel, s', 0);
  }
}
