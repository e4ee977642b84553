/** A request of the shared queue whose cancel failed is not lost, whatever the threads do. */
module SharedQueueProgress {
  import opened Counting
  import opened Occurrences
  import opened SharedQueue

  /** Some run leads from `s` to `s'`. */
  ghost predicate Reaches(s: State, s': State)
  {
    exists tr :: IsRun(tr) && tr[0] == s && tr[|tr| - 1] == s'
  }

  lemma GoOn(s: State, mid: State, c: Call, s': State, t: nat)
    requires Reaches(s, mid) && Step(c, mid, s', t)
    ensures Reaches(s, s')
  {
    var tr :| IsRun(tr) && tr[0] == s && tr[|tr| - 1] == mid;
    Appended(tr, c, s', t);
    assert (tr + [s'])[0] == s && (tr + [s'])[|tr + [s']| - 1] == s';
  }

  // ---------- never cancelled ----------

  lemma NulledStays(s: State, s': State, id: Id)
    requires Next(s, s') && id in s.nulled
    ensures id in s'.nulled
  {
  }

  lemma {:induction false} RunNulled(tr: seq<State>, id: Id)
    requires IsRun(tr) && Inv(tr[0]) && id in tr[0].nulled
    ensures Inv(tr[|tr| - 1]) && id in tr[|tr| - 1].nulled
    decreases |tr|
  {
    if |tr| > 1 {
      RunInit(tr);
      var pre := tr[..|tr| - 1];
      assert pre[0] == tr[0] && pre[|pre| - 1] == tr[|tr| - 2];
      RunNulled(pre, id);
      StepInv(tr[|tr| - 2], tr[|tr| - 1]);
      NulledStays(tr[|tr| - 2], tr[|tr| - 1], id);
    }
  }

  /** Once a cancel has failed, no later cancel of the request succeeds, under any interleaving. */
  lemma NeverCancelled(s: State, s': State, id: Id)
    requires Reachable(s) && Reaches(s, s') && id in s.nulled
    ensures id !in s'.cancelled
  {
    ReachableInv(s);
    var tr :| IsRun(tr) && tr[0] == s && tr[|tr| - 1] == s';
    RunNulled(tr, id);
    assert NotShelved(s', id);
  }

  // ---------- can always complete ----------

  predicate IsConsuming(th: Thread) { th.canc.Consuming? }

  ghost predicate Calm(s: State) { forall t :: 0 <= t < |s.threads| ==> !IsConsuming(s.threads[t]) }

  /** What the construction carries along. */
  ghost predicate On(s0: State, s: State, id: Id)
  {
    Reaches(s0, s) && Inv(s) && id < s.posted && id !in s.cancelled
  }

  lemma StaysOn(s0: State, s: State, id: Id, c: Call, s': State, t: nat)
    requires On(s0, s, id) && Step(c, s, s', t) && s'.cancelled == s.cancelled
    ensures On(s0, s', id)
  {
    GoOn(s0, s, c, s', t);
    assert Next(s, s');
    StepInv(s, s');
  }

  /** A thread inside `cancel` takes one more request out of the queue, or starts putting them back. */
  lemma ConsumeOne(s: State, t: nat) returns (s': State)
    requires t < |s.threads| && IsConsuming(s.threads[t])
    ensures Step(Cancel, s, s', t) && s'.threads == s.threads[t := s'.threads[t]] && s'.cancelled == s.cancelled
    ensures if s.queue == [] then !IsConsuming(s'.threads[t])
            else IsConsuming(s'.threads[t]) && |s'.queue| == |s.queue| - 1
  {
    var th := s.threads[t];
    var target, held := th.canc.target, th.canc.held;
    if s.queue == [] {
      s' := Put(s, t, th.(canc := Restoring(held)));
    } else {
      var x := s.queue[0];
      s' := Put(s, t, th.(canc := Consuming(target, held + [x]))).(
              queue := s.queue[1..], nulled := if x == target then s.nulled + {x} else s.nulled);
    }
  }

  /** Every thread inside `cancel` gets through the queue. */
  lemma {:induction false} CalmDown(s0: State, s: State, id: Id) returns (s': State)
    requires On(s0, s, id)
    ensures On(s0, s', id) && Calm(s')
    decreases Count(s.threads, IsConsuming), |s.queue|
  {
    if t :| 0 <= t < |s.threads| && IsConsuming(s.threads[t]) {
      var mid := ConsumeOne(s, t);
      CountUpdate(s.threads, t, mid.threads[t], IsConsuming);
      StaysOn(s0, s, id, Cancel, mid, t);
      s' := CalmDown(s0, mid, id);
    } else {
      s' := s;
    }
  }

  /** The atomic accesses a thread needs to come to rest; what it gives back to the queue counts for more than
      what lies there. */
  ghost function ThreadWork(th: Thread): int
  {
    (if th.gap then 1 else 0)
    + (match th.canc
       case Restoring(held) => 7 * |held| + 1
       case _ => 0)
    + (match th.prog
       case Idle => 0
       case Popping(held) => 7 * |held| + 2
       case Returning(held, found) => 7 * |held| + 3 * |found| + 1
       case Running(_) => 2
       case Finishing => 1)
  }

  ghost function Work(s: State): int { 6 * |s.queue| + Sum(s.threads, ThreadWork) }

  ghost predicate AtRest(th: Thread) { th == Thread(Idle, NoCancel, false) }

  /** One access of thread `t` that brings it nearer to rest. */
  ghost predicate Nearer(s: State, c: Call, s': State, t: nat)
  {
    && Step(c, s, s', t) && |s'.threads| == |s.threads| && s'.threads == s.threads[t := s'.threads[t]]
    && !IsConsuming(s'.threads[t]) && s'.cancelled == s.cancelled
    && 6 * |s'.queue| + ThreadWork(s'.threads[t]) < 6 * |s.queue| + ThreadWork(s.threads[t])
  }

  lemma RestoreOne(s: State, t: nat) returns (s': State)
    requires t < |s.threads| && s.threads[t].canc.Restoring?
    ensures Nearer(s, Cancel, s', t)
  {
    var th := s.threads[t];
    var held := th.canc.held;
    if held != [] {
      s' := Put(s, t, th.(canc := Restoring(held[1..]))).(queue := s.queue + [held[0]]);
    } else {
      s' := Put(s, t, th.(canc := NoCancel));
    }
  }

  lemma ProgressOne(s: State, t: nat) returns (s': State)
    requires t < |s.threads| && FoundOk(s.threads[t])
    requires var th := s.threads[t]; th.canc.NoCancel? && !th.gap && !th.prog.Idle?
    ensures Nearer(s, Progress, s', t)
  {
    var th := s.threads[t];
    match th.prog
    case Popping(held) =>
      s' := if s.queue == [] then Put(s, t, th.(prog := Returning(held, [])))
            else Put(s, t, th.(prog := Returning(held, [s.queue[0]]))).(queue := s.queue[1..]);
    case Returning(held, found) => s' := ReturnOne(s, t);
    case Running(id) => s' := Put(s, t, th.(prog := Finishing)).(done := s.done + [id]);
    case Finishing => s' := Put(s, t, th.(prog := Idle)).(size := s.size - 1);
    case Idle => s' := s;
  }

  lemma ReturnOne(s: State, t: nat) returns (s': State)
    requires t < |s.threads| && FoundOk(s.threads[t])
    requires var th := s.threads[t]; th.canc.NoCancel? && !th.gap && th.prog.Returning?
    ensures Nearer(s, Progress, s', t)
  {
    var th := s.threads[t];
    var held, found := th.prog.held, th.prog.found;
    if held != [] {
      s' := Put(s, t, th.(prog := Returning(held[1..], found))).(queue := s.queue + [held[0]]);
    } else if found != [] {
      s' := Put(s, t, th.(prog := Running(found[0]))).(ran := s.ran + [found[0]]);
    } else {
      s' := Put(s, t, th.(prog := Idle));
    }
  }

  lemma Settle(s: State, t: nat) returns (c: Call, s': State)
    requires Inv(s) && Calm(s) && t < |s.threads| && !AtRest(s.threads[t])
    ensures Nearer(s, c, s', t)
  {
    var th := s.threads[t];
    if th.gap {
      c, s' := Enqueue, Put(s, t, th.(gap := false)).(size := s.size + 1);
    } else if th.canc.Restoring? {
      c := Cancel;
      s' := RestoreOne(s, t);
    } else {
      c := Progress;
      s' := ProgressOne(s, t);
    }
  }

  lemma WorkNatural(s: State)
    ensures Work(s) >= 0
  {
    SumAtLeastZero(s.threads, ThreadWork);
  }

  lemma LessWork(s: State, c: Call, s': State, t: nat)
    requires Calm(s) && Nearer(s, c, s', t)
    ensures Calm(s') && 0 <= Work(s') < Work(s)
  {
    SumUpdate(s.threads, t, s'.threads[t], ThreadWork);
    WorkNatural(s');
  }

  /** With all threads at rest the request can only be queued or done. */
  lemma RestMeansQueued(s: State, id: Id)
    requires Inv(s) && id < s.posted && id !in s.cancelled
    requires forall t :: 0 <= t < |s.threads| ==> AtRest(s.threads[t])
    ensures id in s.queue || id in s.done
  {
    assert Accounted(s, id);
    SumAtLeastZero(s.threads, HoldsOf(id));
    OccMember(s.queue, id);
    OccMember(s.done, id);
    OccMember(s.cancelled, id);
  }

  /** A thread at rest takes the first request out of the queue, finding it ready. */
  lemma TakeFirst(s0: State, s: State, id: Id) returns (s': State)
    requires On(s0, s, id) && Calm(s) && s.threads != [] && AtRest(s.threads[0]) && s.queue != []
    ensures On(s0, s', id) && Calm(s') && 0 <= Work(s') < Work(s)
  {
    var th := s.threads[0];
    var s1 := Put(s, 0, th.(prog := Popping([])));
    StaysOn(s0, s, id, Progress, s1, 0);
    var th1 := s1.threads[0];
    s' := Put(s1, 0, th1.(prog := Returning([], [s1.queue[0]]))).(queue := s1.queue[1..]);
    StaysOn(s0, s1, id, Progress, s', 0);
    SumUpdate(s.threads, 0, s1.threads[0], ThreadWork);
    SumUpdate(s1.threads, 0, s'.threads[0], ThreadWork);
    WorkNatural(s');
  }

  lemma {:induction false} ReachDone(s0: State, s: State, id: Id) returns (s': State)
    requires On(s0, s, id) && Calm(s)
    ensures On(s0, s', id) && id in s'.done
    decreases Work(s)
  {
    WorkNatural(s);
    if id in s.done {
      s' := s;
    } else if t :| 0 <= t < |s.threads| && !AtRest(s.threads[t]) {
      var c, mid := Settle(s, t);
      StaysOn(s0, s, id, c, mid, t);
      LessWork(s, c, mid, t);
      s' := ReachDone(s0, mid, id);
    } else {
      RestMeansQueued(s, id);
      var mid := TakeFirst(s0, s, id);
      s' := ReachDone(s0, mid, id);
    }
  }

  /** From every reachable state, whatever the threads are in the middle of, every request that was posted and not
      cancelled can still complete. */
  lemma EveryRequestCanComplete(s: State, id: Id) returns (s': State)
    requires Reachable(s) && id < s.posted && id !in s.cancelled
    ensures Reaches(s, s') && id in s'.done && id !in s'.cancelled
  {
    ReachableInv(s);
    assert IsRun([s]) && [s][0] == s && [s][|[s]| - 1] == s;
    var calm := CalmDown(s, s, id);
    s' := ReachDone(s, calm, id);
  }

  /** In particular a request whose cancel failed. */
  lemma FailedCancelStillCompletes(s: State, id: Id) returns (s': State)
    requires Reachable(s) && id in s.nulled
    ensures Reaches(s, s') && id in s'.done && id !in s'.cancelled
  {
    ReachableInv(s);
    assert NotShelved(s, id);
    s' := EveryRequestCanComplete(s, id);
  }

  // ---------- how long it waits ----------

  /** The request is at position `p` of the queue with a null handle. */
  ghost predicate At(s: State, id: Id, p: nat)
  {
    p < |s.queue| && s.queue[p] == id && id in s.nulled
  }

  /** Some thread has taken the request out and will run its callback. */
  ghost predicate Found(s: State, id: Id)
  {
    exists t :: 0 <= t < |s.threads| && FoundBy(s.threads[t], id)
  }

  ghost predicate FoundBy(th: Thread, id: Id) { th.prog.Returning? && th.prog.found == [id] }

  ghost predicate NoCancels(s: State) { forall t :: 0 <= t < |s.threads| ==> s.threads[t].canc.NoCancel? }

  ghost predicate IsPop(s: State, s': State) { |s'.queue| < |s.queue| }

  /** Without a cancel under way, each pop moves the request one position forward or finds it. */
  lemma StepWaits(s: State, s': State, id: Id, p: nat)
    requires At(s, id, p) && NoCancels(s) && NoCancels(s') && Next(s, s')
    ensures !IsPop(s, s') ==> At(s', id, p)
    ensures IsPop(s, s') ==> (if p == 0 then Found(s', id) else At(s', id, p - 1))
  {
    var c, t: nat :| Step(c, s, s', t);
    match c
    case Enqueue =>
    case Progress => ProgressWaits(s, s', t, id, p);
    case Cancel =>
  }

  lemma ProgressWaits(s: State, s': State, t: nat, id: Id, p: nat)
    requires At(s, id, p) && t < |s.threads| && ProgressStep(s, s', t)
    ensures !IsPop(s, s') ==> At(s', id, p)
    ensures IsPop(s, s') ==> (if p == 0 then Found(s', id) else At(s', id, p - 1))
  {
    if IsPop(s, s') && p == 0 {
      assert FoundBy(s'.threads[t], id);
    }
  }

  ghost function Pops(tr: seq<State>): nat
  {
    if |tr| <= 1 then 0 else Pops(tr[..|tr| - 1]) + (if IsPop(tr[|tr| - 2], tr[|tr| - 1]) then 1 else 0)
  }

  ghost predicate FoundIn(tr: seq<State>, id: Id) { exists j :: 0 < j < |tr| && Found(tr[j], id) }

  /** The run ends with the request still queued, one position further for every pop. */
  ghost predicate StillWaits(tr: seq<State>, id: Id, p: nat)
  {
    tr != [] && Pops(tr) <= p && At(tr[|tr| - 1], id, p - Pops(tr))
  }

  lemma ExtendWaits(tr: seq<State>, id: Id, p: nat)
    requires |tr| > 1 && StillWaits(tr[..|tr| - 1], id, p) && Next(tr[|tr| - 2], tr[|tr| - 1])
    requires NoCancels(tr[|tr| - 2]) && NoCancels(tr[|tr| - 1])
    ensures Found(tr[|tr| - 1], id) || StillWaits(tr, id, p)
  {
    StepWaits(tr[|tr| - 2], tr[|tr| - 1], id, p - Pops(tr[..|tr| - 1]));
  }

  lemma {:induction false} RunWaits(tr: seq<State>, id: Id, p: nat)
    requires IsRun(tr) && At(tr[0], id, p) && (forall i :: 0 <= i < |tr| ==> NoCancels(tr[i]))
    ensures FoundIn(tr, id) || StillWaits(tr, id, p)
    decreases |tr|
  {
    if |tr| > 1 {
      RunInit(tr);
      var pre := tr[..|tr| - 1];
      assert pre[0] == tr[0] && forall i :: 0 <= i < |pre| ==> pre[i] == tr[i];
      RunWaits(pre, id, p);
      if FoundIn(pre, id) {
        var j :| 0 < j < |pre| && Found(pre[j], id);
        assert Found(tr[j], id);
      } else {
        ExtendWaits(tr, id, p);
      }
    }
  }

  /** While no cancel runs, a request whose cancel failed, at position `p`, is found within `p + 1` pops by
      whichever threads. */
  lemma FoundWithinPops(tr: seq<State>, id: Id, p: nat)
    requires IsRun(tr) && At(tr[0], id, p) && (forall i :: 0 <= i < |tr| ==> NoCancels(tr[i]))
    requires Pops(tr) > p
    ensures exists j :: 0 < j < |tr| && Found(tr[j], id)
  {
    RunWaits(tr, id, p);
  }
}
