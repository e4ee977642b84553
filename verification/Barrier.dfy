/** The two-counter barrier of src/barrier.cpp as a machine of atomic steps.

    Every rank has its own two counters and its own threads; the number of threads may
    differ from rank to rank.  All threads run the same program: a finite list of barrier
    rounds, each either `operator()` (threads and ranks) or `thread_barrier` (threads of
    one rank only).  A step is one atomic access of one thread.  The non-blocking MPI barrier is
    an oracle: the k-th call on a rank may test as complete only after every rank has made its
    k-th call (section 5.12.1 of MPI 3.1). */
module Barrier {
  import opened Counting

  /** How many rounds the threads run, and which of them synchronise the ranks as well. */
  datatype Program = Program(rounds: nat, full: nat -> bool)

  /** Where a thread is.  `expected` and `ex` are the values read before the
      compare-exchange; `ticket` numbers the rank's MPI barrier call. */
  datatype PC =
    | Outside
    | Load1 | Cas1(expected: int) | Reset1 | Spin1
    | Post | Test(ticket: nat) | AwaitRelease
    | Load2 | Cas2(ex: int) | Reset2 | Spin2

  datatype Thread = Thread(round: nat, pc: PC)

  /** `bCount`, `bCount2`: the two atomics.  `calls`: MPI barrier calls made so far.
      `elected`: the threads that got `true` from `in_node1`, in order. */
  datatype Rank = Rank(bCount: int, bCount2: int, calls: nat, elected: seq<nat>, threads: seq<Thread>)

  type System = seq<Rank>

  ghost function Goto(r: Rank, t: nat, pc: PC): Rank
    requires t < |r.threads|
  {
    r.(threads := r.threads[t := r.threads[t].(pc := pc)])
  }

  ghost function Leave(r: Rank, t: nat): Rank
    requires t < |r.threads|
  {
    r.(threads := r.threads[t := Thread(r.threads[t].round + 1, Outside)])
  }

  /** One atomic access of thread `t` of rank `i`.  A weak compare-exchange may fail at any time. */
  ghost predicate ThreadStep(pr: Program, s: System, i: nat, t: nat, r': Rank)
    requires i < |s| && t < |s[i].threads|
  {
    var r := s[i];
    var n := |r.threads|;
    var th := r.threads[t];
    match th.pc
    case Outside => th.round < pr.rounds && r' == Goto(r, t, Load1)
    case Load1 => r' == Goto(r, t, Cas1(r.bCount))
    case Cas1(e) =>
      || (r.bCount == e && r' == Goto(r.(bCount := e + 1), t, if e == n - 1 then Reset1 else Spin1))
      || r' == Goto(r, t, Load1)
    case Reset1 =>
      r' == Goto(r.(bCount := 0, elected := r.elected + [t]), t, if pr.full(th.round) then Post else Load2)
    case Spin1 => r.bCount == 0 && r' == Goto(r, t, if pr.full(th.round) then AwaitRelease else Load2)
    case Post => r' == Goto(r.(calls := r.calls + 1), t, Test(r.calls + 1))
    case Test(k) => (forall j :: 0 <= j < |s| ==> s[j].calls >= k) && r' == Goto(r, t, Load2)
    case AwaitRelease => r.bCount2 != n && r' == Goto(r, t, Load2)
    case Load2 => r' == Goto(r, t, Cas2(r.bCount2))
    case Cas2(e) =>
      || (r.bCount2 == e && r' == Goto(r.(bCount2 := e - 1), t, if e == 1 then Reset2 else Spin2))
      || r' == Goto(r, t, Load2)
    case Reset2 => r' == Leave(r.(bCount2 := n), t)
    case Spin2 => r.bCount2 == n && r' == Leave(r, t)
  }

  ghost predicate StepOf(pr: Program, s: System, s': System, i: nat, t: nat)
  {
    && i < |s| == |s'| && t < |s[i].threads|
    && ThreadStep(pr, s, i, t, s'[i])
    && s' == s[i := s'[i]]
  }

  ghost predicate Next(pr: Program, s: System, s': System)
  {
    exists i: nat, t: nat :: StepOf(pr, s, s', i, t)
  }

  ghost predicate InitRank(r: Rank)
  {
    && |r.threads| > 0
    && r.bCount == 0 && r.bCount2 == |r.threads| && r.calls == 0 && r.elected == []
    && forall t :: 0 <= t < |r.threads| ==> r.threads[t] == Thread(0, Outside)
  }

  ghost predicate Init(s: System)
  {
    forall i :: 0 <= i < |s| ==> InitRank(s[i])
  }

  ghost predicate IsRun(pr: Program, tr: seq<System>)
  {
    |tr| > 0 && forall i :: 0 <= i < |tr| - 1 ==> Next(pr, tr[i], tr[i + 1])
  }

  ghost predicate Reachable(pr: Program, s: System)
  {
    exists tr :: IsRun(pr, tr) && Init(tr[0]) && tr[|tr| - 1] == s
  }

  // ---------- the rank-local invariant ----------

  /** The number of rank-synchronising rounds before round `r`. */
  ghost function FullBefore(pr: Program, r: nat): nat
  {
    if r == 0 then 0 else FullBefore(pr, r - 1) + (if pr.full(r - 1) then 1 else 0)
  }

  lemma {:induction false} FullBeforeMonotone(pr: Program, a: nat, b: nat)
    requires a <= b
    ensures FullBefore(pr, a) <= FullBefore(pr, b)
  {
    if a < b { FullBeforeMonotone(pr, a, b - 1); }
  }

  predicate AtSpin1(th: Thread) { th.pc == Spin1 }
  predicate AtSpin2(th: Thread) { th.pc == Spin2 }

  /** Proof state of one rank: the phase of its current round, the round, and the one
      thread that drives the phase (elected, or last to count down). */
  datatype Phase = Gather | Elect | Release | Drain
  datatype View = View(phase: Phase, round: nat, driver: nat)

  ghost predicate GatherInv(pr: Program, r: Rank, v: View)
  {
    && r.bCount == Count(r.threads, AtSpin1) < |r.threads|
    && r.bCount2 == |r.threads|
    && r.calls == FullBefore(pr, v.round)
    && |r.elected| == v.round <= pr.rounds
    && forall t :: 0 <= t < |r.threads| ==>
         var th := r.threads[t];
         || (th.round == v.round
             && (th.pc == Outside || (v.round < pr.rounds && (th.pc.Load1? || th.pc.Cas1? || th.pc.Spin1?))))
         || (th.round + 1 == v.round && th.pc == Spin2)
  }

  ghost predicate ElectInv(pr: Program, r: Rank, v: View)
  {
    && v.driver < |r.threads|
    && r.bCount == |r.threads| == r.bCount2
    && r.calls == FullBefore(pr, v.round)
    && |r.elected| == v.round < pr.rounds
    && forall t :: 0 <= t < |r.threads| ==>
         r.threads[t] == Thread(v.round, if t == v.driver then Reset1 else Spin1)
  }

  ghost predicate ReleaseInv(pr: Program, r: Rank, v: View)
  {
    var full := pr.full(v.round);
    && v.driver < |r.threads|
    && r.bCount == 0
    && 1 <= r.bCount2 == |r.threads| - Count(r.threads, AtSpin2)
    && |r.elected| == v.round + 1 <= pr.rounds
    && r.elected[v.round] == v.driver
    && r.calls == FullBefore(pr, if r.threads[v.driver].pc == Post then v.round else v.round + 1)
    && (full && r.bCount2 < |r.threads| ==> r.threads[v.driver].pc == Spin2)
    && forall t :: 0 <= t < |r.threads| ==>
         var th := r.threads[t];
         && th.round == v.round
         && match th.pc
            case Post => full && t == v.driver
            case Test(k) => full && t == v.driver && k == r.calls
            case Spin1 => t != v.driver
            case AwaitRelease => full && t != v.driver
            case Load2 => full && r.bCount2 == |r.threads| ==> t == v.driver
            case Cas2(_) => full && r.bCount2 == |r.threads| ==> t == v.driver
            case Spin2 => true
            case _ => false
  }

  ghost predicate DrainInv(pr: Program, r: Rank, v: View)
  {
    && v.driver < |r.threads|
    && r.bCount == 0 == r.bCount2
    && r.calls == FullBefore(pr, v.round + 1)
    && |r.elected| == v.round + 1 <= pr.rounds
    && forall t :: 0 <= t < |r.threads| ==>
         r.threads[t] == Thread(v.round, if t == v.driver then Reset2 else Spin2)
  }

  ghost predicate RankInv(pr: Program, r: Rank, v: View)
  {
    && |r.threads| > 0
    && match v.phase
       case Gather => GatherInv(pr, r, v)
       case Elect => ElectInv(pr, r, v)
       case Release => ReleaseInv(pr, r, v)
       case Drain => DrainInv(pr, r, v)
  }

  /** The rank is past its MPI barrier in the current round. */
  ghost predicate Crossed(r: Rank, v: View)
  {
    || v.phase == Drain
    || (v.phase == Release && v.driver < |r.threads| && !r.threads[v.driver].pc.Post? && !r.threads[v.driver].pc.Test?)
  }

  ghost predicate Inv(pr: Program, s: System, vs: seq<View>)
  {
    && |vs| == |s|
    && (forall i :: 0 <= i < |s| ==> RankInv(pr, s[i], vs[i]))
    && CallsAhead(pr, s, vs)
  }

  /** No rank has got ahead of the rank barrier calls of another. */
  ghost predicate CallsAhead(pr: Program, s: System, vs: seq<View>)
    requires |vs| == |s|
  {
    && (forall i, j :: 0 <= i < |s| && 0 <= j < |s| ==> s[j].calls >= FullBefore(pr, vs[i].round))
    && (forall i, j :: 0 <= i < |s| && 0 <= j < |s| && Crossed(s[i], vs[i]) ==>
          s[j].calls >= FullBefore(pr, vs[i].round + 1))
  }

  // ---------- every step keeps the invariant ----------

  /** What a step may do to the view: stay in the round, or close it from `Drain`. */
  ghost predicate ViewStep(pr: Program, s: System, i: nat, r': Rank, v: View, v': View)
    requires i < |s|
  {
    RankInv(pr, r', v') && ViewMove(pr, s, i, r', v, v')
  }

  ghost predicate ViewMove(pr: Program, s: System, i: nat, r': Rank, v: View, v': View)
    requires i < |s|
  {
    && r'.calls >= s[i].calls
    && (v'.round == v.round || (v'.round == v.round + 1 && v.phase == Drain))
    && (Crossed(r', v') ==>
          || (Crossed(s[i], v) && v'.round == v.round)
          || FullBefore(pr, v.round + 1) == FullBefore(pr, v.round)
          || (forall j :: 0 <= j < |s| ==> s[j].calls >= FullBefore(pr, v.round + 1)))
    && (Crossed(r', v') ==> v'.round == v.round)
  }

  lemma GatherArrive(pr: Program, s: System, i: nat, t: nat, r': Rank, v: View) returns (v': View)
    requires i < |s| && t < |s[i].threads| && ThreadStep(pr, s, i, t, r')
    requires v.phase == Gather && RankInv(pr, s[i], v) && s[i].threads[t].pc.Cas1?
    ensures ViewStep(pr, s, i, r', v, v')
  {
    var r := s[i];
    CountUpdate(r.threads, t, r'.threads[t], AtSpin1);
    if r'.threads[t].pc == Reset1 {
      v' := View(Elect, v.round, t);
      CountAllBut(r.threads, t, AtSpin1);
    } else {
      v' := v;
    }
  }

  lemma GatherStep(pr: Program, s: System, i: nat, t: nat, r': Rank, v: View) returns (v': View)
    requires i < |s| && t < |s[i].threads| && ThreadStep(pr, s, i, t, r')
    requires v.phase == Gather && RankInv(pr, s[i], v)
    ensures ViewStep(pr, s, i, r', v, v')
  {
    if s[i].threads[t].pc.Cas1? {
      v' := GatherArrive(pr, s, i, t, r', v);
    } else {
      CountUpdate(s[i].threads, t, r'.threads[t], AtSpin1);
      v' := v;
    }
  }

  lemma ElectStep(pr: Program, s: System, i: nat, t: nat, r': Rank, v: View) returns (v': View)
    requires i < |s| && t < |s[i].threads| && ThreadStep(pr, s, i, t, r')
    requires v.phase == Elect && RankInv(pr, s[i], v)
    ensures ViewStep(pr, s, i, r', v, v')
  {
    assert t == v.driver;
    v' := View(Release, v.round, t);
    CountExtremes(r'.threads, AtSpin2);
  }

  lemma ReleaseCountDown(pr: Program, s: System, i: nat, t: nat, r': Rank, v: View) returns (v': View)
    requires i < |s| && t < |s[i].threads| && ThreadStep(pr, s, i, t, r')
    requires v.phase == Release && RankInv(pr, s[i], v) && s[i].threads[t].pc.Cas2?
    ensures ViewStep(pr, s, i, r', v, v')
  {
    if r'.threads[t].pc == Reset2 {
      v' := View(Drain, v.round, t);
      LastOut(pr, s, i, t, r', v, v');
    } else {
      CountUpdate(s[i].threads, t, r'.threads[t], AtSpin2);
      v' := v;
    }
  }

  lemma LastOut(pr: Program, s: System, i: nat, t: nat, r': Rank, v: View, v': View)
    requires i < |s| && t < |s[i].threads| && ThreadStep(pr, s, i, t, r')
    requires v.phase == Release && RankInv(pr, s[i], v) && s[i].threads[t].pc.Cas2?
    requires r'.threads[t].pc == Reset2 && v' == View(Drain, v.round, t)
    ensures ViewStep(pr, s, i, r', v, v')
  {
    CountUpdate(s[i].threads, t, r'.threads[t], AtSpin2);
    CountAllBut(s[i].threads, t, AtSpin2);
  }

  lemma ReleaseStep(pr: Program, s: System, i: nat, t: nat, r': Rank, v: View) returns (v': View)
    requires i < |s| && t < |s[i].threads| && ThreadStep(pr, s, i, t, r')
    requires v.phase == Release && RankInv(pr, s[i], v)
    ensures ViewStep(pr, s, i, r', v, v')
  {
    if s[i].threads[t].pc.Cas2? {
      v' := ReleaseCountDown(pr, s, i, t, r', v);
    } else {
      v' := v;
      Released(pr, s, i, t, r', v);
    }
  }

  lemma Released(pr: Program, s: System, i: nat, t: nat, r': Rank, v: View)
    requires i < |s| && t < |s[i].threads| && ThreadStep(pr, s, i, t, r')
    requires v.phase == Release && RankInv(pr, s[i], v) && !s[i].threads[t].pc.Cas2?
    ensures ViewStep(pr, s, i, r', v, v)
  {
    CountUpdate(s[i].threads, t, r'.threads[t], AtSpin2);
  }

  lemma DrainStep(pr: Program, s: System, i: nat, t: nat, r': Rank, v: View) returns (v': View)
    requires i < |s| && t < |s[i].threads| && ThreadStep(pr, s, i, t, r')
    requires v.phase == Drain && RankInv(pr, s[i], v)
    ensures ViewStep(pr, s, i, r', v, v')
  {
    assert t == v.driver;
    v' := View(Gather, v.round + 1, t);
    CountExtremes(r'.threads, AtSpin1);
  }

  lemma RankStep(pr: Program, s: System, i: nat, t: nat, r': Rank, v: View) returns (v': View)
    requires i < |s| && t < |s[i].threads| && ThreadStep(pr, s, i, t, r')
    requires RankInv(pr, s[i], v)
    ensures ViewStep(pr, s, i, r', v, v')
  {
    match v.phase
    case Gather => v' := GatherStep(pr, s, i, t, r', v);
    case Elect => v' := ElectStep(pr, s, i, t, r', v);
    case Release => v' := ReleaseStep(pr, s, i, t, r', v);
    case Drain => v' := DrainStep(pr, s, i, t, r', v);
  }

  lemma StepKeepsInv(pr: Program, s: System, s': System, vs: seq<View>) returns (vs': seq<View>)
    requires Inv(pr, s, vs) && Next(pr, s, s')
    ensures Inv(pr, s', vs')
  {
    var i: nat, t: nat :| StepOf(pr, s, s', i, t);
    var v' := RankStep(pr, s, i, t, s'[i], vs[i]);
    vs' := vs[i := v'];
    CallsStayAhead(pr, s, s', vs, vs', i);
  }

  lemma CallsStayAhead(pr: Program, s: System, s': System, vs: seq<View>, vs': seq<View>, i: nat)
    requires |vs| == |s| == |s'| == |vs'| && i < |s| && s' == s[i := s'[i]] && vs' == vs[i := vs'[i]]
    requires CallsAhead(pr, s, vs) && ViewMove(pr, s, i, s'[i], vs[i], vs'[i])
    requires vs[i].phase == Drain ==> Crossed(s[i], vs[i])
    ensures CallsAhead(pr, s', vs')
  {
    forall k, j | 0 <= k < |s| && 0 <= j < |s|
      ensures s'[j].calls >= FullBefore(pr, vs'[k].round)
      ensures Crossed(s'[k], vs'[k]) ==> s'[j].calls >= FullBefore(pr, vs'[k].round + 1)
    {
      assert s'[j].calls >= s[j].calls >= FullBefore(pr, vs[k].round);
      assert Crossed(s[k], vs[k]) ==> s[j].calls >= FullBefore(pr, vs[k].round + 1);
    }
  }

  lemma InitInv(pr: Program, s: System) returns (vs: seq<View>)
    requires Init(s)
    ensures Inv(pr, s, vs)
  {
    vs := seq(|s|, i => View(Gather, 0, 0));
    forall i | 0 <= i < |s| ensures RankInv(pr, s[i], vs[i]) {
      CountExtremes(s[i].threads, AtSpin1);
    }
  }

  lemma RunInit(pr: Program, tr: seq<System>)
    requires IsRun(pr, tr) && |tr| > 1
    ensures IsRun(pr, tr[..|tr| - 1]) && Next(pr, tr[|tr| - 2], tr[|tr| - 1])
  {
    var n := |tr| - 2;
    assert Next(pr, tr[n], tr[n + 1]);
  }

  lemma {:induction false} RunKeepsInv(pr: Program, tr: seq<System>, vs: seq<View>) returns (vs': seq<View>)
    requires IsRun(pr, tr) && Inv(pr, tr[0], vs)
    ensures Inv(pr, tr[|tr| - 1], vs')
    decreases |tr|
  {
    if |tr| == 1 {
      vs' := vs;
    } else {
      RunInit(pr, tr);
      var pre := tr[..|tr| - 1];
      assert pre[0] == tr[0] && pre[|pre| - 1] == tr[|tr| - 2];
      var before := RunKeepsInv(pr, pre, vs);
      vs' := StepKeepsInv(pr, tr[|tr| - 2], tr[|tr| - 1], before);
    }
  }

  lemma RunInv(pr: Program, tr: seq<System>) returns (vs: seq<View>)
    requires IsRun(pr, tr) && Init(tr[0])
    ensures Inv(pr, tr[|tr| - 1], vs)
  {
    vs := InitInv(pr, tr[0]);
    vs := RunKeepsInv(pr, tr, vs);
  }

  // ---------- safety ----------

  ghost predicate Entered(th: Thread, round: nat) { th.round > round || (th.round == round && th.pc != Outside) }
  ghost predicate Left(th: Thread, round: nat) { th.round > round }

  /** A rank that has made enough MPI barrier calls has all its threads inside the round. */
  lemma CallsMeanEntered(pr: Program, r: Rank, v: View, round: nat, u: nat)
    requires RankInv(pr, r, v) && u < |r.threads|
    requires pr.full(round) && r.calls >= FullBefore(pr, round + 1)
    ensures Entered(r.threads[u], round)
  {
    if v.round < round {
      FullBeforeMonotone(pr, v.round + 1, round);
    } else if v.round > round {
      if v.phase == Gather && r.threads[u].pc == Spin2 {}
    }
  }

  lemma LeftMeansEntered(pr: Program, s: System, vs: seq<View>, round: nat, i: nat, t: nat, j: nat, u: nat)
    requires Inv(pr, s, vs)
    requires i < |s| && t < |s[i].threads| && Left(s[i].threads[t], round)
    requires j < |s| && u < |s[j].threads|
    requires pr.full(round) || i == j
    ensures Entered(s[j].threads[u], round)
  {
    assert round < vs[i].round;
    if pr.full(round) {
      FullBeforeMonotone(pr, round + 1, vs[i].round);
      CallsMeanEntered(pr, s[j], vs[j], round, u);
    }
  }

  /** Barrier safety: once any thread has left a round, every thread that the round
      synchronises has entered it: all threads of all ranks for `operator()`, the threads of
      the same rank for `thread_barrier`. */
  lemma NoEarlyExit(pr: Program, s: System, round: nat, i: nat, t: nat, j: nat, u: nat)
    requires Reachable(pr, s)
    requires i < |s| && t < |s[i].threads| && Left(s[i].threads[t], round)
    requires j < |s| && u < |s[j].threads|
    requires pr.full(round) || i == j
    ensures Entered(s[j].threads[u], round)
  {
    var tr :| IsRun(pr, tr) && Init(tr[0]) && tr[|tr| - 1] == s;
    var vs := RunInv(pr, tr);
    LeftMeansEntered(pr, s, vs, round, i, t, j, u);
  }

  /** The thread has returned from `in_node1` in its current round. */
  ghost predicate PastNode1(pc: PC)
  {
    !(pc.Outside? || pc.Load1? || pc.Cas1? || pc.Reset1? || pc.Spin1?)
  }

  /** `in_node1` elects exactly one thread per round: the thread about to return `true`
      in its round is the first of that round, and a round some thread has moved past
      `in_node1` has had its election.  The counters also stay within their bounds. */
  lemma OneElectionPerRound(pr: Program, s: System, i: nat, t: nat)
    requires Reachable(pr, s)
    requires i < |s| && t < |s[i].threads|
    ensures s[i].threads[t].pc == Reset1 ==>
              |s[i].elected| == s[i].threads[t].round
              && forall u :: 0 <= u < |s[i].threads| && u != t ==>
                   s[i].threads[u] == Thread(s[i].threads[t].round, Spin1)
    ensures s[i].threads[t].round <= |s[i].elected| <= s[i].threads[t].round + 1
    ensures PastNode1(s[i].threads[t].pc) ==> |s[i].elected| == s[i].threads[t].round + 1
    ensures 0 <= s[i].bCount <= |s[i].threads| && 0 <= s[i].bCount2 <= |s[i].threads|
  {
    var tr :| IsRun(pr, tr) && Init(tr[0]) && tr[|tr| - 1] == s;
    var vs := RunInv(pr, tr);
    assert RankInv(pr, s[i], vs[i]);
  }

  // ---------- no stuck state ----------

  ghost predicate RankDone(pr: Program, r: Rank)
  {
    forall t :: 0 <= t < |r.threads| ==> r.threads[t] == Thread(pr.rounds, Outside)
  }

  ghost predicate AllDone(pr: Program, s: System)
  {
    forall i :: 0 <= i < |s| ==> RankDone(pr, s[i])
  }

  /** The thread has finished, or its spin loop keeps spinning. */
  ghost predicate Blocked(pr: Program, s: System, i: nat, t: nat)
    requires i < |s| && t < |s[i].threads|
  {
    var r := s[i];
    match r.threads[t].pc
    case Outside => r.threads[t].round >= pr.rounds
    case Spin1 => r.bCount != 0
    case Test(k) => exists j :: 0 <= j < |s| && s[j].calls < k
    case AwaitRelease => r.bCount2 == |r.threads|
    case Spin2 => r.bCount2 != |r.threads|
    case _ => false
  }

  ghost function Stage(pc: PC): int
  {
    match pc
    case Outside => 0
    case Load1 => 1 case Cas1(_) => 1
    case Spin1 => 2 case Reset1 => 2
    case Post => 3 case AwaitRelease => 3
    case Test(_) => 4
    case Load2 => 5 case Cas2(_) => 5
    case Spin2 => 6 case Reset2 => 6
  }

  /** Stages a thread still has to pass; a read and its compare-exchange are one stage. */
  ghost function Work(pr: Program): Thread -> int
  {
    (th: Thread) => 8 * (pr.rounds - th.round) - Stage(th.pc)
  }

  ghost function RankWork(pr: Program): Rank -> int
  {
    (r: Rank) => Sum(r.threads, Work(pr))
  }

  ghost function TotalWork(pr: Program, s: System): int
  {
    Sum(s, RankWork(pr))
  }

  lemma RankWorkNonNegative(pr: Program, r: Rank, v: View)
    requires RankInv(pr, r, v)
    ensures RankWork(pr)(r) >= 0
  {
    forall th | th in r.threads ensures Work(pr)(th) >= 0 {
      var t :| 0 <= t < |r.threads| && r.threads[t] == th;
    }
    SumAtLeastZero(r.threads, Work(pr));
  }

  lemma TotalWorkNonNegative(pr: Program, s: System, vs: seq<View>)
    requires Inv(pr, s, vs)
    ensures TotalWork(pr, s) >= 0
  {
    forall r | r in s ensures RankWork(pr)(r) >= 0 {
      var i :| 0 <= i < |s| && s[i] == r;
      RankWorkNonNegative(pr, r, vs[i]);
    }
    SumAtLeastZero(s, RankWork(pr));
  }

  /** A rank that is not done has a thread that can move, if its own MPI barrier may complete. */
  lemma RankMover(pr: Program, s: System, i: nat, v: View) returns (t: nat)
    requires i < |s| && RankInv(pr, s[i], v) && !RankDone(pr, s[i])
    requires forall j :: 0 <= j < |s| ==> s[j].calls >= s[i].calls
    ensures t < |s[i].threads| && !Blocked(pr, s, i, t)
  {
    var r := s[i];
    match v.phase
    case Gather =>
      t := CountMisses(r.threads, AtSpin1);
      if v.round == pr.rounds {
        t :| 0 <= t < |r.threads| && r.threads[t] != Thread(pr.rounds, Outside);
      }
    case Elect => t := v.driver;
    case Release =>
      t := v.driver;
      if r.threads[t].pc == Spin2 {
        t := CountMisses(r.threads, AtSpin2);
        CountExtremes(r.threads, AtSpin2);
      }
    case Drain => t := v.driver;
  }

  lemma LeastCalls(s: System) returns (m: nat)
    requires |s| > 0
    ensures m < |s| && forall j :: 0 <= j < |s| ==> s[j].calls >= s[m].calls
  {
    m := 0;
    var k := 1;
    while k < |s|
      invariant m < k <= |s|
      invariant forall j :: 0 <= j < k ==> s[j].calls >= s[m].calls
    {
      if s[k].calls < s[m].calls { m := k; }
      k := k + 1;
    }
  }

  /** A rank makes at most one MPI barrier call per full round, and a finished rank all of them. */
  lemma DoneCalls(pr: Program, r: Rank, v: View)
    requires RankInv(pr, r, v)
    ensures r.calls <= FullBefore(pr, pr.rounds)
    ensures RankDone(pr, r) ==> r.calls == FullBefore(pr, pr.rounds)
  {
    FullBeforeMonotone(pr, v.round, pr.rounds);
    if v.round < pr.rounds { FullBeforeMonotone(pr, v.round + 1, pr.rounds); }
    if RankDone(pr, r) {
      assert r.threads[0] == Thread(pr.rounds, Outside);
    }
  }

  /** No deadlock: while some thread has not finished, some thread is not blocked. */
  lemma Mover(pr: Program, s: System, vs: seq<View>) returns (i: nat, t: nat)
    requires Inv(pr, s, vs) && !AllDone(pr, s)
    ensures i < |s| && t < |s[i].threads| && !Blocked(pr, s, i, t)
  {
    i := LeastCalls(s);
    if RankDone(pr, s[i]) {
      var m := i;
      i :| 0 <= i < |s| && !RankDone(pr, s[i]);
      DoneCalls(pr, s[m], vs[m]);
      DoneCalls(pr, s[i], vs[i]);
    }
    t := RankMover(pr, s, i, vs[i]);
  }

  /** Replacing one thread changes the total by that thread's own change. */
  lemma WorkOfUpdate(pr: Program, s: System, i: nat, r': Rank, t: nat)
    requires i < |s| && t < |s[i].threads| == |r'.threads|
    requires r'.threads == s[i].threads[t := r'.threads[t]]
    ensures TotalWork(pr, s[i := r']) == TotalWork(pr, s) - Work(pr)(s[i].threads[t]) + Work(pr)(r'.threads[t])
  {
    SumUpdate(s[i].threads, t, r'.threads[t], Work(pr));
    SumUpdate(s, i, r', RankWork(pr));
  }

  ghost predicate Step1(pr: Program, s: System, i: nat, t: nat, r': Rank)
  {
    i < |s| && t < |s[i].threads| && ThreadStep(pr, s, i, t, r')
  }

  lemma TakeStep(pr: Program, s: System, i: nat, t: nat, r': Rank)
    requires Step1(pr, s, i, t, r')
    ensures Next(pr, s, s[i := r'])
  {
    assert StepOf(pr, s, s[i := r'], i, t);
  }

  /** From a read, the read and its compare-exchange run without interference. */
  lemma Exchange(pr: Program, s: System, i: nat, t: nat) returns (mid: System, end: System)
    requires i < |s| && t < |s[i].threads|
    requires s[i].threads[t].pc == Load1 || s[i].threads[t].pc == Load2
    ensures Next(pr, s, mid) && Next(pr, mid, end)
    ensures TotalWork(pr, end) < TotalWork(pr, s)
  {
    var r := s[i];
    var one := r.threads[t].pc == Load1;
    var r1 := Goto(r, t, if one then Cas1(r.bCount) else Cas2(r.bCount2));
    TakeStep(pr, s, i, t, r1);
    mid := s[i := r1];
    var r2 :=
      if one then Goto(r1.(bCount := r.bCount + 1), t, if r.bCount == |r.threads| - 1 then Reset1 else Spin1)
      else Goto(r1.(bCount2 := r.bCount2 - 1), t, if r.bCount2 == 1 then Reset2 else Spin2);
    TakeStep(pr, mid, i, t, r2);
    end := mid[i := r2];
    WorkOfUpdate(pr, s, i, r1, t);
    WorkOfUpdate(pr, mid, i, r2, t);
  }

  lemma SingleStep(pr: Program, s: System, i: nat, t: nat) returns (s': System)
    requires i < |s| && t < |s[i].threads| && !Blocked(pr, s, i, t)
    requires var pc := s[i].threads[t].pc; !pc.Load1? && !pc.Load2? && !pc.Cas1? && !pc.Cas2?
    ensures Next(pr, s, s') && TotalWork(pr, s') < TotalWork(pr, s)
  {
    var r := s[i];
    var th := r.threads[t];
    var full := pr.full(th.round);
    var r' :=
      match th.pc
      case Outside => Goto(r, t, Load1)
      case Reset1 => Goto(r.(bCount := 0, elected := r.elected + [t]), t, if full then Post else Load2)
      case Spin1 => Goto(r, t, if full then AwaitRelease else Load2)
      case Post => Goto(r.(calls := r.calls + 1), t, Test(r.calls + 1))
      case Test(_) => Goto(r, t, Load2)
      case AwaitRelease => Goto(r, t, Load2)
      case Reset2 => Leave(r.(bCount2 := |r.threads|), t)
      case Spin2 => Leave(r, t)
      case _ => r;
    TakeStep(pr, s, i, t, r');
    s' := s[i := r'];
    WorkOfUpdate(pr, s, i, r', t);
  }

  lemma Advance(pr: Program, s: System, vs: seq<View>) returns (tr: seq<System>)
    requires Inv(pr, s, vs) && !AllDone(pr, s)
    ensures IsRun(pr, tr) && tr[0] == s && TotalWork(pr, tr[|tr| - 1]) < TotalWork(pr, s)
  {
    var i, t := Mover(pr, s, vs);
    var pc := s[i].threads[t].pc;
    if pc.Load1? || pc.Load2? {
      var mid, end := Exchange(pr, s, i, t);
      tr := [s, mid, end];
    } else if pc.Cas1? || pc.Cas2? {
      tr := Retry(pr, s, i, t);
    } else {
      var s' := SingleStep(pr, s, i, t);
      tr := [s, s'];
    }
  }

  /** A thread about to compare-exchange fails once, reads again and then succeeds. */
  lemma Retry(pr: Program, s: System, i: nat, t: nat) returns (tr: seq<System>)
    requires i < |s| && t < |s[i].threads| && (s[i].threads[t].pc.Cas1? || s[i].threads[t].pc.Cas2?)
    ensures IsRun(pr, tr) && tr[0] == s && TotalWork(pr, tr[|tr| - 1]) < TotalWork(pr, s)
  {
    var r1 := Goto(s[i], t, if s[i].threads[t].pc.Cas1? then Load1 else Load2);
    TakeStep(pr, s, i, t, r1);
    WorkOfUpdate(pr, s, i, r1, t);
    var mid, end := Exchange(pr, s[i := r1], i, t);
    tr := [s, s[i := r1], mid, end];
  }

  lemma {:induction false} FinishFrom(pr: Program, s: System, vs: seq<View>) returns (tr: seq<System>)
    requires Inv(pr, s, vs)
    ensures IsRun(pr, tr) && tr[0] == s && AllDone(pr, tr[|tr| - 1])
    decreases var w := TotalWork(pr, s); if w < 0 then 0 else w
  {
    if AllDone(pr, s) {
      tr := [s];
    } else {
      var first := Advance(pr, s, vs);
      var mid := first[|first| - 1];
      var vs' := RunKeepsInv(pr, first, vs);
      TotalWorkNonNegative(pr, mid, vs');
      var rest := FinishFrom(pr, mid, vs');
      tr := first[..|first| - 1] + rest;
    }
  }

  /** No stuck state: from every reachable state the threads can still finish all rounds,
      on every rank. */
  lemma AlwaysCanFinish(pr: Program, s: System) returns (tr: seq<System>)
    requires Reachable(pr, s)
    ensures IsRun(pr, tr) && tr[0] == s && AllDone(pr, tr[|tr| - 1])
  {
    var before :| IsRun(pr, before) && Init(before[0]) && before[|before| - 1] == s;
    var vs := RunInv(pr, before);
    tr := FinishFrom(pr, s, vs);
  }
}
