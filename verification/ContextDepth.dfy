/** The recursion depth of a context, shared by all its threads.

    A shared receive whose message is there runs its callback at once while the context's depth is at most the limit.
    The test reads an atomic counter and the guard around the callback increments it in a second access, so other
    threads can pass the test in between. */
module ContextDepth {
  import opened Counting

  /** `nested` counts the inline callbacks on the thread's stack; `admitted` says that the thread has passed the test
      and has not incremented yet. */
  datatype Thread = Thread(nested: nat, admitted: bool)
  datatype State = State(depth: int, threads: seq<Thread>)

  datatype Action = Test | GiveUp | Enter | Return

  ghost function Nested(): Thread -> int { (t: Thread) => t.nested }
  ghost function Admitted(): Thread -> bool { (t: Thread) => t.admitted }

  ghost function Set(s: State, t: nat, th: Thread, delta: int): State
    requires t < |s.threads|
  {
    State(s.depth + delta, s.threads[t := th])
  }

  /** One access of the counter by thread `t`, or its test of the message.  A thread that failed the test queues its
      request and changes nothing here. */
  ghost predicate Step(limit: nat, s: State, t: nat, a: Action, s': State)
  {
    && t < |s.threads|
    && var th := s.threads[t];
       match a
       case Test => !th.admitted && s.depth <= limit && s' == Set(s, t, th.(admitted := true), 0)
       case GiveUp => th.admitted && s' == Set(s, t, th.(admitted := false), 0)
       case Enter => th.admitted && s' == Set(s, t, Thread(th.nested + 1, false), 1)
       case Return => !th.admitted && th.nested > 0 && s' == Set(s, t, Thread(th.nested - 1, false), -1)
  }

  ghost predicate Next(limit: nat, s: State, s': State)
  {
    exists t, a :: Step(limit, s, t, a, s')
  }

  ghost function Start(threads: nat): State { State(0, seq(threads, _ => Thread(0, false))) }

  ghost predicate IsRun(limit: nat, tr: seq<State>)
  {
    |tr| > 0 && forall i :: 0 <= i < |tr| - 1 ==> Next(limit, tr[i], tr[i + 1])
  }

  ghost predicate Reachable(limit: nat, threads: nat, s: State)
  {
    exists tr :: IsRun(limit, tr) && tr[0] == Start(threads) && tr[|tr| - 1] == s
  }

  // ---------- the bound ----------

  /** The counter is the number of inline callbacks on all stacks; whoever has passed the test still has room below
      the limit plus the number of threads. */
  ghost predicate Inv(limit: nat, threads: nat, s: State)
  {
    && |s.threads| == threads && s.depth == Sum(s.threads, Nested())
    && s.depth + Count(s.threads, Admitted()) <= limit + threads
    && forall t :: 0 <= t < threads ==> Room(limit, s.threads[t])
  }

  ghost predicate Room(limit: nat, th: Thread) { th.nested + (if th.admitted then 1 else 0) <= limit + 1 }

  lemma StartInv(limit: nat, threads: nat)
    ensures Inv(limit, threads, Start(threads))
  {
    var s := Start(threads);
    SumAtLeastZero(s.threads, Nested());
    CountExtremes(s.threads, Admitted());
  }

  lemma {:induction false} NestedAtMostSum(threads: seq<Thread>, t: nat)
    requires t < |threads|
    ensures threads[t].nested <= Sum(threads, Nested())
  {
    var n := |threads| - 1;
    SumAtLeastZero(threads[..n], Nested());
    if t < n { NestedAtMostSum(threads[..n], t); }
  }

  lemma StepInv(limit: nat, threads: nat, s: State, t: nat, a: Action, s': State)
    requires Inv(limit, threads, s) && Step(limit, s, t, a, s')
    ensures Inv(limit, threads, s')
  {
    SumUpdate(s.threads, t, s'.threads[t], Nested());
    CountUpdate(s.threads, t, s'.threads[t], Admitted());
    NestedAtMostSum(s.threads, t);
    assert Room(limit, s.threads[t]);
  }

  lemma {:induction false} RunInv(limit: nat, threads: nat, tr: seq<State>)
    requires IsRun(limit, tr) && tr[0] == Start(threads)
    ensures Inv(limit, threads, tr[|tr| - 1])
    decreases |tr|
  {
    var n := |tr| - 1;
    if n == 0 {
      StartInv(limit, threads);
    } else {
      RunInv(limit, threads, tr[..n]);
      assert Next(limit, tr[n - 1], tr[n - 1 + 1]);
      var t, a :| Step(limit, tr[n - 1], t, a, tr[n]);
      StepInv(limit, threads, tr[n - 1], t, a, tr[n]);
    }
  }

  /** However the threads interleave, the counter is the number of inline callbacks on all stacks, never negative and
      at most the limit plus the number of threads; no single stack holds more than the limit plus one of them. */
  lemma DepthBounded(limit: nat, threads: nat, s: State)
    requires Reachable(limit, threads, s)
    ensures |s.threads| == threads && s.depth == Sum(s.threads, Nested())
    ensures 0 <= s.depth <= limit + threads
    ensures forall t :: 0 <= t < threads ==> s.threads[t].nested <= limit + 1
  {
    var tr :| IsRun(limit, tr) && tr[0] == Start(threads) && tr[|tr| - 1] == s;
    RunInv(limit, threads, tr);
    SumAtLeastZero(s.threads, Nested());
    forall t | 0 <= t < threads ensures s.threads[t].nested <= limit + 1 { assert Room(limit, s.threads[t]); }
  }

  // ---------- every depth up to the bound is reached ----------

  lemma Extend(limit: nat, threads: nat, s: State, t: nat, a: Action, s': State)
    requires Reachable(limit, threads, s) && Step(limit, s, t, a, s')
    ensures Reachable(limit, threads, s')
  {
    var tr :| IsRun(limit, tr) && tr[0] == Start(threads) && tr[|tr| - 1] == s;
    var longer := tr + [s'];
    forall i | 0 <= i < |longer| - 1 ensures Next(limit, longer[i], longer[i + 1]) {
      if i < |tr| - 1 { assert Next(limit, tr[i], tr[i + 1]); } else { assert Step(limit, s, t, a, s'); }
    }
    assert IsRun(limit, longer) && longer[0] == Start(threads) && longer[|longer| - 1] == s';
  }

  /** The first thread is nested `n` deep, the first `tested` threads have passed the test, and of these the first
      `entered` have incremented as well. */
  ghost function Crowd(threads: nat, n: nat, tested: nat, entered: nat): State
  {
    State(n + entered,
          seq(threads, i => Thread((if i == 0 then n else 0) + (if i < entered then 1 else 0), entered <= i < tested)))
  }

  /** Alone, the first thread nests up to the limit plus one. */
  lemma {:induction false} NestAlone(limit: nat, threads: nat, n: nat)
    requires threads > 0 && n <= limit + 1
    ensures Reachable(limit, threads, Crowd(threads, n, 0, 0))
  {
    if n == 0 {
      var tr := [Crowd(threads, 0, 0, 0)];
      assert Crowd(threads, 0, 0, 0) == Start(threads);
      assert IsRun(limit, tr) && tr[0] == Start(threads);
    } else {
      NestAlone(limit, threads, n - 1);
      var s, mid, s' := Crowd(threads, n - 1, 0, 0), Crowd(threads, n - 1, 1, 0), Crowd(threads, n, 0, 0);
      assert mid == Set(s, 0, s.threads[0].(admitted := true), 0);
      Extend(limit, threads, s, 0, Test, mid);
      assert s' == Set(mid, 0, Thread(n, false), 1);
      Extend(limit, threads, mid, 0, Enter, s');
    }
  }

  /** At the limit, every thread can pass the test before any of them increments. */
  lemma {:induction false} AllPass(limit: nat, threads: nat, tested: nat)
    requires 0 < threads && tested <= threads
    ensures Reachable(limit, threads, Crowd(threads, limit, tested, 0))
    decreases tested
  {
    if tested == 0 {
      NestAlone(limit, threads, limit);
    } else {
      var t := tested - 1;
      AllPass(limit, threads, t);
      var s, s' := Crowd(threads, limit, t, 0), Crowd(threads, limit, tested, 0);
      assert s' == Set(s, t, s.threads[t].(admitted := true), 0);
      Extend(limit, threads, s, t, Test, s');
    }
  }

  lemma {:induction false} AllEnter(limit: nat, threads: nat, entered: nat)
    requires 0 < threads && entered <= threads
    ensures Reachable(limit, threads, Crowd(threads, limit, threads, entered))
    decreases entered
  {
    if entered == 0 {
      AllPass(limit, threads, threads);
    } else {
      var t := entered - 1;
      AllEnter(limit, threads, t);
      var s, s' := Crowd(threads, limit, threads, t), Crowd(threads, limit, threads, entered);
      assert s' == Set(s, t, Thread(s.threads[t].nested + 1, false), 1);
      Extend(limit, threads, s, t, Enter, s');
    }
  }

  /** The depths that occur are exactly those from zero to the limit plus the number of threads. */
  lemma DepthsReached(limit: nat, threads: nat, d: int)
    requires threads > 0
    ensures (exists s :: Reachable(limit, threads, s) && s.depth == d) <==> 0 <= d <= limit + threads
  {
    forall s | Reachable(limit, threads, s) ensures 0 <= s.depth <= limit + threads {
      DepthBounded(limit, threads, s);
    }
    if 0 <= d <= limit {
      NestAlone(limit, threads, d);
      assert Crowd(threads, d, 0, 0).depth == d;
    } else if limit < d <= limit + threads {
      AllEnter(limit, threads, d - limit);
      assert Crowd(threads, limit, threads, d - limit).depth == d;
    }
  }

  /** The counter stays within the bound of a single thread exactly when there is a single thread. */
  lemma OneThreadIffLimitKept(limit: nat, threads: nat)
    requires threads > 0
    ensures (forall s :: Reachable(limit, threads, s) ==> s.depth <= limit + 1) <==> threads == 1
  {
    forall s | Reachable(limit, threads, s) ensures s.depth <= limit + threads {
      DepthBounded(limit, threads, s);
    }
    AllEnter(limit, threads, threads);
    assert Crowd(threads, limit, threads, threads).depth == limit + threads;
  }

  // ---------- and every depth can be left again ----------

  ghost function Pending(s: State): int { Sum(s.threads, Nested()) + Count(s.threads, Admitted()) }

  lemma PendingNatural(s: State)
    ensures Pending(s) >= 0
  {
    SumAtLeastZero(s.threads, Nested());
  }

  /** A thread that has passed the test gives up, or a callback returns. */
  lemma BackOff(limit: nat, s: State, t: nat) returns (a: Action, s': State)
    requires t < |s.threads| && (s.threads[t].admitted || s.threads[t].nested > 0)
    ensures Step(limit, s, t, a, s') && Pending(s') == Pending(s) - 1
  {
    var th := s.threads[t];
    if th.admitted {
      a, s' := GiveUp, Set(s, t, th.(admitted := false), 0);
    } else {
      a, s' := Return, Set(s, t, Thread(th.nested - 1, false), -1);
    }
    SumUpdate(s.threads, t, s'.threads[t], Nested());
    CountUpdate(s.threads, t, s'.threads[t], Admitted());
  }

  /** From every reachable state all callbacks can return, and the counter is zero again. */
  lemma {:induction false} CanUnwind(limit: nat, threads: nat, s: State) returns (s': State, tr: seq<State>)
    requires Reachable(limit, threads, s)
    ensures IsRun(limit, tr) && tr[0] == s && tr[|tr| - 1] == s' && s' == Start(threads)
    decreases Pending(s)
  {
    PendingNatural(s);
    DepthBounded(limit, threads, s);
    if t :| 0 <= t < |s.threads| && (s.threads[t].admitted || s.threads[t].nested > 0) {
      var a, next := BackOff(limit, s, t);
      PendingNatural(next);
      Extend(limit, threads, s, t, a, next);
      var rest;
      s', rest := CanUnwind(limit, threads, next);
      tr := Prepend(limit, s, t, a, rest);
    } else {
      SumAtLeastZero(s.threads, Nested());
      s', tr := s, [s];
      assert s.threads == Start(threads).threads;
    }
  }

  lemma Prepend(limit: nat, s: State, t: nat, a: Action, rest: seq<State>) returns (tr: seq<State>)
    requires IsRun(limit, rest) && Step(limit, s, t, a, rest[0])
    ensures IsRun(limit, tr) && tr[0] == s && tr[|tr| - 1] == rest[|rest| - 1]
  {
    tr := [s] + rest;
    forall i | 0 <= i < |tr| - 1 ensures Next(limit, tr[i], tr[i + 1]) {
      if i == 0 { assert Step(limit, tr[0], t, a, tr[1]); } else { assert Next(limit, rest[i - 1], rest[i - 1 + 1]); }
    }
  }
}
