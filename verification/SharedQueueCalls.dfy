/** What one call on the shared queue does: which requests a cancel may touch under any interleaving, and what a
    `cancel` or a `progress` leaves behind when no other thread comes in between. */
module SharedQueueCalls {
  import CancelSearch
  import Counting
  import opened Occurrences
  import opened SharedQueue

  // ---------- a cancel touches its target only ----------

  ghost predicate InCancelOf(s: State, t: nat, target: Id)
  {
    t < |s.threads| && s.threads[t].canc.Consuming? && s.threads[t].canc.target == target
  }

  /** A step of any thread cancels a request, or nulls its handle, only inside a cancel of that very request, and
      does one of the two to it. */
  lemma OnlyTargetTouched(c: Call, s: State, s': State, t: nat)
    requires Step(c, s, s', t) && (s'.cancelled != s.cancelled || s'.nulled != s.nulled)
    ensures c == Cancel && s.threads[t].canc.Consuming?
    ensures var target := s.threads[t].canc.target;
            && s.queue != [] && s.queue[0] == target && s'.queue == s.queue[1..]
            && (|| (s'.cancelled == s.cancelled + [target] && s'.nulled == s.nulled)
                || (s'.cancelled == s.cancelled && s'.nulled == s.nulled + {target}))
  {
  }

  /** A cancel keeps its target until it has looked at the whole queue; only the thread itself changes it. */
  lemma TargetKept(c: Call, s: State, s': State, t: nat, u: nat, target: Id)
    requires Step(c, s, s', t) && InCancelOf(s, u, target)
    ensures InCancelOf(s', u, target) || (t == u && s.queue == [] && s'.threads[u].canc.Restoring?)
  {
  }

  lemma NewlyTouched(s: State, s': State, id: Id) returns (t: nat)
    requires Next(s, s') && id !in s.cancelled && id !in s.nulled && (id in s'.cancelled || id in s'.nulled)
    ensures InCancelOf(s, t, id)
  {
    var c, u: nat :| Step(c, s, s', u);
    OnlyTargetTouched(c, s, s', u);
    t := u;
  }

  /** Whatever was cancelled, or lost its handle, some thread had been asked to cancel. */
  lemma {:induction false} TouchedOnRequest(tr: seq<State>, id: Id)
    requires IsRun(tr) && Init(tr[0])
    requires id in tr[|tr| - 1].cancelled || id in tr[|tr| - 1].nulled
    ensures exists j, t: nat :: 0 <= j < |tr| && InCancelOf(tr[j], t, id)
    decreases |tr|
  {
    if |tr| > 1 {
      RunInit(tr);
      var n := |tr| - 2;
      var pre := tr[..n + 1];
      assert pre[0] == tr[0] && pre[|pre| - 1] == tr[n];
      if id in tr[n].cancelled || id in tr[n].nulled {
        TouchedOnRequest(pre, id);
        var j, t: nat :| 0 <= j < |pre| && InCancelOf(pre[j], t, id);
        assert InCancelOf(tr[j], t, id);
      } else {
        var t := NewlyTouched(tr[n], tr[n + 1], id);
      }
    }
  }

  // ---------- a cancel without interference ----------

  ghost predicate Alone(c: Call, tr: seq<State>, t: nat)
  {
    |tr| > 0 && forall i :: 0 <= i < |tr| - 1 ==> Step(c, tr[i], tr[i + 1], t)
  }

  /** A whole call of `cancel(target)` by thread `t`, from user code to user code. */
  ghost predicate CancelCall(tr: seq<State>, t: nat, target: Id)
  {
    && |tr| > 1 && Alone(Cancel, tr, t) && t < |tr[0].threads| && tr[0].threads[t].canc.NoCancel?
    && InCancelOf(tr[1], t, target)
    && (forall i :: 0 < i < |tr| - 1 ==> t < |tr[i].threads| && !tr[i].threads[t].canc.NoCancel?)
    && t < |tr[|tr| - 1].threads| && tr[|tr| - 1].threads[t].canc.NoCancel?
  }

  /** The queue, the two records of cancels and the thread's own place in `cancel` are all that has changed. */
  ghost predicate SameButCancel(s0: State, s: State, t: nat)
  {
    && t < |s0.threads| == |s.threads|
    && s == State(s.queue, s0.size, s0.threads[t := s0.threads[t].(canc := s.threads[t].canc)], s0.posted, s.nulled,
                  s0.ran, s0.done, s.cancelled)
  }

  /** The verdict on `target` once `seen` has been looked at, and what is kept of `seen`. */
  ghost predicate Verdict(s0: State, s: State, target: Id, seen: seq<Id>, kept: seq<Id>)
  {
    if target !in seen then s.cancelled == s0.cancelled && s.nulled == s0.nulled && kept == seen
    else
      || (&& target !in s0.nulled && s.cancelled == s0.cancelled + [target] && s.nulled == s0.nulled
          && kept == CancelSearch.Others(seen, target))
      || (s.cancelled == s0.cancelled && s.nulled == s0.nulled + {target} && kept == seen)
  }

  /** Where a cancel without interference stands. */
  ghost predicate Cancelling(s0: State, s: State, t: nat, target: Id)
  {
    && SameButCancel(s0, s, t)
    && match s.threads[t].canc
       case Consuming(x, held) =>
         && x == target && |s.queue| <= |s0.queue|
         && var n := |s0.queue| - |s.queue|; s.queue == s0.queue[n..] && Verdict(s0, s, target, s0.queue[..n], held)
       case Restoring(held) => Verdict(s0, s, target, s0.queue, s.queue + held)
       case NoCancel => Verdict(s0, s, target, s0.queue, s.queue)
  }

  /** Looking at one more entry, which is not the target. */
  lemma VerdictNext(s0: State, s: State, target: Id, n: nat, held: seq<Id>)
    requires n < |s0.queue| && s0.queue[n] != target && Verdict(s0, s, target, s0.queue[..n], held)
    ensures Verdict(s0, s, target, s0.queue[..n + 1], held + [s0.queue[n]])
  {
    assert s0.queue[..n + 1] == s0.queue[..n] + [s0.queue[n]];
    CancelSearch.OthersAppend(s0.queue[..n], s0.queue[n], target);
  }

  /** Meeting the target. */
  lemma VerdictFalls(q: seq<Id>, n: nat, target: Id)
    requires n < |q| && q[n] == target && Occ(q, target) <= 1
    ensures target !in q[..n] && target in q[..n + 1] && q[..n + 1] == q[..n] + [target]
    ensures CancelSearch.Others(q[..n + 1], target) == q[..n]
  {
    SeenOnce(q, n, target);
    assert q[..n + 1] == q[..n] + [target];
    CancelSearch.OthersAppend(q[..n], target, target);
    CancelSearch.OthersAbsent(q[..n], target);
  }

  lemma PassOver(s0: State, s: State, s': State, t: nat, target: Id)
    requires Cancelling(s0, s, t, target) && s.threads[t].canc.Consuming? && CancelStep(s, s', t)
    requires s.queue != [] && s.queue[0] != target
    ensures Cancelling(s0, s', t, target)
  {
    var n := |s0.queue| - |s.queue|;
    VerdictNext(s0, s, target, n, s.threads[t].canc.held);
    assert s.queue[1..] == s0.queue[n + 1..];
  }

  lemma VerdictGiven(s0: State, s: State, s': State, target: Id, n: nat, held: seq<Id>, held': seq<Id>)
    requires n < |s0.queue| && s0.queue[n] == target && Occ(s0.queue, target) <= 1
    requires Verdict(s0, s, target, s0.queue[..n], held)
    requires || (&& target !in s.nulled && s'.cancelled == s.cancelled + [target] && s'.nulled == s.nulled
                 && held' == held)
             || (s'.cancelled == s.cancelled && s'.nulled == s.nulled + {target} && held' == held + [target])
    ensures Verdict(s0, s', target, s0.queue[..n + 1], held')
  {
    VerdictFalls(s0.queue, n, target);
  }

  lemma MeetTarget(s0: State, s: State, s': State, t: nat, target: Id)
    requires Cancelling(s0, s, t, target) && s.threads[t].canc.Consuming? && CancelStep(s, s', t)
    requires s.queue != [] && s.queue[0] == target && Occ(s0.queue, target) <= 1
    ensures Cancelling(s0, s', t, target)
  {
    var n := |s0.queue| - |s.queue|;
    assert s.queue[1..] == s0.queue[n + 1..];
    VerdictGiven(s0, s, s', target, n, s.threads[t].canc.held, s'.threads[t].canc.held);
  }

  lemma SeenOnce(q: seq<Id>, n: nat, x: Id)
    requires n < |q| && q[n] == x && Occ(q, x) <= 1
    ensures x !in q[..n]
  {
    assert q == q[..n] + [x] + q[n + 1..];
    OccConcat(q[..n] + [x], q[n + 1..], x);
    OccAppend(q[..n], x, x);
    OccMember(q[..n], x);
  }

  lemma RestoreKeeps(s0: State, s: State, s': State, t: nat, target: Id)
    requires Cancelling(s0, s, t, target) && s.threads[t].canc.Restoring? && CancelStep(s, s', t)
    ensures Cancelling(s0, s', t, target)
  {
    var held := s.threads[t].canc.held;
    if held != [] {
      assert (s.queue + [held[0]]) + held[1..] == s.queue + held;
    } else {
      assert s.queue + held == s.queue;
    }
  }

  lemma CancellingStep(s0: State, s: State, s': State, t: nat, target: Id)
    requires Cancelling(s0, s, t, target) && !s.threads[t].canc.NoCancel? && CancelStep(s, s', t)
    requires Occ(s0.queue, target) <= 1
    ensures Cancelling(s0, s', t, target)
  {
    if s.threads[t].canc.Restoring? {
      RestoreKeeps(s0, s, s', t, target);
    } else if s.queue == [] {
      var held := s.threads[t].canc.held;
      assert s0.queue[..|s0.queue|] == s0.queue && s.queue + held == held;
    } else if s.queue[0] == target {
      MeetTarget(s0, s, s', t, target);
    } else {
      PassOver(s0, s, s', t, target);
    }
  }

  lemma {:induction false} CancellingRun(tr: seq<State>, t: nat, target: Id, j: nat)
    requires CancelCall(tr, t, target) && 0 < j < |tr| && Occ(tr[0].queue, target) <= 1
    ensures Cancelling(tr[0], tr[j], t, target)
    decreases j
  {
    assert Step(Cancel, tr[j - 1], tr[j - 1 + 1], t);
    if j == 1 {
      assert tr[0].queue[..0] == [];
    } else {
      CancellingRun(tr, t, target, j - 1);
      CancellingStep(tr[0], tr[j - 1], tr[j], t, target);
    }
  }

  /** A cancel of a queued request that nobody interferes with ends with the request cancelled and out of the queue, or
      with a null handle; all other entries are back in their old order, and nothing else has changed.  A cancel of a
      request that is not queued changes nothing. */
  lemma CancelAlone(tr: seq<State>, t: nat, target: Id)
    requires CancelCall(tr, t, target) && Reachable(tr[0])
    ensures var s, s' := tr[0], tr[|tr| - 1];
            if target in s.queue then
              || (target !in s.nulled
                  && s' == s.(cancelled := s.cancelled + [target], queue := CancelSearch.Others(s.queue, target)))
              || s' == s.(nulled := s.nulled + {target})
            else s' == s
  {
    var s, s' := tr[0], tr[|tr| - 1];
    ReachableOnce(s, target);
    CancellingRun(tr, t, target, |tr| - 1);
    assert s'.threads == s.threads;
  }

  lemma ReachableOnce(s: State, id: Id)
    requires Reachable(s)
    ensures Occ(s.queue, id) <= 1
  {
    ReachableInv(s);
    assert Accounted(s, id);
    Counting.SumAtLeastZero(s.threads, HoldsOf(id));
  }

  // ---------- a cancel can run to its end with either verdict ----------

  ghost predicate CancelSoFar(tr: seq<State>, t: nat, target: Id)
  {
    && |tr| > 1 && Alone(Cancel, tr, t) && t < |tr[0].threads| && tr[0].threads[t].canc.NoCancel?
    && InCancelOf(tr[1], t, target)
    && (forall i :: 0 < i < |tr| ==> t < |tr[i].threads| && !tr[i].threads[t].canc.NoCancel?)
  }

  lemma AloneMore(c: Call, tr: seq<State>, t: nat, s: State)
    requires Alone(c, tr, t) && Step(c, tr[|tr| - 1], s, t)
    ensures Alone(c, tr + [s], t)
  {
    var longer := tr + [s];
    forall i | 0 <= i < |longer| - 1 ensures Step(c, longer[i], longer[i + 1], t) {
      if i < |tr| - 1 { assert Step(c, tr[i], tr[i + 1], t); }
    }
  }

  /** The accesses left to a cancel. */
  ghost function CancelWork(s: State, t: nat): nat
    requires t < |s.threads|
  {
    match s.threads[t].canc
    case Consuming(_, held) => 2 * |s.queue| + |held| + 2
    case Restoring(held) => |held| + 1
    case NoCancel => 0
  }

  /** The request was cancelled only on a good verdict, and lost its handle only on a bad one. */
  ghost predicate AsJudged(s0: State, s: State, target: Id, ok: bool)
  {
    (s.cancelled != s0.cancelled ==> ok) && (s.nulled != s0.nulled ==> !ok || target in s0.nulled)
  }

  /** The next access of a cancel, with the verdict `ok` should it meet its target. */
  lemma CancelOne(s0: State, s: State, t: nat, target: Id, ok: bool) returns (s': State)
    requires t < |s.threads| && !s.threads[t].canc.NoCancel? && AsJudged(s0, s, target, ok)
    requires s.threads[t].canc.Consuming? ==> s.threads[t].canc.target == target
    requires s0.nulled <= s.nulled && (ok && target in s.nulled ==> target in s0.nulled)
    ensures Step(Cancel, s, s', t) && |s'.threads| == |s.threads| && CancelWork(s', t) < CancelWork(s, t)
    ensures AsJudged(s0, s', target, ok)
    ensures s'.threads[t].canc.Consuming? ==> s'.threads[t].canc.target == target
    ensures s0.nulled <= s'.nulled && (ok && target in s'.nulled ==> target in s0.nulled)
  {
    var th := s.threads[t];
    match th.canc
    case Consuming(_, held) => s' := ConsumeNext(s, t, ok);
    case Restoring(held) =>
      s' := if held != [] then Put(s, t, th.(canc := Restoring(held[1..]))).(queue := s.queue + [held[0]])
            else Put(s, t, th.(canc := NoCancel));
  }

  lemma ConsumeNext(s: State, t: nat, ok: bool) returns (s': State)
    requires t < |s.threads| && s.threads[t].canc.Consuming?
    ensures Step(Cancel, s, s', t) && |s'.threads| == |s.threads| && CancelWork(s', t) < CancelWork(s, t)
    ensures s'.threads[t].canc.Consuming? ==> s'.threads[t].canc.target == s.threads[t].canc.target
    ensures ok && s.threads[t].canc.target !in s.nulled ==> s'.nulled == s.nulled
    ensures s'.nulled == s.nulled || s'.nulled == s.nulled + {s.threads[t].canc.target}
    ensures !ok ==> s'.cancelled == s.cancelled
  {
    var th := s.threads[t];
    var target, held := th.canc.target, th.canc.held;
    if s.queue == [] {
      s' := Put(s, t, th.(canc := Restoring(held)));
    } else {
      var x := s.queue[0];
      if x != target {
        s' := Put(s, t, th.(canc := Consuming(target, held + [x]))).(queue := s.queue[1..]);
      } else if ok && x !in s.nulled {
        s' := Put(s, t, th).(queue := s.queue[1..], cancelled := s.cancelled + [x]);
      } else {
        s' := Put(s, t, th.(canc := Consuming(target, held + [x]))).(
                queue := s.queue[1..], nulled := s.nulled + {x});
      }
    }
  }

  lemma {:induction false} FinishCancel(tr: seq<State>, t: nat, target: Id, ok: bool) returns (tr': seq<State>)
    requires CancelSoFar(tr, t, target)
    requires var s0, s := tr[0], tr[|tr| - 1];
             && AsJudged(s0, s, target, ok) && (s.threads[t].canc.Consuming? ==> s.threads[t].canc.target == target)
             && s0.nulled <= s.nulled && (ok && target in s.nulled ==> target in s0.nulled)
    ensures CancelCall(tr', t, target) && tr'[0] == tr[0] && AsJudged(tr'[0], tr'[|tr'| - 1], target, ok)
    decreases CancelWork(tr[|tr| - 1], t)
  {
    var s := tr[|tr| - 1];
    var next := CancelOne(tr[0], s, t, target, ok);
    AloneMore(Cancel, tr, t, next);
    if next.threads[t].canc.NoCancel? {
      tr' := tr + [next];
    } else {
      tr' := FinishCancel(tr + [next], t, target, ok);
    }
  }

  /** From user code a cancel can run to its end alone; a queued request with a live handle is cancelled or not as MPI
      decides. */
  lemma CancelRuns(s: State, t: nat, target: Id, ok: bool) returns (tr: seq<State>)
    requires Reachable(s) && t < |s.threads| && UserTurn(s.threads[t])
    ensures CancelCall(tr, t, target) && tr[0] == s
    ensures target in s.queue && target !in s.nulled ==>
              tr[|tr| - 1] == if ok then s.(cancelled := s.cancelled + [target],
                                            queue := CancelSearch.Others(s.queue, target))
                              else s.(nulled := s.nulled + {target})
  {
    var s1 := Put(s, t, s.threads[t].(canc := Consuming(target, [])));
    assert Step(Cancel, s, s1, t);
    tr := FinishCancel([s, s1], t, target, ok);
    CancelAlone(tr, t, target);
    if target in s.queue && target !in s.nulled {
      assert target in s.nulled + {target};
      assert |s.cancelled + [target]| == |s.cancelled| + 1;
    }
  }

  // ---------- a progress without interference ----------

  /** A whole call of `progress` by thread `t`, whose callback does nothing on the queue. */
  ghost predicate ProgressCall(tr: seq<State>, t: nat)
  {
    && |tr| > 1 && Alone(Progress, tr, t) && t < |tr[0].threads| && tr[0].threads[t].prog.Idle?
    && (forall i :: 0 < i < |tr| - 1 ==> t < |tr[i].threads| && !tr[i].threads[t].prog.Idle?)
    && t < |tr[|tr| - 1].threads| && tr[|tr| - 1].threads[t].prog.Idle?
  }

  ghost predicate NoneNulled(s: State, n: nat)
    requires n <= |s.queue|
  {
    forall i :: 0 <= i < n ==> s.queue[i] !in s.nulled
  }

  /** `pos` is the request a progress call picks out of the queue of `s`, `rest` what it leaves. */
  ghost predicate PicksAt(s: State, rest: seq<Id>, found: seq<Id>, pos: nat)
  {
    && pos < |s.queue| && NoneNulled(s, pos) && found == [s.queue[pos]]
    && rest == s.queue[pos + 1..] + s.queue[..pos]
  }

  ghost predicate Picks(s: State, rest: seq<Id>, found: seq<Id>)
  {
    || (found == [] && rest == s.queue && NoneNulled(s, |s.queue|))
    || (exists pos: nat :: PicksAt(s, rest, found, pos))
  }

  ghost predicate Progressing(s0: State, s: State, t: nat)
  {
    && t < |s0.threads| == |s.threads|
    && s == State(s.queue, s.size, s0.threads[t := s0.threads[t].(prog := s.threads[t].prog)], s0.posted, s0.nulled,
                  s.ran, s.done, s0.cancelled)
    && match s.threads[t].prog
       case Popping(held) =>
         && s.ran == s0.ran && s.done == s0.done && s.size == s0.size
         && held + s.queue == s0.queue && NoneNulled(s0, |held|)
       case Returning(held, found) =>
         s.ran == s0.ran && s.done == s0.done && s.size == s0.size && Picks(s0, s.queue + held, found)
       case Running(x) =>
         s.ran == s0.ran + [x] && s.done == s0.done && s.size == s0.size && Picks(s0, s.queue, [x])
       case Finishing =>
         exists x :: s.ran == s0.ran + [x] && s.done == s0.done + [x] && s.size == s0.size && Picks(s0, s.queue, [x])
       case Idle => Progressed(s0, s)
  }

  /** What a progress call has done: nothing, or one request picked, run and done. */
  ghost predicate Progressed(s0: State, s: State)
  {
    exists found :: && Picks(s0, s.queue, found) && s.ran == s0.ran + found && s.done == s0.done + found
                    && s.size == s0.size - |found|
  }

  lemma PoppingStep(s0: State, s: State, s': State, t: nat)
    requires Progressing(s0, s, t) && s.threads[t].prog.Popping? && ProgressStep(s, s', t)
    ensures Progressing(s0, s', t)
  {
    var held := s.threads[t].prog.held;
    var n := |held|;
    if s.queue == [] {
      assert held == s0.queue && s.queue + held == held;
    } else {
      assert s.queue[0] == s0.queue[n] && (held + [s.queue[0]]) + s.queue[1..] == s0.queue;
      assert s.queue[1..] == s0.queue[n + 1..] && held == s0.queue[..n];
      assert PicksAt(s0, s.queue[1..] + held, [s.queue[0]], n);
    }
  }

  lemma ReturningStep(s0: State, s: State, s': State, t: nat)
    requires Progressing(s0, s, t) && s.threads[t].prog.Returning? && ProgressStep(s, s', t)
    ensures Progressing(s0, s', t)
  {
    var held, found := s.threads[t].prog.held, s.threads[t].prog.found;
    if held != [] {
      assert (s.queue + [held[0]]) + held[1..] == s.queue + held;
    } else {
      assert s.queue + held == s.queue;
      if found == [] {
        assert s.ran + found == s.ran && s.done + found == s.done;
        assert Progressed(s0, s);
      } else {
        assert found == [found[0]];
      }
    }
  }

  lemma FinishingStep(s0: State, s: State, s': State, t: nat)
    requires Progressing(s0, s, t) && s.threads[t].prog.Finishing? && ProgressStep(s, s', t)
    ensures Progressing(s0, s', t)
  {
    var x :| s.ran == s0.ran + [x] && s.done == s0.done + [x] && s.size == s0.size && Picks(s0, s.queue, [x]);
    assert |[x]| == 1 && s'.queue == s.queue;
    assert Progressed(s0, s');
  }

  lemma ProgressingStep(s0: State, s: State, s': State, t: nat)
    requires Progressing(s0, s, t) && !s.threads[t].prog.Idle? && ProgressStep(s, s', t)
    ensures Progressing(s0, s', t)
  {
    match s.threads[t].prog
    case Popping(_) => PoppingStep(s0, s, s', t);
    case Returning(_, _) => ReturningStep(s0, s, s', t);
    case Running(x) => assert s'.done == s0.done + [x] && s'.queue == s.queue;
    case Finishing => FinishingStep(s0, s, s', t);
  }

  lemma {:induction false} ProgressingRun(tr: seq<State>, t: nat, j: nat)
    requires ProgressCall(tr, t) && 0 < j < |tr|
    ensures Progressing(tr[0], tr[j], t)
    decreases j
  {
    assert Step(Progress, tr[j - 1], tr[j - 1 + 1], t);
    if j == 1 {
      assert [] + tr[0].queue == tr[0].queue;
    } else {
      ProgressingRun(tr, t, j - 1);
      ProgressingStep(tr[0], tr[j - 1], tr[j], t);
    }
  }

  /** The request at `pos` has been picked, run and counted off, and those before it stand behind the others. */
  ghost function Picked(s: State, pos: nat): State
    requires pos < |s.queue|
  {
    s.(queue := s.queue[pos + 1..] + s.queue[..pos], ran := s.ran + [s.queue[pos]],
       done := s.done + [s.queue[pos]], size := s.size - 1)
  }

  /** A progress call that nobody interferes with either finds no request ready, all handles being live, and changes
      nothing, or picks one request before which no handle is null, moves those before it behind the others in order,
      runs its callback once and counts it off; nothing else changes. */
  lemma ProgressAlone(tr: seq<State>, t: nat)
    requires ProgressCall(tr, t)
    ensures var s, s' := tr[0], tr[|tr| - 1];
            || (s' == s && NoneNulled(s, |s.queue|))
            || (exists pos: nat :: pos < |s.queue| && NoneNulled(s, pos) && s' == Picked(s, pos))
  {
    var s, s' := tr[0], tr[|tr| - 1];
    ProgressingRun(tr, t, |tr| - 1);
    assert s'.threads == s.threads;
    var found :| && Picks(s, s'.queue, found) && s'.ran == s.ran + found && s'.done == s.done + found
                 && s'.size == s.size - |found|;
    if found == [] {
      assert s' == s;
    } else {
      var pos: nat :| PicksAt(s, s'.queue, found, pos);
      assert s' == Picked(s, pos);
    }
  }

  // ---------- a progress can pick any request that only live handles precede ----------

  ghost predicate ProgressSoFar(tr: seq<State>, t: nat)
  {
    && |tr| > 1 && Alone(Progress, tr, t) && t < |tr[0].threads| && tr[0].threads[t].prog.Idle?
    && (forall i :: 0 < i < |tr| ==> t < |tr[i].threads| && !tr[i].threads[t].prog.Idle?)
  }

  ghost function ProgressWork(s: State, t: nat): nat
    requires t < |s.threads|
  {
    match s.threads[t].prog
    case Idle => 0
    case Popping(held) => 2 * |s.queue| + |held| + 5
    case Returning(held, found) => |held| + 4
    case Running(_) => 2
    case Finishing => 1
  }

  /** What the call picks when it stops at `pos`, or at the end of the queue. */
  ghost function PickOf(s: State, pos: nat): seq<Id> { if pos < |s.queue| then [s.queue[pos]] else [] }

  /** The call is on its way to picking the request at `pos`. */
  ghost predicate Toward(s0: State, s: State, t: nat, pos: nat)
  {
    && Progressing(s0, s, t) && s.threads[t].canc.NoCancel? && !s.threads[t].gap
    && match s.threads[t].prog
       case Popping(held) => |held| <= pos
       case Returning(_, found) => found == PickOf(s0, pos)
       case _ => s.ran == s0.ran + PickOf(s0, pos)
  }

  lemma ProgressOne(s0: State, s: State, t: nat, pos: nat) returns (s': State)
    requires pos <= |s0.queue| && NoneNulled(s0, pos) && Toward(s0, s, t, pos) && !s.threads[t].prog.Idle?
    ensures Step(Progress, s, s', t) && Toward(s0, s', t, pos) && ProgressWork(s', t) < ProgressWork(s, t)
  {
    var th := s.threads[t];
    match th.prog {
      case Popping(held) => s' := PopOne(s0, s, t, pos);
      case Returning(held, found) =>
        s' := if held != [] then Put(s, t, th.(prog := Returning(held[1..], found))).(queue := s.queue + [held[0]])
              else if found != [] then Put(s, t, th.(prog := Running(found[0]))).(ran := s.ran + [found[0]])
              else Put(s, t, th.(prog := Idle));
        assert held == [] && found == [] ==> s0.ran + [] == s0.ran;
      case Running(id) => s' := Put(s, t, th.(prog := Finishing)).(done := s.done + [id]);
      case Finishing => s' := Put(s, t, th.(prog := Idle)).(size := s.size - 1);
    }
    ProgressingStep(s0, s, s', t);
  }

  lemma PopOne(s0: State, s: State, t: nat, pos: nat) returns (s': State)
    requires pos <= |s0.queue| && NoneNulled(s0, pos) && Toward(s0, s, t, pos) && s.threads[t].prog.Popping?
    ensures ProgressStep(s, s', t) && |s'.threads| == |s.threads| && ProgressWork(s', t) < ProgressWork(s, t)
    ensures s'.threads[t].canc.NoCancel? && !s'.threads[t].gap
    ensures match s'.threads[t].prog
            case Popping(held) => |held| <= pos
            case Returning(_, found) => found == PickOf(s0, pos)
            case _ => false
  {
    var th := s.threads[t];
    var held := th.prog.held;
    if s.queue == [] {
      assert held == s0.queue;
      s' := Put(s, t, th.(prog := Returning(held, [])));
    } else {
      var x := s.queue[0];
      assert x == s0.queue[|held|];
      s' := (if |held| < pos then Put(s, t, th.(prog := Popping(held + [x])))
             else Put(s, t, th.(prog := Returning(held, [x])))).(queue := s.queue[1..]);
    }
  }

  lemma {:induction false} FinishProgress(tr: seq<State>, t: nat, pos: nat) returns (tr': seq<State>)
    requires ProgressSoFar(tr, t) && pos <= |tr[0].queue| && NoneNulled(tr[0], pos)
    requires Toward(tr[0], tr[|tr| - 1], t, pos)
    ensures ProgressCall(tr', t) && tr'[0] == tr[0] && Toward(tr[0], tr'[|tr'| - 1], t, pos)
    decreases ProgressWork(tr[|tr| - 1], t)
  {
    var next := ProgressOne(tr[0], tr[|tr| - 1], t, pos);
    AloneMore(Progress, tr, t, next);
    if next.threads[t].prog.Idle? {
      tr' := tr + [next];
    } else {
      tr' := FinishProgress(tr + [next], t, pos);
    }
  }

  /** A thread outside `progress` can pick every request before which no handle is null, as MPI decides; with no null
      handle in the queue it can also find nothing. */
  lemma ProgressRuns(s: State, t: nat, pos: nat) returns (tr: seq<State>)
    requires Reachable(s) && t < |s.threads| && UserTurn(s.threads[t]) && s.threads[t].prog.Idle?
    requires pos <= |s.queue| && NoneNulled(s, pos)
    ensures ProgressCall(tr, t) && tr[0] == s
    ensures tr[|tr| - 1] == if pos == |s.queue| then s else Picked(s, pos)
  {
    var s1 := Put(s, t, s.threads[t].(prog := Popping([])));
    assert Step(Progress, s, s1, t) && [] + s.queue == s.queue;
    tr := FinishProgress([s, s1], t, pos);
    ProgressAlone(tr, t);
    PickKnown(s, tr[|tr| - 1], pos);
  }

  lemma PickKnown(s: State, s': State, pos: nat)
    requires Reachable(s) && pos <= |s.queue| && s'.ran == s.ran + PickOf(s, pos)
    requires s' == s || exists p: nat :: p < |s.queue| && s' == Picked(s, p)
    ensures s' == if pos == |s.queue| then s else Picked(s, pos)
  {
    if s' == s {
      assert |s.ran + PickOf(s, pos)| == |s.ran|;
    } else {
      var p: nat :| p < |s.queue| && s' == Picked(s, p);
      assert s'.ran[|s.ran|..] == [s.queue[p]] == PickOf(s, pos);
      OnePosition(s, p, pos);
    }
  }

  lemma OnePosition(s: State, p: nat, q: nat)
    requires Reachable(s) && p < |s.queue| && q < |s.queue| && s.queue[p] == s.queue[q]
    ensures p == q
  {
    ReachableOnce(s, s.queue[p]);
    if p < q { SeenOnce(s.queue, q, s.queue[q]); } else if q < p { SeenOnce(s.queue, p, s.queue[p]); }
  }
}
