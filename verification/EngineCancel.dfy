/** What becomes of a request whose MPI cancel failed and left a null handle. */
module EngineCancel {
  import opened RequestQueue
  import opened Occurrences
  import opened Engine
  import opened EngineConservation

  ghost predicate Nulled(s: State, id: Id)
  {
    id in s.reqs && s.reqs[id].nulled
  }

  lemma NulledStays(limit: nat, s: State, a: Action, s': State, id: Id)
    requires Step(limit, s, a, s') && Nulled(s, id) && id < s.posted
    ensures Nulled(s', id)
  {
    match a
    case CancelQueued(k, t, ok) => assert DoCancel(s, s', k, t, ok);
    case _ =>
  }

  // ---------- on the communicator's own queue: never again ----------

  /** A nulled request sits in the receive queue. */
  ghost predicate Stranded(s: State, id: Id)
  {
    |s.chans| == 3 && id < s.posted && Nulled(s, id) && id in s.chans[RECV].queue
  }

  /** Positions that are not marked stay in the queue. */
  lemma {:induction false} UnmarkedStays(q: seq<Id>, hit: seq<bool>, id: Id)
    requires |q| == |hit| && id in q
    requires forall i :: 0 <= i < |q| && q[i] == id ==> !hit[i]
    ensures id in Rejected(q, hit)
  {
    var n := |q| - 1;
    if q[n] != id {
      assert q == q[..n] + [q[n]];
      UnmarkedStays(q[..n], hit[..n], id);
    }
  }

  lemma CancelStranded(s: State, s': State, k: nat, t: Id, ok: bool, id: Id)
    requires Tidy(s) && Stranded(s, id) && DoCancel(s, s', k, t, ok)
    ensures id in s'.chans[RECV].queue
  {
    if ok && k == RECV {
      var i := CancelPosition(s, s', k, t);
      var q := s.chans[RECV].queue;
      SwapRemoveConserves(q, i);
      assert id in multiset(q);
      assert id in multiset(SwapRemove(q, i));
    }
  }

  lemma StepStranded(limit: nat, s: State, s': State, id: Id)
    requires Conserved(s) && Stranded(s, id) && Next(limit, s, s')
    ensures Stranded(s', id)
  {
    var a :| Step(limit, s, a, s');
    NulledStays(limit, s, a, s', id);
    match a
    case CancelQueued(k, t, ok) => CancelStranded(s, s', k, t, ok, id);
    case VisitMpi(hit) => VisitStranded(s, s', hit, id);
    case _ =>
  }

  /** A null handle is never among those that complete. */
  lemma VisitStranded(s: State, s': State, hit: seq<bool>, id: Id)
    requires Stranded(s, id) && DoVisitMpi(s, s', hit)
    ensures id in s'.chans[RECV].queue
  {
    if Top(s).stage == RECV { UnmarkedStays(s.chans[RECV].queue, hit, id); }
  }

  lemma {:induction false} RunStranded(limit: nat, tr: seq<State>, id: Id)
    requires IsRun(limit, tr) && Conserved(tr[0]) && Stranded(tr[0], id)
    ensures Conserved(tr[|tr| - 1]) && Stranded(tr[|tr| - 1], id)
    decreases |tr|
  {
    if |tr| > 1 {
      RunInit(limit, tr);
      var pre := tr[..|tr| - 1];
      assert pre[0] == tr[0] && pre[|pre| - 1] == tr[|tr| - 2];
      RunStranded(limit, pre, id);
      StepStranded(limit, tr[|tr| - 2], tr[|tr| - 1], id);
      StepConserves(limit, tr[|tr| - 2], tr[|tr| - 1]);
    }
  }

  /** A failed cancel strands a receive: in every continuation the request stays queued, and its
      callback never runs. */
  lemma FailedCancelStrands(limit: nat, tr: seq<State>, k: nat, id: Id)
    requires IsRun(limit, tr) && Reachable(limit, tr[0]) && |tr| > 1
    requires k == RECV && DoCancel(tr[0], tr[1], k, id, false)
    ensures var s := tr[|tr| - 1]; |s.chans| == 3 && id in s.chans[RECV].queue && id !in s.ran && id !in s.cancelled
  {
    ReachableConserves(limit, tr[0]);
    assert Accounted(tr[0], id);
    HeldMember(tr[0], RECV, id);
    assert Step(limit, tr[0], CancelQueued(k, id, false), tr[1]);
    StepConserves(limit, tr[0], tr[1]);
    var rest := tr[1..];
    assert IsRun(limit, rest) by {
      forall i | 0 <= i < |rest| - 1 ensures Next(limit, rest[i], rest[i + 1]) {
        assert Next(limit, tr[i + 1], tr[i + 1 + 1]);
      }
    }
    RunStranded(limit, rest, id);
    var s := tr[|tr| - 1];
    assert rest[|rest| - 1] == s;
    assert Accounted(s, id);
    OccMember(s.chans[RECV].queue, id);
    OccMember(s.ran, id);
    OccMember(s.cancelled, id);
  }

  // ---------- on the shared queue: bounded waiting ----------

  /** The request waits at position `p` of the shared queue with a null handle. */
  ghost predicate Waiting(s: State, id: Id, p: nat)
  {
    |s.chans| == 3 && id < s.posted && Nulled(s, id)
    && p < |s.chans[SHARED].queue| && s.chans[SHARED].queue[p] == id
  }

  /** A step that collects a request from the shared queue. */
  ghost predicate SharedVisit(s: State, s': State)
  {
    exists pos: nat :: DoVisitShared(s, s', pos)
  }

  /** Each visit of the shared queue either collects the request or moves it strictly forward; no
      other step moves it back, and it cannot be cancelled any more. */
  lemma StepWaiting(limit: nat, s: State, s': State, id: Id, p: nat) returns (p': nat)
    requires Conserved(s) && Waiting(s, id, p) && Next(limit, s, s')
    ensures SharedVisit(s, s') ==>
              |s'.chans| == 3 && (s'.chans[SHARED].batch == [id] || (Waiting(s', id, p') && p' < p))
    ensures !SharedVisit(s, s') ==> Waiting(s', id, p') && p' <= p
  {
    var a :| Step(limit, s, a, s');
    p' := p;
    match a
    case VisitShared(pos) =>
      NulledStays(limit, s, a, s', id);
      p' := VisitWaiting(s, s', pos, id, p);
    case CancelQueued(k, t, ok) => p' := CancelStillWaiting(limit, s, a, s', id, p);
    case _ => StillWaiting(limit, s, a, s', id, p);
  }

  lemma CancelStillWaiting(limit: nat, s: State, a: Action, s': State, id: Id, p: nat) returns (p': nat)
    requires Tidy(s) && Waiting(s, id, p) && Step(limit, s, a, s') && a.CancelQueued?
    ensures Waiting(s', id, p') && p' <= p && !SharedVisit(s, s')
  {
    NulledStays(limit, s, a, s', id);
    NoVisit(s, s');
    p' := p;
    if a.mpiCancelled && a.k == SHARED { p' := CancelWaiting(s, s', a.id, id, p); }
  }

  /** Any step but a visit of the shared queue or a cancel leaves the request where it is. */
  lemma StillWaiting(limit: nat, s: State, a: Action, s': State, id: Id, p: nat)
    requires Waiting(s, id, p) && Step(limit, s, a, s') && !a.VisitShared? && !a.CancelQueued?
    ensures Waiting(s', id, p) && !SharedVisit(s, s')
  {
    NulledStays(limit, s, a, s', id);
    NoVisit(s, s');
  }

  /** A visit of the shared queue grows the stack by one frame and sets `busy`. */
  lemma NoVisit(s: State, s': State)
    ensures SharedVisit(s, s') ==>
              |s.chans| == 3 == |s'.chans| && !s.chans[SHARED].busy && s'.chans[SHARED].busy
              && AtProgress(s, SHARED)
  {
  }

  lemma VisitWaiting(s: State, s': State, pos: nat, id: Id, p: nat) returns (p': nat)
    requires Waiting(s, id, p) && DoVisitShared(s, s', pos)
    ensures pos == p ==> s'.chans[SHARED].batch == [id]
    ensures pos != p ==> p' < p && p' < |s'.chans[SHARED].queue| && s'.chans[SHARED].queue[p'] == id
    ensures p' <= p
  {
    if pos == p {
      p' := p;
    } else {
      p' := p - pos - 1;
    }
  }

  lemma CancelWaiting(s: State, s': State, t: Id, id: Id, p: nat) returns (p': nat)
    requires Tidy(s) && Waiting(s, id, p) && DoCancel(s, s', SHARED, t, true)
    ensures p' <= p && p' < |s'.chans[SHARED].queue| && s'.chans[SHARED].queue[p'] == id
  {
    var i := CancelPosition(s, s', SHARED, t);
    WithoutKeeps(s.chans[SHARED].queue, i, p);
    p' := if i < p then p - 1 else p;
  }

  lemma WithoutKeeps(q: seq<Id>, i: nat, p: nat)
    requires i < |q| && p < |q| && i != p
    ensures var p' := if i < p then p - 1 else p; |WithoutAt(q, i)| == |q| - 1 && WithoutAt(q, i)[p'] == q[p]
  {
  }

  /** The first null handle of the shared queue. */
  lemma FirstNull(s: State, q: seq<Id>, n: nat) returns (pos: nat)
    requires n <= |q| && exists i :: 0 <= i < n && Nulled(s, q[i])
    ensures pos < n && Nulled(s, q[pos]) && forall i :: 0 <= i < pos ==> !Nulled(s, q[i])
  {
    if i :| 0 <= i < n - 1 && Nulled(s, q[i]) {
      pos := FirstNull(s, q, n - 1);
    } else {
      pos := n - 1;
    }
  }

  /** While the request waits, a `progress` that reaches the shared queue and is not nested in another one always
      collects some request: finding none ready is ruled out, and collecting the first null handle, which stands no
      later than the waiting request, can happen. */
  lemma VisitNeverEmpty(limit: nat, s: State, id: Id, p: nat) returns (pos: nat, s': State)
    requires Waiting(s, id, p) && AtProgress(s, SHARED) && !s.chans[SHARED].busy && s.fault == NoFault
    ensures pos <= p && Nulled(s, s.chans[SHARED].queue[pos]) && Step(limit, s, VisitShared(pos), s')
    ensures s'.chans[SHARED].batch == [s.chans[SHARED].queue[pos]]
    ensures forall t :: !Step(limit, s, VisitNothing, t)
  {
    var c := s.chans[SHARED];
    assert c.queue[p] in c.queue;
    pos := FirstNull(s, c.queue, p + 1);
    s' := Push(Push(Pop(SetChan(s, SHARED, c.(queue := c.queue[pos + 1..] + c.queue[..pos],
                                              batch := [c.queue[pos]], busy := true))),
                    Progress(SHARED + 1)), Drain(SHARED));
  }

  ghost function Visits(tr: seq<State>): nat
  {
    if |tr| <= 1 then 0 else
      Visits(tr[..|tr| - 1]) + (if SharedVisit(tr[|tr| - 2], tr[|tr| - 1]) then 1 else 0)
  }

  /** The run ends with the request at position `p'`, having spent at most `p - p'` visits. */
  ghost predicate EndsWaiting(tr: seq<State>, id: Id, p: nat, p': nat)
  {
    tr != [] && Waiting(tr[|tr| - 1], id, p') && p' + Visits(tr) <= p
  }

  /** The request at the end of the run: still waiting, with room for only `p` visits, or collected. */
  ghost predicate WaitedOrCollected(tr: seq<State>, id: Id, p: nat)
  {
    || (exists j :: 0 < j < |tr| && |tr[j].chans| == 3 && tr[j].chans[SHARED].batch == [id])
    || (exists p' :: EndsWaiting(tr, id, p, p'))
  }

  lemma StillCollected(tr: seq<State>, id: Id, p: nat)
    requires |tr| > 1
    requires exists j :: 0 < j < |tr| - 1 && |tr[j].chans| == 3 && tr[j].chans[SHARED].batch == [id]
    ensures WaitedOrCollected(tr, id, p)
  {
  }

  lemma ExtendWaiting(limit: nat, tr: seq<State>, id: Id, p: nat, p0: nat)
    requires |tr| > 1 && Conserved(tr[|tr| - 2]) && Next(limit, tr[|tr| - 2], tr[|tr| - 1])
    requires Waiting(tr[|tr| - 2], id, p0) && p0 + Visits(tr[..|tr| - 1]) <= p
    ensures WaitedOrCollected(tr, id, p)
  {
    var p' := StepWaiting(limit, tr[|tr| - 2], tr[|tr| - 1], id, p0);
    if Waiting(tr[|tr| - 1], id, p') && p' + Visits(tr) <= p {
      assert EndsWaiting(tr, id, p, p');
    } else {
      assert tr[|tr| - 1].chans[SHARED].batch == [id];
    }
  }

  lemma {:induction false} RunWaiting(limit: nat, tr: seq<State>, id: Id, p: nat)
    requires IsRun(limit, tr) && Conserved(tr[0]) && Waiting(tr[0], id, p)
    ensures Conserved(tr[|tr| - 1]) && WaitedOrCollected(tr, id, p)
    decreases |tr|
  {
    if |tr| == 1 {
      assert EndsWaiting(tr, id, p, p);
    } else {
      RunInit(limit, tr);
      var pre := tr[..|tr| - 1];
      assert pre[0] == tr[0] && pre[|pre| - 1] == tr[|tr| - 2];
      RunWaiting(limit, pre, id, p);
      StepConserves(limit, tr[|tr| - 2], tr[|tr| - 1]);
      if p0 :| EndsWaiting(pre, id, p, p0) {
        ExtendWaiting(limit, tr, id, p, p0);
      } else {
        var j :| 0 < j < |pre| && |pre[j].chans| == 3 && pre[j].chans[SHARED].batch == [id];
        assert tr[j] == pre[j];
        StillCollected(tr, id, p);
      }
    }
  }

  /** A failed cancel on the shared queue only delays: from position `p`, more than `p` visits of
      the queue cannot pass without the request having been collected for its callback. */
  lemma FailedSharedCancelCompletes(limit: nat, tr: seq<State>, id: Id, p: nat)
    requires IsRun(limit, tr) && Reachable(limit, tr[0]) && Waiting(tr[0], id, p)
    requires Visits(tr) > p
    ensures exists j :: 0 < j < |tr| && |tr[j].chans| == 3 && tr[j].chans[SHARED].batch == [id]
  {
    ReachableConserves(limit, tr[0]);
    RunWaiting(limit, tr, id, p);
  }
}
