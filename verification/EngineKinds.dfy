/** Requests stay with the queue they were posted to, and only receives ever lose their MPI handle. */
module EngineKinds {
  import opened RequestQueue
  import opened Engine

  ghost predicate Owns(s: State, k: nat, id: Id) { id in s.reqs && s.reqs[id].kind == k }

  ghost predicate Held(s: State, k: nat, id: Id)
    requires k < |s.chans|
  {
    id in s.chans[k].queue || id in s.chans[k].batch
  }

  ghost predicate FrameOk(s: State, f: Frame)
  {
    match f
    case Progress(stage) => stage <= 3
    case Drain(k) => k < 3
    case Callback(id, how) => how.Batched? ==> how.k < 3 && Owns(s, how.k, id)
  }

  ghost predicate Kinds(s: State)
  {
    && |s.chans| == 3
    && (forall k, id :: 0 <= k < 3 && Held(s, k, id) ==> Owns(s, k, id))
    && (forall i :: 0 <= i < |s.stack| ==> FrameOk(s, s.stack[i]))
    && (forall id :: id in s.reqs ==> id < s.posted && (s.reqs[id].nulled ==> s.reqs[id].kind != SEND))
  }

  /** A request state keeps its queue for ever. */
  lemma OwnsStays(limit: nat, s: State, a: Action, s': State, k: nat, id: Id)
    requires Step(limit, s, a, s') && Owns(s, k, id) && id < s.posted
    ensures Owns(s', k, id)
  {
    match a
    case CancelQueued(j, t, ok) => assert DoCancel(s, s', j, t, ok);
    case _ =>
  }

  lemma {:induction false} SelectedMember<T>(s: seq<T>, hit: seq<bool>, x: T)
    requires |s| == |hit| && x in Selected(s, hit)
    ensures x in s
  {
    var n := |s| - 1;
    assert s == s[..n] + [s[n]];
    if x in Selected(s[..n], hit[..n]) {
      SelectedMember(s[..n], hit[..n], x);
    }
  }

  lemma CancelHeld(s: State, s': State, j: nat, t: Id, ok: bool, k: nat, id: Id)
    requires DoCancel(s, s', j, t, ok) && k < 3 && Held(s', k, id)
    ensures Held(s, k, id)
  {
    if ok && k == j {
      var c := s.chans[j];
      var i: nat :| i < |c.queue| && s'.chans == s.chans[j := AfterRemoval(c, j, i).(scheduled := c.scheduled - 1)];
      if j != SHARED { SwapRemoveMembers(c.queue, i); }
    }
  }

  lemma VisitHeld(s: State, s': State, hit: seq<bool>, k: nat, id: Id)
    requires DoVisitMpi(s, s', hit) && k < 3 && Held(s', k, id)
    ensures Held(s, k, id)
  {
    if k == Top(s).stage {
      var q := s.chans[k].queue;
      if id in Selected(q, hit) { SelectedMember(q, hit, id); } else { RejectedMember(q, hit, id); }
    }
  }

  /** What a queue or batch holds it held before, or it was just posted. */
  lemma StepHeld(limit: nat, s: State, a: Action, s': State, k: nat, id: Id)
    requires Step(limit, s, a, s') && |s.chans| == 3 == |s'.chans| && k < 3 && Held(s', k, id)
    ensures Held(s, k, id) || (a == PostQueued(k) && id == s.posted)
  {
    match a
    case CancelQueued(j, t, ok) => CancelHeld(s, s', j, t, ok, k, id);
    case VisitMpi(hit) => VisitHeld(s, s', hit, k, id);
    case _ =>
  }

  lemma StepChans(limit: nat, s: State, a: Action, s': State)
    requires Step(limit, s, a, s') && |s.chans| == 3
    ensures |s'.chans| == 3 && s'.posted >= s.posted
  {
    match a
    case CancelQueued(j, t, ok) => assert DoCancel(s, s', j, t, ok);
    case _ =>
  }

  lemma StepQueues(limit: nat, s: State, a: Action, s': State, k: nat, id: Id)
    requires Kinds(s) && Step(limit, s, a, s') && |s'.chans| == 3 && k < 3 && Held(s', k, id)
    ensures Owns(s', k, id)
  {
    StepHeld(limit, s, a, s', k, id);
    if Held(s, k, id) {
      assert Owns(s, k, id);
      OwnsStays(limit, s, a, s', k, id);
    }
  }

  /** The new frames of a step are sound. */
  lemma StepTop(limit: nat, s: State, a: Action, s': State, i: nat)
    requires Kinds(s) && Step(limit, s, a, s') && i < |s'.stack|
    ensures (i < |s.stack| && s'.stack[i] == s.stack[i]) || FrameOk(s', s'.stack[i])
  {
    match a
    case CancelQueued(j, t, ok) => assert DoCancel(s, s', j, t, ok);
    case RunNext =>
      var k := Top(s).k;
      assert Held(s, k, s.chans[k].batch[0]);
    case _ =>
  }

  lemma StepFrames(limit: nat, s: State, a: Action, s': State, i: nat)
    requires Kinds(s) && Step(limit, s, a, s') && i < |s'.stack|
    ensures FrameOk(s', s'.stack[i])
  {
    StepTop(limit, s, a, s', i);
    if i < |s.stack| && s'.stack[i] == s.stack[i] {
      var f := s.stack[i];
      assert FrameOk(s, f);
      if f.Callback? && f.how.Batched? {
        OwnsStays(limit, s, a, s', f.how.k, f.id);
      }
    }
  }

  lemma StepReqs(limit: nat, s: State, a: Action, s': State, id: Id)
    requires Kinds(s) && Step(limit, s, a, s') && id in s'.reqs
    ensures id < s'.posted && (s'.reqs[id].nulled ==> s'.reqs[id].kind != SEND)
  {
    match a
    case CancelQueued(j, t, ok) =>
      assert DoCancel(s, s', j, t, ok);
      assert Held(s, j, t);
    case _ =>
  }

  lemma StepKinds(limit: nat, s: State, a: Action, s': State)
    requires Kinds(s) && Step(limit, s, a, s')
    ensures Kinds(s')
  {
    StepChans(limit, s, a, s');
    forall k, id | 0 <= k < 3 && Held(s', k, id) ensures Owns(s', k, id) {
      StepQueues(limit, s, a, s', k, id);
    }
    forall i | 0 <= i < |s'.stack| ensures FrameOk(s', s'.stack[i]) {
      StepFrames(limit, s, a, s', i);
    }
    forall id | id in s'.reqs ensures id < s'.posted && (s'.reqs[id].nulled ==> s'.reqs[id].kind != SEND) {
      StepReqs(limit, s, a, s', id);
    }
  }

  lemma {:induction false} RunKinds(limit: nat, tr: seq<State>)
    requires IsRun(limit, tr) && Init(tr[0])
    ensures Kinds(tr[|tr| - 1])
    decreases |tr|
  {
    if |tr| > 1 {
      RunInit(limit, tr);
      var pre := tr[..|tr| - 1];
      assert pre[0] == tr[0] && pre[|pre| - 1] == tr[|tr| - 2];
      RunKinds(limit, pre);
      var a :| Step(limit, tr[|tr| - 2], a, tr[|tr| - 1]);
      StepKinds(limit, tr[|tr| - 2], a, tr[|tr| - 1]);
    }
  }

  lemma ReachableKinds(limit: nat, s: State)
    requires Reachable(limit, s)
    ensures Kinds(s)
  {
    var tr :| IsRun(limit, tr) && Init(tr[0]) && tr[|tr| - 1] == s;
    RunKinds(limit, tr);
  }
}
