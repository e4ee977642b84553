/** How the call stacks of the libfabric backend look, and what the cancel calls on them know. */
module LibfabricShape {
  import opened Libfabric
  import opened LibfabricSafety

  /** Which frame may sit on which.  User code runs in callbacks; the poll inside a `cancel_recv` is made on behalf of
      the same communicator or context. */
  ghost predicate Fits(g: Frame, f: Frame)
  {
    match f
    case Callback(_, _) => g.Poll? || g.Sending? || g.Clear?
    case Poll(site, _) => g.Posting? || g.Clear? || g.Callback? || Awaits(g, site)
    case _ => g.Callback?
  }

  /** A cancel call that waits for its poll. */
  ghost predicate Awaits(g: Frame, site: Site)
  {
    g.Cancelling? && g.site == site && g.phase.Popping? && g.temp == []
  }

  /** A cancel call asked for a receive, on the queue that belongs to it; when it polls it has put everything back. */
  ghost predicate CancelOk(s: State, f: Frame)
  {
    f.Cancelling? ==>
      && f.target < |s.ops| && !s.ops[f.target].send && f.target in s.asked && f.site == SiteFor(s.ops[f.target])
      && (f.phase.Polling? ==> f.temp == [])
  }

  ghost predicate ShapeOk(s: State, st: seq<Frame>)
  {
    && (forall i :: 0 < i < |st| ==> Fits(st[i - 1], st[i]))
    && (forall i :: 0 <= i < |st| ==> CancelOk(s, st[i]))
    && (st != [] ==> !st[0].Callback?)
  }

  ghost predicate Shaped(s: State) { forall t :: 0 <= t < |s.stacks| ==> ShapeOk(s, s.stacks[t]) }

  /** What a step pushes fits on what it leaves of the stack. */
  ghost predicate PushFits(s: State, st: seq<Frame>, m: Move)
  {
    var base := if m.drop && st != [] then Below(st) else st;
    && |m.push| <= 2 && (|m.push| == 2 ==> Fits(m.push[0], m.push[1]))
    && (m.push != [] ==> if base == [] then !m.push[0].Callback? else Fits(Top(base), m.push[0]))
  }

  lemma PushKeepsShape(s: State, st: seq<Frame>, m: Move)
    requires ShapeOk(s, st) && PushFits(s, st, m) && forall i :: 0 <= i < |m.push| ==> CancelOk(s, m.push[i])
    ensures ShapeOk(s, NewStack(st, m))
  {
    var base := if m.drop && st != [] then Below(st) else st;
    var st' := base + m.push;
    forall i | 0 < i < |st'| ensures Fits(st'[i - 1], st'[i]) {
      if i < |base| { assert Fits(st[i - 1], st[i]); }
    }
  }

  lemma TopFits(s: State, st: seq<Frame>)
    requires ShapeOk(s, st) && |st| > 1
    ensures Fits(Top(Below(st)), Top(st))
  {
    assert Fits(st[|st| - 2], st[|st| - 2 + 1]);
  }

  lemma TakesFits(limit: nat, part: Part, s: State, t: nat, a: Action, m: Move)
    requires Takes(limit, part, s, t, a, m) && ShapeOk(s, s.stacks[t])
    ensures PushFits(s, s.stacks[t], m)
  {
    var st := s.stacks[t];
    if |st| > 1 { TopFits(s, st); }
    match part
    case Cancels => CancelFits(s, st, a);
    case _ =>
  }

  lemma CancelFits(s: State, st: seq<Frame>, a: Action)
    requires ShapeOk(s, st) && CancelEnabled(s, st, a)
    ensures PushFits(s, st, CancelMove(s, st, a))
  {
    assert CancelOk(s, st[|st| - 1]);
    if |st| > 1 { TopFits(s, st); }
  }

  lemma TakesCancelOk(limit: nat, part: Part, s: State, t: nat, a: Action, m: Move, i: nat)
    requires Takes(limit, part, s, t, a, m) && ShapeOk(s, s.stacks[t]) && i < |m.push|
    ensures CancelOk(Apply(s, t, m), m.push[i])
  {
    match part
    case Calls =>
    case Cancels => MoveCancelOk(s, s.stacks[t], a, i);
    case _ =>
  }

  lemma MoveCancelOk(s: State, st: seq<Frame>, a: Action, i: nat)
    requires ShapeOk(s, st) && CancelEnabled(s, st, a) && i < |CancelMove(s, st, a).push|
    ensures CancelOk(s, CancelMove(s, st, a).push[i])
  {
    assert CancelOk(s, st[|st| - 1]);
  }

  lemma CancelOkStays(s: State, t: nat, m: Move, f: Frame)
    requires t < |s.stacks| && CancelOk(s, f)
    ensures CancelOk(Apply(s, t, m), f)
  {
  }

  lemma StepShaped(limit: nat, part: Part, s: State, t: nat, a: Action, m: Move)
    requires Shaped(s) && Takes(limit, part, s, t, a, m)
    ensures Shaped(Apply(s, t, m))
  {
    var s' := Apply(s, t, m);
    TakesFits(limit, part, s, t, a, m);
    forall u | 0 <= u < |s'.stacks| ensures ShapeOk(s', s'.stacks[u]) {
      forall i | 0 <= i < |s.stacks[u]| ensures CancelOk(s', s.stacks[u][i]) {
        CancelOkStays(s, t, m, s.stacks[u][i]);
      }
      if u == t {
        forall i | 0 <= i < |m.push| ensures CancelOk(s', m.push[i]) {
          TakesCancelOk(limit, part, s, t, a, m, i);
        }
        PushKeepsShape(s', s.stacks[t], m);
      }
    }
  }

  lemma {:induction false} RunShaped(limit: nat, tr: seq<State>)
    requires IsRun(limit, tr) && Init(tr[0])
    ensures Shaped(tr[|tr| - 1])
    decreases |tr|
  {
    if |tr| > 1 {
      RunInit(limit, tr);
      var pre := tr[..|tr| - 1];
      assert pre[0] == tr[0] && pre[|pre| - 1] == tr[|tr| - 2];
      RunShaped(limit, pre);
      var part, t: nat, a, m :| Takes(limit, part, tr[|tr| - 2], t, a, m) && tr[|tr| - 1] == Apply(tr[|tr| - 2], t, m);
      StepShaped(limit, part, tr[|tr| - 2], t, a, m);
    }
  }

  lemma ReachableShaped(limit: nat, s: State)
    requires Reachable(limit, s)
    ensures Shaped(s)
  {
    var tr :| IsRun(limit, tr) && Init(tr[0]) && tr[|tr| - 1] == s;
    RunShaped(limit, tr);
  }

  // ---------- a cancel touches its target only ----------

  /** A step cancels an operation only as the target of a cancel call of the stepping thread, which then ends. */
  lemma OnlyTargetCancelled(limit: nat, part: Part, s: State, t: nat, a: Action, m: Move)
    requires Takes(limit, part, s, t, a, m) && Shaped(s) && m.cancelled != []
    ensures var st := s.stacks[t];
            && st != [] && Top(st).Cancelling? && m.cancelled == [Top(st).target] && Top(st).target in s.asked
            && Apply(s, t, m).stacks[t] == Below(st) + [Top(st).(phase := Restoring(true))]
            && a.CancelTake? && s.queued[a.i] == Entry(CancelQueue(Top(st).site), Top(st).target)
  {
    var st := s.stacks[t];
    assert ShapeOk(s, st);
    assert CancelOk(s, st[|st| - 1]);
  }
}
