/** Dispatch conserves operations, and a callback runs only inside calls on its own communicator. */
module LibfabricSafety {
  import opened Counting
  import opened Occurrences
  import opened Libfabric

  // ---------- where an operation is ----------

  ghost function FrameOcc(f: Frame, id: Id): int
  {
    match f
    case Posting(x, _, _) => if x == id then 1 else 0
    case Poll(_, entries) => Occ(entries, id)
    case Cancelling(_, _, temp, _) => Occ(temp, id)
    case Callback(x, _) => if x == id then 1 else 0
    case _ => 0
  }

  ghost function StackOcc(st: seq<Frame>, id: Id): int
  {
    if st == [] then 0 else StackOcc(Below(st), id) + FrameOcc(Top(st), id)
  }

  ghost function OnStack(id: Id): seq<Frame> -> int { (st: seq<Frame>) => StackOcc(st, id) }

  ghost function RunsId(id: Id): Frame -> bool { (f: Frame) => f.Callback? && f.id == id }
  ghost function RunsOn(id: Id): seq<Frame> -> int { (st: seq<Frame>) => Count(st, RunsId(id)) }

  ghost function EntryOf(id: Id): Entry -> bool { (e: Entry) => e.id == id }

  /** Off the stacks: with the fabric, in a queue, done or cancelled. */
  ghost function Flat(s: State, id: Id): int
  {
    Occ(s.fabric, id) + Count(s.queued, EntryOf(id)) + Occ(s.done, id) + Occ(s.cancelled, id)
  }

  ghost predicate Accounted(s: State, id: Id)
  {
    && Flat(s, id) + Sum(s.stacks, OnStack(id)) == (if id < |s.ops| then 1 else 0)
    && Occ(s.ran, id) == Sum(s.stacks, RunsOn(id)) + Occ(s.done, id)
  }

  // ---------- what a move must balance ----------

  ghost function Bit(b: bool): int { if b then 1 else 0 }

  ghost function DroppedOcc(st: seq<Frame>, m: Move, id: Id): int
  {
    if m.drop && st != [] then FrameOcc(Top(st), id) else 0
  }

  ghost function DroppedRuns(st: seq<Frame>, m: Move, id: Id): int
  {
    if m.drop && st != [] then Bit(RunsId(id)(Top(st))) else 0
  }

  ghost function TakenOcc(q: seq<Id>, o: Opt, id: Id): int { if o.Some? && o.i < |q| then Bit(q[o.i] == id) else 0 }

  ghost function TakenEntry(q: seq<Entry>, o: Opt, id: Id): int
  {
    if o.Some? && o.i < |q| then Bit(q[o.i].id == id) else 0
  }

  /** What the move puts somewhere is what it took from somewhere, plus the new operation. */
  ghost predicate MoveBalanced(s: State, st: seq<Frame>, m: Move, id: Id)
  {
    && StackOcc(m.push, id) + Occ(m.addFabric, id) + Count(m.addQueued, EntryOf(id))
       + Occ(m.done, id) + Occ(m.cancelled, id)
       == DroppedOcc(st, m, id) + TakenOcc(s.fabric, m.takeFabric, id) + TakenEntry(s.queued, m.takeQueued, id)
          + Bit(|s.ops| <= id < |s.ops| + |m.newOp|)
    && Occ(m.ran, id) == Count(m.push, RunsId(id)) - DroppedRuns(st, m, id) + Occ(m.done, id)
  }

  lemma {:induction false} StackConcat(a: seq<Frame>, b: seq<Frame>, id: Id)
    ensures StackOcc(a + b, id) == StackOcc(a, id) + StackOcc(b, id)
  {
    if b == [] {
      assert a + b == a;
    } else {
      assert Below(a + b) == a + Below(b) && Top(a + b) == Top(b);
      StackConcat(a, Below(b), id);
    }
  }

  lemma NewStackOcc(st: seq<Frame>, m: Move, id: Id)
    ensures StackOcc(NewStack(st, m), id) == StackOcc(st, id) - DroppedOcc(st, m, id) + StackOcc(m.push, id)
    ensures Count(NewStack(st, m), RunsId(id))
            == Count(st, RunsId(id)) - DroppedRuns(st, m, id) + Count(m.push, RunsId(id))
  {
    var base := if m.drop && st != [] then Below(st) else st;
    StackConcat(base, m.push, id);
    CountConcat(base, m.push, RunsId(id));
  }

  lemma FlatMove(s: State, t: nat, m: Move, id: Id)
    requires t < |s.stacks|
    ensures Flat(Apply(s, t, m), id)
            == Flat(s, id) - TakenOcc(s.fabric, m.takeFabric, id) - TakenEntry(s.queued, m.takeQueued, id)
               + Occ(m.addFabric, id) + Count(m.addQueued, EntryOf(id)) + Occ(m.done, id) + Occ(m.cancelled, id)
  {
    if m.takeFabric.Some? && m.takeFabric.i < |s.fabric| { OccWithout(s.fabric, m.takeFabric.i, id); }
    if m.takeQueued.Some? && m.takeQueued.i < |s.queued| { CountRemove(s.queued, m.takeQueued.i, EntryOf(id)); }
    OccConcat(Taken(s.fabric, m.takeFabric), m.addFabric, id);
    CountConcat(Taken(s.queued, m.takeQueued), m.addQueued, EntryOf(id));
    OccConcat(s.done, m.done, id);
    OccConcat(s.cancelled, m.cancelled, id);
  }

  lemma MoveAccounts(s: State, t: nat, m: Move, id: Id)
    requires t < |s.stacks| && Accounted(s, id) && MoveBalanced(s, s.stacks[t], m, id)
    ensures Accounted(Apply(s, t, m), id)
  {
    var st' := NewStack(s.stacks[t], m);
    FlatMove(s, t, m, id);
    NewStackOcc(s.stacks[t], m, id);
    SumUpdate(s.stacks, t, st', OnStack(id));
    SumUpdate(s.stacks, t, st', RunsOn(id));
    OccConcat(s.ran, m.ran, id);
    OccConcat(s.done, m.done, id);
  }

  // ---------- every step balances ----------

  /** Occurrences in sequences of at most two elements. */
  lemma Singletons(id: Id)
    ensures Occ([], id) == 0 && Count<Entry>([], EntryOf(id)) == 0
    ensures StackOcc([], id) == 0 && Count<Frame>([], RunsId(id)) == 0
    ensures forall x :: Occ([x], id) == Bit(x == id)
    ensures forall e: Entry :: Count([e], EntryOf(id)) == Bit(e.id == id)
  {
    forall x ensures Occ([x], id) == Bit(x == id) { OccAppend([], x, id); assert [] + [x] == [x]; }
    forall e: Entry ensures Count([e], EntryOf(id)) == Bit(e.id == id) {
      CountPush([], e, EntryOf(id));
      assert [] + [e] == [e];
    }
  }

  lemma PushOne(f: Frame, id: Id)
    ensures StackOcc([f], id) == FrameOcc(f, id) && Count([f], RunsId(id)) == Bit(RunsId(id)(f))
  {
    Singletons(id);
    assert Below([f]) == [];
    CountPush([], f, RunsId(id));
    assert [] + [f] == [f];
  }

  lemma PushTwo(f: Frame, g: Frame, id: Id)
    ensures StackOcc([f, g], id) == FrameOcc(f, id) + FrameOcc(g, id)
    ensures Count([f, g], RunsId(id)) == Bit(RunsId(id)(f)) + Bit(RunsId(id)(g))
  {
    PushOne(f, id);
    assert Below([f, g]) == [f];
    CountPush([f], g, RunsId(id));
    assert [f] + [g] == [f, g];
  }

  lemma PushLemma(m: Move, id: Id)
    requires |m.push| <= 2
    ensures |m.push| == 0 ==> StackOcc(m.push, id) == 0 && Count(m.push, RunsId(id)) == 0
    ensures |m.push| == 1 ==>
              StackOcc(m.push, id) == FrameOcc(m.push[0], id) && Count(m.push, RunsId(id)) == Bit(RunsId(id)(m.push[0]))
    ensures |m.push| == 2 ==>
              StackOcc(m.push, id) == FrameOcc(m.push[0], id) + FrameOcc(m.push[1], id)
              && Count(m.push, RunsId(id)) == Bit(RunsId(id)(m.push[0])) + Bit(RunsId(id)(m.push[1]))
  {
    Singletons(id);
    if |m.push| == 1 { PushOne(m.push[0], id); assert m.push == [m.push[0]]; }
    if |m.push| == 2 { PushTwo(m.push[0], m.push[1], id); assert m.push == [m.push[0], m.push[1]]; }
  }

  lemma CallBalanced(s: State, st: seq<Frame>, a: Action, id: Id)
    requires CallEnabled(s, st, a)
    ensures MoveBalanced(s, st, CallMove(s, a), id)
  {
    Singletons(id);
    PushLemma(CallMove(s, a), id);
  }

  lemma PostBalanced(limit: nat, s: State, st: seq<Frame>, a: Action, id: Id)
    requires PostEnabled(limit, s, st, a)
    ensures MoveBalanced(s, st, PostMove(s, st, a), id)
  {
    Singletons(id);
    PushLemma(PostMove(s, st, a), id);
  }

  lemma ReadBalanced(s: State, st: seq<Frame>, a: Action, id: Id)
    requires ReadEnabled(s, st, a)
    ensures MoveBalanced(s, st, ReadMove(s, st, a), id)
  {
    Singletons(id);
    PushLemma(ReadMove(s, st, a), id);
    OccAppend(Top(st).entries, s.fabric[a.i], id);
  }

  lemma HandleBalanced(limit: nat, s: State, st: seq<Frame>, a: Action, id: Id)
    requires HandleEnabled(limit, s, st, a)
    ensures MoveBalanced(s, st, HandleMove(limit, s, st, a), id)
  {
    Singletons(id);
    PushLemma(HandleMove(limit, s, st, a), id);
    if !a.EndPoll? { OccSplit(Top(st).entries, 0, id); assert Top(st).entries[..0] == []; }
  }

  lemma ClearBalanced(s: State, st: seq<Frame>, a: Action, id: Id)
    requires ClearEnabled(s, st, a)
    ensures MoveBalanced(s, st, ClearMove(s, st, a), id)
  {
    Singletons(id);
    PushLemma(ClearMove(s, st, a), id);
  }

  lemma CancelBalanced(s: State, st: seq<Frame>, a: Action, id: Id)
    requires CancelEnabled(s, st, a)
    ensures MoveBalanced(s, st, CancelMove(s, st, a), id)
  {
    if a.CancelTake? {
      CancelTakeBalanced(s, st, a, id);
    } else if a.CancelRestore? {
      CancelRestoreBalanced(s, st, a, id);
    } else {
      Singletons(id);
      PushLemma(CancelMove(s, st, a), id);
    }
  }

  lemma CancelTakeBalanced(s: State, st: seq<Frame>, a: Action, id: Id)
    requires CancelEnabled(s, st, a) && a.CancelTake?
    ensures MoveBalanced(s, st, CancelMove(s, st, a), id)
  {
    Singletons(id);
    PushLemma(CancelMove(s, st, a), id);
    OccAppend(Top(st).temp, s.queued[a.i].id, id);
  }

  lemma CancelRestoreBalanced(s: State, st: seq<Frame>, a: Action, id: Id)
    requires CancelEnabled(s, st, a) && a.CancelRestore?
    ensures MoveBalanced(s, st, CancelMove(s, st, a), id)
  {
    Singletons(id);
    PushLemma(CancelMove(s, st, a), id);
    var temp := Top(st).temp;
    var n := |temp| - 1;
    OccAppend(temp[..n], temp[n], id);
    assert temp == temp[..n] + [temp[n]];
  }

  lemma ReturnBalanced(s: State, st: seq<Frame>, a: Action, id: Id)
    requires ReturnEnabled(st, a)
    ensures MoveBalanced(s, st, ReturnMove(st, a), id)
  {
    Singletons(id);
    PushLemma(ReturnMove(st, a), id);
  }

  lemma TakesBalanced(limit: nat, part: Part, s: State, t: nat, a: Action, m: Move, id: Id)
    requires Takes(limit, part, s, t, a, m)
    ensures MoveBalanced(s, s.stacks[t], m, id)
  {
    var st := s.stacks[t];
    match part
    case Calls => CallBalanced(s, st, a, id);
    case Posts => PostBalanced(limit, s, st, a, id);
    case Reads => ReadBalanced(s, st, a, id);
    case Handles => HandleBalanced(limit, s, st, a, id);
    case Clears => ClearBalanced(s, st, a, id);
    case Cancels => CancelBalanced(s, st, a, id);
    case Returns => ReturnBalanced(s, st, a, id);
  }

  // ---------- every operation stays with its owner ----------

  /** The call the frame belongs to is a call on this communicator, or on the context. */
  ghost predicate CallOn(f: Frame, c: nat)
  {
    match f
    case Posting(_, d, _) => d == c
    case Sending(d) => d == c
    case Poll(site, _) => site == On(c)
    case Clear(d, _) => d == c
    case Cancelling(site, _, _, _) => site == On(c)
    case Callback(_, _) => false
  }

  ghost predicate EntryOk(ops: seq<Op>, e: Entry)
  {
    && e.id < |ops|
    && match e.q
       case SendQ(c) => !ops[e.id].shared && ops[e.id].comm == c && ops[e.id].send
       case RecvQ(c) => !ops[e.id].shared && ops[e.id].comm == c && !ops[e.id].send
       case CancelQ(c) => !ops[e.id].shared && ops[e.id].comm == c && !ops[e.id].send
       case CtxQ => ops[e.id].shared
       case CtxCancelQ => ops[e.id].shared
  }

  ghost predicate FrameOk(ops: seq<Op>, comms: nat, f: Frame)
  {
    match f
    case Posting(id, c, inject) =>
      id < |ops| && ops[id].comm == c < comms && (inject ==> ops[id].send && !ops[id].shared)
    case Poll(_, entries) => forall x :: x in entries ==> x < |ops|
    case Cancelling(site, _, temp, _) => forall x :: x in temp ==> EntryOk(ops, Entry(CancelQueue(site), x))
    case Callback(id, how) => id < |ops| && (how.InlineOn? ==> how.c < comms)
    case _ => true
  }

  /** A callback of a non-shared operation sits directly above a call on its own communicator. */
  ghost predicate CallbackOk(ops: seq<Op>, below: Frame, f: Frame)
  {
    f.Callback? && f.id < |ops| ==> ops[f.id].shared || CallOn(below, ops[f.id].comm)
  }

  ghost predicate StackOk(ops: seq<Op>, comms: nat, st: seq<Frame>)
  {
    && (forall i :: 0 <= i < |st| ==> FrameOk(ops, comms, st[i]))
    && (forall i :: 0 < i < |st| ==> CallbackOk(ops, st[i - 1], st[i]))
    && (st != [] ==> !st[0].Callback?)
  }

  ghost predicate Owned(s: State)
  {
    && (forall i :: 0 <= i < |s.fabric| ==> s.fabric[i] < |s.ops|)
    && (forall i :: 0 <= i < |s.queued| ==> EntryOk(s.ops, s.queued[i]))
    && (forall t :: 0 <= t < |s.stacks| ==> StackOk(s.ops, |s.depth|, s.stacks[t]))
    && (forall i :: 0 <= i < |s.ops| ==> s.ops[i].comm < |s.depth|)
  }

  /** What a move must respect. */
  ghost predicate MoveOwned(s: State, st: seq<Frame>, m: Move)
  {
    var ops := s.ops + m.newOp;
    && |m.push| <= 2
    && (forall i :: 0 <= i < |m.addFabric| ==> m.addFabric[i] < |ops|)
    && (forall i :: 0 <= i < |m.addQueued| ==> EntryOk(ops, m.addQueued[i]))
    && (forall i :: 0 <= i < |m.newOp| ==> m.newOp[i].comm < |s.depth|)
    && (forall i :: 0 <= i < |m.push| ==> FrameOk(ops, |s.depth|, m.push[i]))
    && (|m.push| == 2 ==> CallbackOk(ops, m.push[0], m.push[1]))
    && (|m.push| > 0 && m.push[0].Callback? ==> st != [] && !m.drop && CallbackOk(ops, Top(st), m.push[0]))
    && (m.drop && |m.push| > 0 ==> !m.push[0].Callback?)
  }

  /** Appending operations keeps what was said about the old ones. */
  lemma GrowStack(ops: seq<Op>, more: seq<Op>, comms: nat, st: seq<Frame>)
    requires StackOk(ops, comms, st)
    ensures StackOk(ops + more, comms, st)
  {
    forall i | 0 <= i < |st| ensures FrameOk(ops + more, comms, st[i]) {
      assert FrameOk(ops, comms, st[i]);
      if st[i].Cancelling? {
        forall x | x in st[i].temp ensures EntryOk(ops + more, Entry(CancelQueue(st[i].site), x)) {
          assert EntryOk(ops, Entry(CancelQueue(st[i].site), x));
        }
      }
    }
    forall i | 0 < i < |st| ensures CallbackOk(ops + more, st[i - 1], st[i]) {
      assert FrameOk(ops, comms, st[i]) && CallbackOk(ops, st[i - 1], st[i]);
    }
  }

  lemma NewStackOk(ops: seq<Op>, comms: nat, st: seq<Frame>, m: Move)
    requires StackOk(ops, comms, st) && |m.push| <= 2
    requires forall i :: 0 <= i < |m.push| ==> FrameOk(ops, comms, m.push[i])
    requires |m.push| == 2 ==> CallbackOk(ops, m.push[0], m.push[1])
    requires |m.push| > 0 && m.push[0].Callback? ==> st != [] && !m.drop && CallbackOk(ops, Top(st), m.push[0])
    ensures StackOk(ops, comms, NewStack(st, m))
  {
    var base := if m.drop && st != [] then Below(st) else st;
    var st' := base + m.push;
    forall i | 0 < i < |st'| ensures CallbackOk(ops, st'[i - 1], st'[i]) {
      if i < |base| { assert CallbackOk(ops, st[i - 1], st[i]); }
    }
  }

  lemma MoveKeepsOwned(s: State, t: nat, m: Move)
    requires Owned(s) && t < |s.stacks| && MoveOwned(s, s.stacks[t], m)
    ensures Owned(Apply(s, t, m))
  {
    var s' := Apply(s, t, m);
    forall u | 0 <= u < |s'.stacks| ensures StackOk(s'.ops, |s'.depth|, s'.stacks[u]) {
      GrowStack(s.ops, m.newOp, |s.depth|, s.stacks[u]);
      if u == t { NewStackOk(s'.ops, |s.depth|, s.stacks[t], m); }
    }
    forall i | 0 <= i < |s'.queued| ensures EntryOk(s'.ops, s'.queued[i]) {
      TakenMember(s.queued, m.takeQueued, m.addQueued, i);
      if s'.queued[i] in s.queued {
        var j :| 0 <= j < |s.queued| && s.queued[j] == s'.queued[i];
        assert EntryOk(s.ops, s.queued[j]);
      } else {
        var j :| 0 <= j < |m.addQueued| && m.addQueued[j] == s'.queued[i];
      }
    }
    forall i | 0 <= i < |s'.fabric| ensures s'.fabric[i] < |s'.ops| {
      TakenMember(s.fabric, m.takeFabric, m.addFabric, i);
    }
  }

  lemma TakenMember<T>(q: seq<T>, o: Opt, add: seq<T>, i: nat)
    requires i < |Taken(q, o) + add|
    ensures (Taken(q, o) + add)[i] in q || (Taken(q, o) + add)[i] in add
  {
  }

  lemma CallOwned(s: State, st: seq<Frame>, a: Action)
    requires Owned(s) && CallEnabled(s, st, a)
    ensures MoveOwned(s, st, CallMove(s, a))
  {
  }

  lemma PostOwned(limit: nat, s: State, st: seq<Frame>, a: Action)
    requires Owned(s) && StackOk(s.ops, |s.depth|, st) && PostEnabled(limit, s, st, a)
    ensures MoveOwned(s, st, PostMove(s, st, a))
  {
    assert FrameOk(s.ops, |s.depth|, Top(st));
    assert s.ops + [] == s.ops;
  }

  lemma ReadOwned(s: State, st: seq<Frame>, a: Action)
    requires Owned(s) && StackOk(s.ops, |s.depth|, st) && ReadEnabled(s, st, a)
    ensures MoveOwned(s, st, ReadMove(s, st, a))
  {
    assert FrameOk(s.ops, |s.depth|, Top(st));
    assert s.ops + [] == s.ops;
  }

  lemma HandleOwned(limit: nat, s: State, st: seq<Frame>, a: Action)
    requires Owned(s) && StackOk(s.ops, |s.depth|, st) && HandleEnabled(limit, s, st, a)
    ensures MoveOwned(s, st, HandleMove(limit, s, st, a))
  {
    if !a.EndPoll? {
      assert forall x :: x in Top(st).entries[1..] ==> x in Top(st).entries;
    }
    assert FrameOk(s.ops, |s.depth|, Top(st));
    assert s.ops + [] == s.ops;
  }

  lemma ClearOwned(s: State, st: seq<Frame>, a: Action)
    requires Owned(s) && StackOk(s.ops, |s.depth|, st) && ClearEnabled(s, st, a)
    ensures MoveOwned(s, st, ClearMove(s, st, a))
  {
    assert s.ops + [] == s.ops;
    if a.ClearOne? { assert EntryOk(s.ops, s.queued[a.i]); }
  }

  lemma CancelOwned(s: State, st: seq<Frame>, a: Action)
    requires Owned(s) && StackOk(s.ops, |s.depth|, st) && CancelEnabled(s, st, a)
    ensures MoveOwned(s, st, CancelMove(s, st, a))
  {
    assert FrameOk(s.ops, |s.depth|, Top(st));
    assert s.ops + [] == s.ops;
    if a.CancelTake? { assert EntryOk(s.ops, s.queued[a.i]); }
  }

  lemma TakesOwned(limit: nat, part: Part, s: State, t: nat, a: Action, m: Move)
    requires Owned(s) && Takes(limit, part, s, t, a, m)
    ensures MoveOwned(s, s.stacks[t], m)
  {
    var st := s.stacks[t];
    assert StackOk(s.ops, |s.depth|, st);
    match part
    case Calls => CallOwned(s, st, a);
    case Posts => PostOwned(limit, s, st, a);
    case Reads => ReadOwned(s, st, a);
    case Handles => HandleOwned(limit, s, st, a);
    case Clears => ClearOwned(s, st, a);
    case Cancels => CancelOwned(s, st, a);
    case Returns =>
  }

  // ---------- the recursion depth of a communicator ----------

  ghost function IsInlineOn(c: nat): Frame -> bool { (f: Frame) => f.Callback? && f.how == InlineOn(c) }
  ghost function InlineOf(c: nat): seq<Frame> -> int { (st: seq<Frame>) => Count(st, IsInlineOn(c)) }

  ghost predicate DepthOk(limit: nat, s: State, c: nat)
  {
    c < |s.depth| && s.depth[c] == Sum(s.stacks, InlineOf(c)) && s.depth[c] <= limit + 1
  }

  ghost predicate MoveDepth(limit: nat, s: State, st: seq<Frame>, m: Move, c: nat)
  {
    && c < |s.depth|
    && (if m.enter == Some(c) then 1 else 0) - (if m.leave == Some(c) then 1 else 0)
       == Count(m.push, IsInlineOn(c)) - (if m.drop && st != [] then Bit(IsInlineOn(c)(Top(st))) else 0)
    && (m.enter == Some(c) ==> s.depth[c] <= limit)
  }

  lemma MoveKeepsDepth(limit: nat, s: State, t: nat, m: Move, c: nat)
    requires t < |s.stacks| && DepthOk(limit, s, c) && MoveDepth(limit, s, s.stacks[t], m, c)
    ensures DepthOk(limit, Apply(s, t, m), c)
  {
    var st := s.stacks[t];
    var base := if m.drop && st != [] then Below(st) else st;
    CountConcat(base, m.push, IsInlineOn(c));
    SumUpdate(s.stacks, t, NewStack(st, m), InlineOf(c));
  }

  lemma PushInline(push: seq<Frame>, c: nat)
    requires |push| <= 2
    ensures |push| == 0 ==> Count(push, IsInlineOn(c)) == 0
    ensures |push| == 1 ==> Count(push, IsInlineOn(c)) == Bit(IsInlineOn(c)(push[0]))
    ensures |push| == 2 ==> Count(push, IsInlineOn(c)) == Bit(IsInlineOn(c)(push[0])) + Bit(IsInlineOn(c)(push[1]))
  {
    if |push| == 1 {
      assert push == [] + [push[0]];
      CountPush([], push[0], IsInlineOn(c));
    }
    if |push| == 2 {
      assert push == [] + [push[0]] + [push[1]];
      CountPush([], push[0], IsInlineOn(c));
      CountPush([] + [push[0]], push[1], IsInlineOn(c));
    }
  }

  lemma CallsDepth(limit: nat, part: Part, s: State, t: nat, a: Action, m: Move, c: nat)
    requires Takes(limit, part, s, t, a, m) && c < |s.depth| && (part == Calls || part == Reads || part == Clears)
    ensures MoveDepth(limit, s, s.stacks[t], m, c)
  {
    PushInline(m.push, c);
  }

  lemma CancelsDepth(limit: nat, part: Part, s: State, t: nat, a: Action, m: Move, c: nat)
    requires Takes(limit, part, s, t, a, m) && c < |s.depth| && (part == Cancels || part == Returns)
    ensures MoveDepth(limit, s, s.stacks[t], m, c)
  {
    PushInline(m.push, c);
  }

  lemma PostsDepth(limit: nat, part: Part, s: State, t: nat, a: Action, m: Move, c: nat)
    requires Takes(limit, part, s, t, a, m) && c < |s.depth| && (part == Posts || part == Handles)
    ensures MoveDepth(limit, s, s.stacks[t], m, c)
  {
    PushInline(m.push, c);
  }

  lemma TakesDepth(limit: nat, part: Part, s: State, t: nat, a: Action, m: Move, c: nat)
    requires Takes(limit, part, s, t, a, m) && c < |s.depth|
    ensures MoveDepth(limit, s, s.stacks[t], m, c)
  {
    match part
    case Posts => PostsDepth(limit, part, s, t, a, m, c);
    case Handles => PostsDepth(limit, part, s, t, a, m, c);
    case Cancels => CancelsDepth(limit, part, s, t, a, m, c);
    case Returns => CancelsDepth(limit, part, s, t, a, m, c);
    case _ => CallsDepth(limit, part, s, t, a, m, c);
  }

  // ---------- all steps, all runs ----------

  ghost predicate Inv(limit: nat, s: State)
  {
    && Owned(s)
    && (forall id :: Accounted(s, id))
    && (forall c :: 0 <= c < |s.depth| ==> DepthOk(limit, s, c))
  }

  lemma StepInv(limit: nat, s: State, s': State)
    requires Inv(limit, s) && Next(limit, s, s')
    ensures Inv(limit, s')
  {
    var part, t: nat, a, m :| Takes(limit, part, s, t, a, m) && s' == Apply(s, t, m);
    TakesOwned(limit, part, s, t, a, m);
    MoveKeepsOwned(s, t, m);
    forall id ensures Accounted(s', id) {
      assert Accounted(s, id);
      StepAccounts(limit, part, s, t, a, m, id);
    }
    forall c | 0 <= c < |s'.depth| ensures DepthOk(limit, s', c) {
      assert DepthOk(limit, s, c);
      StepDepth(limit, part, s, t, a, m, c);
    }
  }

  lemma StepAccounts(limit: nat, part: Part, s: State, t: nat, a: Action, m: Move, id: Id)
    requires Takes(limit, part, s, t, a, m) && Accounted(s, id)
    ensures Accounted(Apply(s, t, m), id)
  {
    TakesBalanced(limit, part, s, t, a, m, id);
    MoveAccounts(s, t, m, id);
  }

  lemma StepDepth(limit: nat, part: Part, s: State, t: nat, a: Action, m: Move, c: nat)
    requires Takes(limit, part, s, t, a, m) && c < |s.depth| && DepthOk(limit, s, c)
    ensures c < |Apply(s, t, m).depth| && DepthOk(limit, Apply(s, t, m), c)
  {
    TakesDepth(limit, part, s, t, a, m, c);
    MoveKeepsDepth(limit, s, t, m, c);
  }

  lemma InitInv(limit: nat, s: State)
    requires Init(s)
    ensures Inv(limit, s)
  {
    forall id ensures Accounted(s, id) {
      SumAtLeastZero(s.stacks, OnStack(id));
      SumAtLeastZero(s.stacks, RunsOn(id));
    }
    forall c | 0 <= c < |s.depth| ensures DepthOk(limit, s, c) {
      SumAtLeastZero(s.stacks, InlineOf(c));
    }
  }

  lemma {:induction false} RunInv(limit: nat, tr: seq<State>)
    requires IsRun(limit, tr) && Init(tr[0])
    ensures Inv(limit, tr[|tr| - 1])
    decreases |tr|
  {
    if |tr| == 1 {
      InitInv(limit, tr[0]);
    } else {
      RunInit(limit, tr);
      var pre := tr[..|tr| - 1];
      assert pre[0] == tr[0] && pre[|pre| - 1] == tr[|tr| - 2];
      RunInv(limit, pre);
      StepInv(limit, tr[|tr| - 2], tr[|tr| - 1]);
    }
  }

  lemma ReachableInv(limit: nat, s: State)
    requires Reachable(limit, s)
    ensures Inv(limit, s)
  {
    var tr :| IsRun(limit, tr) && Init(tr[0]) && tr[|tr| - 1] == s;
    RunInv(limit, tr);
  }

  // ---------- the theorems ----------

  /** Each operation is being posted, with the fabric, read, queued, running, done or cancelled, and in
      only one of these; its callback starts at most once, and never for a cancelled operation. */
  lemma DispatchConserves(limit: nat, s: State, id: Id)
    requires Reachable(limit, s)
    ensures Flat(s, id) + Sum(s.stacks, OnStack(id)) == if id < |s.ops| then 1 else 0
    ensures multiset(s.ran)[id] <= 1
    ensures id in s.cancelled ==> id !in s.ran
    ensures id in s.done ==> id in s.ran
  {
    ReachableInv(limit, s);
    assert Accounted(s, id);
    OccIsMultiplicity(s.ran, id);
    OccMember(s.ran, id);
    OccMember(s.cancelled, id);
    OccMember(s.done, id);
    RunsAreOnStack(s.stacks, id);
  }

  lemma {:induction false} RunsWithinStack(st: seq<Frame>, id: Id)
    ensures 0 <= Count(st, RunsId(id)) <= StackOcc(st, id)
  {
    if st != [] { RunsWithinStack(Below(st), id); }
  }

  lemma {:induction false} RunsAreOnStack(stacks: seq<seq<Frame>>, id: Id)
    ensures 0 <= Sum(stacks, RunsOn(id)) <= Sum(stacks, OnStack(id))
  {
    if stacks != [] {
      RunsWithinStack(stacks[|stacks| - 1], id);
      RunsAreOnStack(stacks[..|stacks| - 1], id);
    }
  }

  /** The callback of a non-shared operation runs only inside a call made on the communicator the operation was
      issued on, whichever thread polled the completion. */
  lemma CallbacksStayHome(limit: nat, s: State, t: nat, i: nat)
    requires Reachable(limit, s) && t < |s.stacks| && i < |s.stacks[t]| && s.stacks[t][i].Callback?
    ensures s.stacks[t][i].id < |s.ops| && i > 0
    ensures var op := s.ops[s.stacks[t][i].id]; op.shared || CallOn(s.stacks[t][i - 1], op.comm)
  {
    ReachableInv(limit, s);
    assert StackOk(s.ops, |s.depth|, s.stacks[t]);
    assert FrameOk(s.ops, |s.depth|, s.stacks[t][i]);
    assert CallbackOk(s.ops, s.stacks[t][i - 1], s.stacks[t][i]);
  }

  /** A communicator's recursion depth is the number of its inline callbacks, at most the limit plus one. */
  lemma CommunicatorDepthBounded(limit: nat, s: State, c: nat)
    requires Reachable(limit, s) && c < |s.depth|
    ensures s.depth[c] == Sum(s.stacks, InlineOf(c)) && 0 <= s.depth[c] <= limit + 1
  {
    ReachableInv(limit, s);
    assert DepthOk(limit, s, c);
    SumAtLeastZero(s.stacks, InlineOf(c));
  }
}
