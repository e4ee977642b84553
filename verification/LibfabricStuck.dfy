/** A queued callback of the libfabric backend can still run exactly when not every thread waits for ever in a
    cancel. */
module LibfabricStuck {
  import opened Counting
  import opened Occurrences
  import opened Libfabric
  import opened LibfabricSafety
  import opened LibfabricShape
  import opened LibfabricProgress

  // ---------- stuck states stay stuck ----------

  /** What a step in a stuck state can do, seen from all cancel calls. */
  ghost predicate StuckFacts(s: State, s': State, t: nat)
  {
    && t < |s.stacks| == |s'.stacks| && s'.stacks == s.stacks[t := s'.stacks[t]]
    && s'.ops == s.ops && s'.depth == s.depth && s'.done == s.done && (forall x :: x in s'.fabric ==> x in s.fabric)
    && Blocked(s.stacks[t]) && Blocked(s'.stacks[t])
    && CancelFrame(s'.stacks[t]).site == CancelFrame(s.stacks[t]).site
    && CancelFrame(s'.stacks[t]).target == CancelFrame(s.stacks[t]).target
    && (Top(s'.stacks[t]).Poll? ==>
          forall x :: x in Top(s'.stacks[t]).entries ==>
            || (x in s.fabric && x < |s.ops| && !s.ops[x].send)
            || (Top(s.stacks[t]).Poll? && x in Top(s.stacks[t]).entries))
    && (forall site, x :: Entry(CancelQueue(site), x) in s'.queued ==>
          Entry(CancelQueue(site), x) in s.queued || x in s.fabric || Shelves(s.stacks[t], site, x))
    && (forall site, x :: Shelves(s'.stacks[t], site, x) ==>
          Shelves(s.stacks[t], site, x) || Entry(CancelQueue(site), x) in s.queued)
  }

  lemma FactsKeepBlocked(limit: nat, s: State, s': State, t: nat, u: nat)
    requires Stuck(limit, s) && StuckFacts(s, s', t) && u < |s.stacks|
    ensures Blocked(s'.stacks[u]) && !CanWake(limit, s', u)
  {
    var st := s.stacks[u];
    var site, target := CancelFrame(st).site, CancelFrame(st).target;
    assert Blocked(st) && !CanWake(limit, s, u);
    assert Blocked(s'.stacks[u]) && CancelFrame(s'.stacks[u]).site == site
           && CancelFrame(s'.stacks[u]).target == target;
    assert forall v: nat :: v < |s.stacks| && v != t ==> s'.stacks[v] == s.stacks[v];
  }

  lemma FactsKeepStuck(limit: nat, s: State, s': State, t: nat)
    requires Stuck(limit, s) && StuckFacts(s, s', t)
    ensures Stuck(limit, s')
  {
    forall u: nat | u < |s'.stacks| ensures Blocked(s'.stacks[u]) && !CanWake(limit, s', u) {
      FactsKeepBlocked(limit, s, s', t, u);
    }
  }

  lemma HandleStuck(limit: nat, s: State, t: nat, a: Action)
    requires Stuck(limit, s) && Shaped(s) && t < |s.stacks| && HandleEnabled(limit, s, s.stacks[t], a)
    ensures StuckFacts(s, Apply(s, t, HandleMove(limit, s, s.stacks[t], a)), t)
  {
    var st := s.stacks[t];
    assert Blocked(st) && !CanWake(limit, s, t) && ShapeOk(s, st);
    TopFits(s, st);
    var m := HandleMove(limit, s, st, a);
    if a.EndPoll? {
      StackOnly(s, t, m);
      assert NewStack(st, m) == Below(st);
    } else {
      assert Top(st).entries[0] in Top(st).entries;
      assert a == HandleLater;
      assert NewStack(st, m) == Below(st) + [Poll(Top(st).site, Top(st).entries[1..])];
      assert Below(NewStack(st, m)) == Below(st);
    }
  }

  lemma ReadStuck(limit: nat, s: State, t: nat, a: Action)
    requires Stuck(limit, s) && Shaped(s) && t < |s.stacks| && ReadEnabled(s, s.stacks[t], a)
    ensures StuckFacts(s, Apply(s, t, ReadMove(s, s.stacks[t], a)), t)
  {
    var st := s.stacks[t];
    assert Blocked(st) && ShapeOk(s, st);
    TopFits(s, st);
    var m := ReadMove(s, st, a);
    if a.ReadDone? {
      assert NewStack(st, m) == Below(st) + [Poll(Top(st).site, Top(st).entries + [s.fabric[a.i]])];
      assert Below(NewStack(st, m)) == Below(st);
    } else {
      assert NewStack(st, m) == st;
    }
  }

  lemma CancelStuck(limit: nat, s: State, t: nat, a: Action)
    requires Stuck(limit, s) && Shaped(s) && t < |s.stacks| && CancelEnabled(s, s.stacks[t], a)
    ensures StuckFacts(s, Apply(s, t, CancelMove(s, s.stacks[t], a)), t)
  {
    var st := s.stacks[t];
    var f := Top(st);
    assert Blocked(st) && !CanWake(limit, s, t);
    var m := CancelMove(s, st, a);
    if a.CancelTake? { assert s.queued[a.i] == Entry(CancelQueue(f.site), s.queued[a.i].id); }
    if a.CancelPoll? {
      assert NewStack(st, m) == Below(st) + [f.(phase := Popping), Poll(f.site, [])];
      assert Below(NewStack(st, m)) == Below(st) + [f.(phase := Popping)];
    } else {
      assert NewStack(st, m) == Below(st) + [m.push[0]];
    }
  }

  lemma StuckStep(limit: nat, part: Part, s: State, t: nat, a: Action, m: Move)
    requires Stuck(limit, s) && Shaped(s) && Takes(limit, part, s, t, a, m)
    ensures Stuck(limit, Apply(s, t, m)) && Apply(s, t, m).done == s.done
  {
    assert Blocked(s.stacks[t]);
    match part {
      case Handles => HandleStuck(limit, s, t, a);
      case Reads => ReadStuck(limit, s, t, a);
      case Cancels => CancelStuck(limit, s, t, a);
      case _ => assert false;
    }
    FactsKeepStuck(limit, s, Apply(s, t, m), t);
  }

  lemma {:induction false} StuckRun(limit: nat, tr: seq<State>)
    requires IsRun(limit, tr) && Stuck(limit, tr[0]) && Shaped(tr[0])
    ensures var s := tr[|tr| - 1]; Stuck(limit, s) && Shaped(s) && s.done == tr[0].done
    decreases |tr|
  {
    if |tr| > 1 {
      RunInit(limit, tr);
      var n := |tr| - 2;
      var pre := tr[..n + 1];
      assert pre[0] == tr[0] && pre[|pre| - 1] == tr[n];
      StuckRun(limit, pre);
      var part, t: nat, a, m :| Takes(limit, part, tr[n], t, a, m) && tr[n + 1] == Apply(tr[n], t, m);
      StuckStep(limit, part, tr[n], t, a, m);
      StepShaped(limit, part, tr[n], t, a, m);
    }
  }

  // ---------- the theorem ----------

  /** In every reachable state a callback that waits in a queue, of whichever communicator or of the context, can still
      run to its end exactly when not every thread is blocked in a cancel call that will never end. */
  lemma QueuedCanRunIff(limit: nat, s: State, e: Entry)
    requires Reachable(limit, s) && e in s.queued && CallbackQueue(e.q)
    ensures (exists s' :: Reaches(limit, s, s') && e.id in s'.done) <==> !Stuck(limit, s)
  {
    if Stuck(limit, s) {
      QueuedNotDone(limit, s, e);
      ReachableShaped(limit, s);
      forall s' | Reaches(limit, s, s') ensures e.id !in s'.done {
        var tr :| IsRun(limit, tr) && tr[0] == s && tr[|tr| - 1] == s';
        StuckRun(limit, tr);
      }
    } else {
      Stay(limit, s);
      var s1 := WakeUp(limit, s, s, e);
      var t: nat :| t < |s1.stacks| && !Blocked(s1.stacks[t]);
      var s' := FreeRuns(limit, s, s1, e, t);
    }
  }

  lemma QueuedNotDone(limit: nat, s: State, e: Entry)
    requires Reachable(limit, s) && e in s.queued
    ensures e.id !in s.done
  {
    ReachableInv(limit, s);
    assert Accounted(s, e.id);
    RunsAreOnStack(s.stacks, e.id);
    CountExtremes(s.queued, EntryOf(e.id));
    var j :| 0 <= j < |s.queued| && s.queued[j] == e;
    assert EntryOf(e.id)(s.queued[j]);
    OccMember(s.done, e.id);
  }

  // ---------- operations the fabric has ----------

  /** User code calls `progress` on a communicator. */
  lemma CallOwn(limit: nat, s: State, t: nat, c: nat) returns (s': State)
    requires Reachable(limit, s) && t < |s.stacks| && UserTurn(s.stacks[t]) && c < |s.depth|
    ensures Reaches(limit, s, s') && Reachable(limit, s')
    ensures s' == s.(stacks := s.stacks[t := s.stacks[t] + [Clear(c, 0), Poll(On(c), [])]])
  {
    Stay(limit, s);
    var m := CallMove(s, CallProgress(c));
    GoOn(limit, s, s, Calls, t, CallProgress(c), m);
    Extend(limit, s, Calls, t, CallProgress(c), m);
    StackOnly(s, t, m);
    s' := Apply(s, t, m);
  }

  /** The completion is read. */
  lemma ReadOwn(limit: nat, s0: State, s: State, t: nat, i: nat, st: seq<Frame>, site: Site) returns (s': State)
    requires Reaches(limit, s0, s) && Reachable(limit, s) && t < |s.stacks| && i < |s.fabric|
    requires s.stacks[t] == st + [Poll(site, [])] && st != [] && !Top(st).Cancelling?
    ensures Reaches(limit, s0, s') && Reachable(limit, s') && t < |s'.stacks|
    ensures s'.stacks[t] == st + [Poll(site, [s.fabric[i]])]
  {
    assert Below(s.stacks[t]) == st && [] + [s.fabric[i]] == [s.fabric[i]];
    var m := ReadMove(s, s.stacks[t], ReadDone(i));
    GoOn(limit, s0, s, Reads, t, ReadDone(i), m);
    Extend(limit, s, Reads, t, ReadDone(i), m);
    s' := Apply(s, t, m);
  }

  /** The completion is handled. */
  lemma HandleOwn(limit: nat, s0: State, s: State, t: nat, id: Id, st: seq<Frame>, site: Site) returns (s': State)
    requires Reaches(limit, s0, s) && Reachable(limit, s) && t < |s.stacks| && st != [] && !Top(st).Cancelling?
    requires s.stacks[t] == st + [Poll(site, [id])]
    ensures Reaches(limit, s0, s') && id in s'.done
  {
    GoodStack(limit, s, t);
    var a, m := HandleFirst(limit, s, s.stacks[t]);
    GoOn(limit, s0, s, Handles, t, a, m);
    Extend(limit, s, Handles, t, a, m);
    var s1 := Apply(s, t, m);
    assert Below(s.stacks[t]) == st;
    if a == HandleHere {
      s' := EndIt(limit, s0, s1, id, t);
    } else {
      var e := m.addQueued[0];
      assert e in s1.queued;
      assert s1.stacks[t] == st + [m.push[0]];
      assert Below(s1.stacks[t]) == st;
      s' := FreeRuns(limit, s0, s1, e, t);
    }
  }

  /** From user code, every operation that the fabric still has can complete. */
  lemma FabricCanComplete(limit: nat, s: State, t: nat, id: Id) returns (s': State)
    requires Reachable(limit, s) && t < |s.stacks| && UserTurn(s.stacks[t]) && id in s.fabric
    ensures Reaches(limit, s, s') && id in s'.done
  {
    var i, c := OwnerOfFabric(limit, s, id);
    var st := s.stacks[t] + [Clear(c, 0)];
    var s1 := CallOwn(limit, s, t, c);
    assert s1.stacks[t] == st + [Poll(On(c), [])];
    var s2 := ReadOwn(limit, s, s1, t, i, st, On(c));
    s' := HandleOwn(limit, s, s2, t, id, st, On(c));
  }

  lemma OwnerOfFabric(limit: nat, s: State, id: Id) returns (i: nat, c: nat)
    requires Reachable(limit, s) && id in s.fabric
    ensures i < |s.fabric| && s.fabric[i] == id && c < |s.depth|
  {
    ReachableInv(limit, s);
    i :| i < |s.fabric| && s.fabric[i] == id;
    c := s.ops[id].comm;
  }

  // ---------- a stuck state ----------

  /** One thread on one communicator, with at most one receive and nothing done. */
  ghost function Small(ops: seq<Op>, fabric: seq<Id>, asked: set<Id>, queued: seq<Entry>, st: seq<Frame>): State
  {
    State(ops, fabric, asked, queued, [0], [st], [], [], [])
  }

  lemma SmallStep(limit: nat, s: State, part: Part, a: Action, m: Move, s': State)
    requires Reachable(limit, s) && Takes(limit, part, s, 0, a, m)
    requires s == Small(s.ops, s.fabric, s.asked, s.queued, s.stacks[0])
    requires m.ran == [] && m.done == [] && m.cancelled == [] && m.enter == None && m.leave == None
    requires s' == Small(s.ops + m.newOp, Taken(s.fabric, m.takeFabric) + m.addFabric, s.asked + m.ask,
                         Taken(s.queued, m.takeQueued) + m.addQueued, NewStack(s.stacks[0], m))
    ensures Reachable(limit, s')
  {
    Extend(limit, s, part, 0, a, m);
    assert s.stacks[0 := NewStack(s.stacks[0], m)] == [NewStack(s.stacks[0], m)];
    assert Apply(s, 0, m) == s';
  }

  ghost const Receive: Op := Op(0, false, false)

  lemma StartSmall(limit: nat) returns (s: State)
    ensures Reachable(limit, s) && s == Small([], [], {}, [], [])
  {
    s := Small([], [], {}, [], []);
    assert IsRun(limit, [s]) && Init([s][0]) && [s][|[s]| - 1] == s;
  }

  lemma PostOne(limit: nat) returns (s: State)
    ensures Reachable(limit, s) && s == Small([Receive], [], {}, [], [Posting(0, 0, false)])
  {
    var s0 := StartSmall(limit);
    s := Small([Receive], [], {}, [], [Posting(0, 0, false)]);
    var a := CallPost(Receive, false);
    var m := CallMove(s0, a);
    assert [] + [Receive] == [Receive] && NewStack([], m) == [Posting(0, 0, false)];
    SmallStep(limit, s0, Calls, a, m, s);
  }

  lemma AcceptOne(limit: nat) returns (s: State)
    ensures Reachable(limit, s) && s == Small([Receive], [0], {}, [], [])
  {
    var s0 := PostOne(limit);
    s := Small([Receive], [0], {}, [], []);
    assert NewStack(s0.stacks[0], PostMove(s0, s0.stacks[0], Accept)) == [];
    SmallStep(limit, s0, Posts, Accept, PostMove(s0, s0.stacks[0], Accept), s);
  }

  lemma PollContext(limit: nat) returns (s: State)
    ensures Reachable(limit, s) && s == Small([Receive], [0], {}, [], [Poll(OnContext, [])])
  {
    var s0 := AcceptOne(limit);
    s := Small([Receive], [0], {}, [], [Poll(OnContext, [])]);
    var m := CallMove(s0, CallContextProgress);
    assert NewStack([], m) == [Poll(OnContext, [])] && [Receive] + [] == [Receive];
    SmallStep(limit, s0, Calls, CallContextProgress, m, s);
  }

  lemma ReadByContext(limit: nat) returns (s: State)
    ensures Reachable(limit, s) && s == Small([Receive], [], {}, [], [Poll(OnContext, [0])])
  {
    var s0 := PollContext(limit);
    s := Small([Receive], [], {}, [], [Poll(OnContext, [0])]);
    var m := ReadMove(s0, s0.stacks[0], ReadDone(0));
    var st := s0.stacks[0];
    assert Below(st) == [] && [] + [0] == [0] && m.push == [Poll(OnContext, [0])];
    assert NewStack(st, m) == [Poll(OnContext, [0])];
    assert Taken([0], Some(0)) == [] && s0.fabric == [0];
    SmallStep(limit, s0, Reads, ReadDone(0), m, s);
  }

  lemma QueuedByContext(limit: nat) returns (s: State)
    ensures Reachable(limit, s) && s == Small([Receive], [], {}, [Entry(RecvQ(0), 0)], [Poll(OnContext, [])])
  {
    var s0 := ReadByContext(limit);
    s := Small([Receive], [], {}, [Entry(RecvQ(0), 0)], [Poll(OnContext, [])]);
    var m := HandleMove(limit, s0, s0.stacks[0], HandleLater);
    assert [0][1..] == [] && m.push == [Poll(OnContext, [])];
    assert NewStack(s0.stacks[0], m) == [Poll(OnContext, [])];
    SmallStep(limit, s0, Handles, HandleLater, m, s);
  }

  lemma BackToUser(limit: nat) returns (s: State)
    ensures Reachable(limit, s) && s == Small([Receive], [], {}, [Entry(RecvQ(0), 0)], [])
  {
    var s0 := QueuedByContext(limit);
    s := Small([Receive], [], {}, [Entry(RecvQ(0), 0)], []);
    var m := HandleMove(limit, s0, s0.stacks[0], EndPoll);
    assert NewStack(s0.stacks[0], m) == [];
    SmallStep(limit, s0, Handles, EndPoll, m, s);
  }

  /** A receive whose completion has been queued is not ready yet; cancelling it waits for ever, and its callback never
      runs. */
  lemma CancelOfQueuedHangs(limit: nat) returns (s: State)
    ensures Reachable(limit, s) && s.queued == [Entry(RecvQ(0), 0)] && Stuck(limit, s)
    ensures forall s' | Reaches(limit, s, s') :: 0 !in s'.done
  {
    var s0 := BackToUser(limit);
    s := Small([Receive], [], {0}, [Entry(RecvQ(0), 0)], [Cancelling(On(0), 0, [], Polling)]);
    var m := CallMove(s0, CallCancel(0));
    assert NewStack([], m) == [Cancelling(On(0), 0, [], Polling)] && [Receive] + [] == [Receive];
    assert {} + {0} == {0};
    SmallStep(limit, s0, Calls, CallCancel(0), m, s);
    HangStuck(limit, s);
    NeverRuns(limit, s);
  }

  lemma NeverRuns(limit: nat, s: State)
    requires Reachable(limit, s) && Stuck(limit, s) && s.queued == [Entry(RecvQ(0), 0)]
    ensures forall s' | Reaches(limit, s, s') :: 0 !in s'.done
  {
    assert s.queued[0] == Entry(RecvQ(0), 0);
    QueuedCanRunIff(limit, s, Entry(RecvQ(0), 0));
  }

  lemma HangStuck(limit: nat, s: State)
    requires s == Small([Receive], [], {0}, [Entry(RecvQ(0), 0)], [Cancelling(On(0), 0, [], Polling)])
    ensures Stuck(limit, s)
  {
    assert Top(s.stacks[0]) == Cancelling(On(0), 0, [], Polling);
  }
}
