/** Which queued callbacks of the libfabric backend can still run. */
module LibfabricProgress {
  import opened Libfabric
  import opened LibfabricSafety
  import opened LibfabricShape

  /** Some run leads from `s` to `s'`. */
  ghost predicate Reaches(limit: nat, s: State, s': State)
  {
    exists tr :: IsRun(limit, tr) && tr[0] == s && tr[|tr| - 1] == s'
  }

  lemma Stay(limit: nat, s: State)
    ensures Reaches(limit, s, s)
  {
    assert IsRun(limit, [s]) && [s][0] == s;
  }

  lemma GoOn(limit: nat, s0: State, s: State, part: Part, t: nat, a: Action, m: Move)
    requires Reaches(limit, s0, s) && Takes(limit, part, s, t, a, m)
    ensures Reaches(limit, s0, Apply(s, t, m))
  {
    var tr :| IsRun(limit, tr) && tr[0] == s0 && tr[|tr| - 1] == s;
    var s' := Apply(s, t, m);
    var longer := tr + [s'];
    assert Next(limit, s, s');
    forall i | 0 <= i < |longer| - 1 ensures Next(limit, longer[i], longer[i + 1]) {
      if i < |tr| - 1 { assert Next(limit, tr[i], tr[i + 1]); }
    }
    assert IsRun(limit, longer) && longer[0] == s0 && longer[|longer| - 1] == s';
  }

  lemma Extend(limit: nat, s: State, part: Part, t: nat, a: Action, m: Move)
    requires Reachable(limit, s) && Takes(limit, part, s, t, a, m)
    ensures Reachable(limit, Apply(s, t, m))
  {
    var tr :| IsRun(limit, tr) && Init(tr[0]) && tr[|tr| - 1] == s;
    GoOn(limit, tr[0], s, part, t, a, m);
    var longer :| IsRun(limit, longer) && longer[0] == tr[0] && longer[|longer| - 1] == Apply(s, t, m);
  }

  /** A step that touches nothing but the thread's own stack. */
  lemma StackOnly(s: State, t: nat, m: Move)
    requires t < |s.stacks| && m == Nothing.(drop := m.drop, push := m.push)
    ensures Apply(s, t, m) == s.(stacks := s.stacks[t := NewStack(s.stacks[t], m)])
  {
  }

  predicate CallbackQueue(q: QName) { q.SendQ? || q.RecvQ? || q.CtxQ? }

  /** What the construction carries along: the entry `e` is still queued. */
  ghost predicate Carries(limit: nat, s0: State, s: State, e: Entry)
  {
    Reaches(limit, s0, s) && Reachable(limit, s) && e in s.queued && CallbackQueue(e.q)
  }

  lemma TakenKeeps<T>(q: seq<T>, o: Opt, x: T)
    requires x in q && (o.Some? && o.i < |q| ==> q[o.i] != x)
    ensures x in Taken(q, o)
  {
    if o.Some? && o.i < |q| {
      var j :| 0 <= j < |q| && q[j] == x;
      if j < o.i { assert q[..o.i][j] == x; } else { assert q[o.i + 1..][j - o.i - 1] == x; }
    }
  }

  lemma CarryStep(limit: nat, s0: State, s: State, e: Entry, part: Part, t: nat, a: Action, m: Move)
    requires Carries(limit, s0, s, e) && Takes(limit, part, s, t, a, m)
    requires m.takeQueued.Some? && m.takeQueued.i < |s.queued| ==> s.queued[m.takeQueued.i] != e
    ensures Carries(limit, s0, Apply(s, t, m), e)
  {
    GoOn(limit, s0, s, part, t, a, m);
    Extend(limit, s, part, t, a, m);
    TakenKeeps(s.queued, m.takeQueued, e);
  }

  // ---------- blocked threads ----------

  /** The thread is inside the loop of a cancel call that has not found its target, with no user code above it. */
  ghost predicate Blocked(st: seq<Frame>)
  {
    && st != []
    && (|| (Top(st).Cancelling? && Top(st).phase != Restoring(true))
        || (|st| > 1 && Top(st).Poll? && Top(Below(st)).Cancelling?))
  }

  ghost function CancelFrame(st: seq<Frame>): (f: Frame)
    requires Blocked(st)
    ensures f.Cancelling?
  {
    if Top(st).Cancelling? then Top(st) else Top(Below(st))
  }

  // ---------- a thread that is not blocked gets to user code ----------

  ghost function FrameRank(f: Frame): nat
  {
    match f
    case Posting(_, _, _) => 3
    case Sending(_) => 1
    case Poll(_, entries) => |entries| + 1
    case Clear(_, stage) => if stage <= 3 then 4 - stage else 1
    case Cancelling(_, _, temp, _) => |temp| + 1
    case Callback(_, _) => 0
  }

  /** How far the thread is from user code. */
  ghost function Rank(st: seq<Frame>): nat
  {
    if UserTurn(st) then 0 else FrameRank(Top(st)) + Rank(Below(st))
  }

  lemma RankPush(st: seq<Frame>, f: Frame)
    ensures Rank(st + [f]) == if f.Callback? then 0 else FrameRank(f) + Rank(st)
  {
    assert Below(st + [f]) == st && Top(st + [f]) == f;
  }

  /** From stack `st` to stack `st'` the thread has come nearer to user code. */
  ghost predicate Closer(st: seq<Frame>, st': seq<Frame>)
  {
    !Blocked(st') && (UserTurn(st') || Rank(st') < Rank(st))
  }

  /** The library's next step on stack `st`, in state `s`. */
  ghost predicate StackStep(limit: nat, part: Part, s: State, st: seq<Frame>, a: Action, m: Move)
  {
    match part
    case Posts => PostEnabled(limit, s, st, a) && m == PostMove(s, st, a)
    case Handles => HandleEnabled(limit, s, st, a) && m == HandleMove(limit, s, st, a)
    case Clears => ClearEnabled(s, st, a) && m == ClearMove(s, st, a)
    case Cancels => CancelEnabled(s, st, a) && m == CancelMove(s, st, a)
    case Returns => ReturnEnabled(st, a) && m == ReturnMove(st, a)
    case _ => false
  }

  ghost predicate StackFacts(s: State, st: seq<Frame>)
  {
    && ShapeOk(s, st) && st != [] && FrameOk(s.ops, |s.depth|, Top(st))
    && forall i :: 0 <= i < |s.ops| ==> s.ops[i].comm < |s.depth|
  }

  lemma OnUser(s: State, st: seq<Frame>)
    requires ShapeOk(s, st) && st != [] && !Top(st).Callback? && !Top(st).Poll?
    ensures UserTurn(Below(st)) && Rank(st) == FrameRank(Top(st))
  {
    if |st| > 1 { TopFits(s, st); }
  }

  lemma PostingCloser(limit: nat, s: State, st: seq<Frame>) returns (a: Action, m: Move)
    requires StackFacts(s, st) && Top(st).Posting?
    ensures StackStep(limit, Posts, s, st, a, m) && Closer(st, NewStack(st, m)) && m.takeQueued == None
  {
    OnUser(s, st);
    a := if !Top(st).inject then Accept else if s.depth[Top(st).c] <= limit then InjectInline else InjectQueue;
    m := PostMove(s, st, a);
    if a == Accept && s.ops[Top(st).id].shared {
      RankPush(Below(st), Poll(On(Top(st).c), []));
    } else {
      assert m.push == [] ==> NewStack(st, m) == Below(st);
    }
  }

  /** A poll that is not inside a cancel. */
  lemma PollCloser(limit: nat, s: State, st: seq<Frame>) returns (a: Action, m: Move)
    requires StackFacts(s, st) && Top(st).Poll? && !Blocked(st)
    ensures StackStep(limit, Handles, s, st, a, m) && Closer(st, NewStack(st, m)) && m.takeQueued == None
  {
    if |st| > 1 { TopFits(s, st); }
    if Top(st).entries == [] {
      a := EndPoll;
      m := HandleMove(limit, s, st, a);
      assert NewStack(st, m) == Below(st);
    } else {
      a, m := HandleFirst(limit, s, st);
      PollShorter(st, m);
    }
  }

  lemma PollShorter(st: seq<Frame>, m: Move)
    requires st != [] && Top(st).Poll? && Top(st).entries != [] && !Blocked(st) && m.drop
    requires |m.push| == 1 || (|m.push| == 2 && m.push[1].Callback?)
    requires m.push[0] == Poll(Top(st).site, Top(st).entries[1..])
    ensures Closer(st, NewStack(st, m))
  {
    if |m.push| == 1 {
      assert NewStack(st, m) == Below(st) + [m.push[0]];
      RankPush(Below(st), m.push[0]);
      assert Below(NewStack(st, m)) == Below(st);
    }
  }

  /** Whether the completion of `x` is handled on the spot by a poll on behalf of `site`. */
  ghost predicate Here(limit: nat, s: State, site: Site, x: Id)
  {
    && x < |s.ops| && s.ops[x].comm < |s.depth|
    && (s.ops[x].shared || (site == On(s.ops[x].comm) && s.depth[s.ops[x].comm] <= limit))
  }

  /** The first completion is handled on the spot if it can be, and queued otherwise. */
  lemma HandleFirst(limit: nat, s: State, st: seq<Frame>) returns (a: Action, m: Move)
    requires StackFacts(s, st) && Top(st).Poll? && Top(st).entries != []
    ensures StackStep(limit, Handles, s, st, a, m) && m.takeQueued == None
    ensures a == if Here(limit, s, Top(st).site, Top(st).entries[0]) then HandleHere else HandleLater
    ensures m.drop && m.push != [] && m.push[0] == Poll(Top(st).site, Top(st).entries[1..])
    ensures a == HandleHere ==> |m.push| == 2 && m.push[1].Callback?
    ensures a == HandleLater ==> |m.push| == 1
  {
    assert Top(st).entries[0] in Top(st).entries;
    a := if Here(limit, s, Top(st).site, Top(st).entries[0]) then HandleHere else HandleLater;
    m := HandleMove(limit, s, st, a);
  }

  lemma ReturnCloser(limit: nat, s: State, st: seq<Frame>) returns (a: Action, m: Move)
    requires StackFacts(s, st) && Top(st).Sending?
    ensures StackStep(limit, Returns, s, st, a, m) && Closer(st, NewStack(st, m)) && m.takeQueued == None
  {
    OnUser(s, st);
    a := EndSend;
    m := ReturnMove(st, a);
    assert NewStack(st, m) == Below(st);
  }

  lemma FoundCloser(limit: nat, s: State, st: seq<Frame>) returns (a: Action, m: Move)
    requires StackFacts(s, st) && Top(st).Cancelling? && !Blocked(st)
    ensures StackStep(limit, Cancels, s, st, a, m) && Closer(st, NewStack(st, m)) && m.takeQueued == None
  {
    OnUser(s, st);
    a := if Top(st).temp == [] then EndCancel else CancelRestore;
    m := CancelMove(s, st, a);
    if a == EndCancel { assert NewStack(st, m) == Below(st); } else { RankPush(Below(st), m.push[0]); }
  }

  lemma {:induction false} FindHead(queued: seq<Entry>, q: QName) returns (i: nat)
    requires !IsEmpty(queued, q)
    ensures IsHead(queued, i, q)
  {
    var n := |queued| - 1;
    if IsEmpty(queued[..n], q) {
      assert forall j :: 0 <= j < n ==> queued[..n][j] == queued[j];
      i := n;
    } else {
      i := FindHead(queued[..n], q);
    }
  }

  /** The next step of `clear_callback_queues`. */
  lemma ClearCloser(limit: nat, s: State, st: seq<Frame>) returns (a: Action, m: Move)
    requires StackFacts(s, st) && Top(st).Clear?
    ensures StackStep(limit, Clears, s, st, a, m) && Closer(st, NewStack(st, m))
    ensures a.ClearOne? ==>
              m.takeQueued == Some(a.i) && a.i < |s.queued| && m.push == [Callback(s.queued[a.i].id, FromQueue)]
    ensures !a.ClearOne? ==> m.takeQueued == None
  {
    OnUser(s, st);
    var c, stage := Top(st).c, Top(st).stage;
    if stage >= 3 {
      a := EndClear;
      m := ClearMove(s, st, a);
      assert NewStack(st, m) == Below(st);
    } else if IsEmpty(s.queued, ClearQueue(c, stage)) {
      a := ClearNext;
      m := ClearMove(s, st, a);
      RankPush(Below(st), m.push[0]);
    } else {
      var i := FindHead(s.queued, ClearQueue(c, stage));
      a := ClearOne(i);
      m := ClearMove(s, st, a);
    }
  }

  lemma CloserStep(limit: nat, s: State, st: seq<Frame>) returns (part: Part, a: Action, m: Move)
    requires StackFacts(s, st) && !Blocked(st) && !Top(st).Callback?
    ensures StackStep(limit, part, s, st, a, m) && Closer(st, NewStack(st, m))
    ensures m.takeQueued == None
            || (m.takeQueued.Some? && m.takeQueued.i < |s.queued|
                && m.push == [Callback(s.queued[m.takeQueued.i].id, FromQueue)])
  {
    match Top(st)
    case Posting(_, _, _) => part := Posts; a, m := PostingCloser(limit, s, st);
    case Sending(_) => part := Returns; a, m := ReturnCloser(limit, s, st);
    case Poll(_, _) => part := Handles; a, m := PollCloser(limit, s, st);
    case Clear(_, _) => part := Clears; a, m := ClearCloser(limit, s, st);
    case Cancelling(_, _, _, _) => part := Cancels; a, m := FoundCloser(limit, s, st);
  }

  lemma GoodStack(limit: nat, s: State, t: nat)
    requires Reachable(limit, s) && t < |s.stacks| && s.stacks[t] != []
    ensures StackFacts(s, s.stacks[t])
  {
    ReachableInv(limit, s);
    ReachableShaped(limit, s);
    assert StackOk(s.ops, |s.depth|, s.stacks[t]) && ShapeOk(s, s.stacks[t]);
  }

  /** The thread runs the callback of operation `id`. */
  ghost predicate RunsNow(limit: nat, s0: State, s: State, id: Id, t: nat)
  {
    && Reaches(limit, s0, s) && t < |s.stacks| && s.stacks[t] != []
    && Top(s.stacks[t]).Callback? && Top(s.stacks[t]).id == id
  }

  lemma {:induction false} ToUser(limit: nat, s0: State, s: State, e: Entry, t: nat) returns (s': State)
    requires Carries(limit, s0, s, e) && t < |s.stacks| && !Blocked(s.stacks[t])
    ensures RunsNow(limit, s0, s', e.id, t)
            || (Carries(limit, s0, s', e) && t < |s'.stacks| && UserTurn(s'.stacks[t]))
    decreases Rank(s.stacks[t])
  {
    var st := s.stacks[t];
    if UserTurn(st) {
      s' := s;
    } else {
      GoodStack(limit, s, t);
      var part, a, m := CloserStep(limit, s, st);
      var mid := Apply(s, t, m);
      assert mid.stacks[t] == NewStack(st, m);
      if m.takeQueued.Some? && s.queued[m.takeQueued.i] == e {
        GoOn(limit, s0, s, part, t, a, m);
        s' := mid;
      } else {
        CarryStep(limit, s0, s, e, part, t, a, m);
        s' := ToUser(limit, s0, mid, e, t);
      }
    }
  }

  lemma EndIt(limit: nat, s0: State, s: State, id: Id, t: nat) returns (s': State)
    requires RunsNow(limit, s0, s, id, t)
    ensures Reaches(limit, s0, s') && id in s'.done
  {
    var m := ReturnMove(s.stacks[t], EndCallback);
    GoOn(limit, s0, s, Returns, t, EndCallback, m);
    s' := Apply(s, t, m);
  }

  // ---------- and works off the queues ----------

  ghost function StageOf(q: QName): nat { if q.SendQ? then 0 else if q.RecvQ? then 1 else 2 }

  lemma PopHead(limit: nat, s0: State, s: State, e: Entry, t: nat, i: nat) returns (s': State)
    requires Carries(limit, s0, s, e) && t < |s.stacks| && ClearEnabled(s, s.stacks[t], ClearOne(i)) && s.queued[i] != e
    ensures Carries(limit, s0, s', e) && |s'.queued| == |s.queued| - 1
    ensures s'.stacks == s.stacks[t := s.stacks[t] + [Callback(s.queued[i].id, FromQueue)]]
  {
    var m := ClearMove(s, s.stacks[t], ClearOne(i));
    CarryStep(limit, s0, s, e, Clears, t, ClearOne(i), m);
    s' := Apply(s, t, m);
  }

  lemma ReturnNow(limit: nat, s0: State, s: State, e: Entry, t: nat) returns (s': State)
    requires Carries(limit, s0, s, e) && t < |s.stacks| && s.stacks[t] != [] && Top(s.stacks[t]).Callback?
    ensures Carries(limit, s0, s', e) && s'.queued == s.queued && s'.stacks == s.stacks[t := Below(s.stacks[t])]
  {
    var m := ReturnMove(s.stacks[t], EndCallback);
    CarryStep(limit, s0, s, e, Returns, t, EndCallback, m);
    s' := Apply(s, t, m);
    assert NewStack(s.stacks[t], m) == Below(s.stacks[t]);
    assert s'.queued == s.queued;
  }

  /** The head of the queue is popped, and its callback runs and returns. */
  lemma ClearOneAndReturn(limit: nat, s0: State, s: State, e: Entry, t: nat, i: nat) returns (s': State)
    requires Carries(limit, s0, s, e) && t < |s.stacks| && ClearEnabled(s, s.stacks[t], ClearOne(i)) && s.queued[i] != e
    ensures Carries(limit, s0, s', e) && s'.stacks == s.stacks && |s'.queued| == |s.queued| - 1
  {
    var mid := PopHead(limit, s0, s, e, t, i);
    s' := ReturnNow(limit, s0, mid, e, t);
    assert Below(mid.stacks[t]) == s.stacks[t];
  }

  lemma ClearHeadRuns(limit: nat, s0: State, s: State, e: Entry, t: nat, i: nat) returns (s': State)
    requires Carries(limit, s0, s, e) && t < |s.stacks| && s.stacks[t] != [] && Top(s.stacks[t]).Clear?
    requires ClearEnabled(s, s.stacks[t], ClearOne(i)) && s.queued[i] == e
    ensures Reaches(limit, s0, s') && e.id in s'.done
  {
    var m := ClearMove(s, s.stacks[t], ClearOne(i));
    GoOn(limit, s0, s, Clears, t, ClearOne(i), m);
    s' := EndIt(limit, s0, Apply(s, t, m), e.id, t);
  }

  lemma {:induction false} ClearUntil(limit: nat, s0: State, s: State, e: Entry, t: nat, c: nat, stage: nat)
    returns (s': State)
    requires Carries(limit, s0, s, e) && t < |s.stacks| && s.stacks[t] != [] && Top(s.stacks[t]) == Clear(c, stage)
    requires stage <= StageOf(e.q) && ClearQueue(c, StageOf(e.q)) == e.q
    ensures Reaches(limit, s0, s') && e.id in s'.done
    decreases 3 - stage, |s.queued|
  {
    var q := ClearQueue(c, stage);
    if IsEmpty(s.queued, q) {
      var m := ClearMove(s, s.stacks[t], ClearNext);
      CarryStep(limit, s0, s, e, Clears, t, ClearNext, m);
      s' := ClearUntil(limit, s0, Apply(s, t, m), e, t, c, stage + 1);
    } else {
      var i := FindHead(s.queued, q);
      if s.queued[i] == e {
        s' := ClearHeadRuns(limit, s0, s, e, t, i);
      } else {
        var mid := ClearOneAndReturn(limit, s0, s, e, t, i);
        s' := ClearUntil(limit, s0, mid, e, t, c, stage);
      }
    }
  }

  lemma CallIt(limit: nat, s0: State, s: State, e: Entry, t: nat, c: nat) returns (s': State)
    requires Carries(limit, s0, s, e) && t < |s.stacks| && UserTurn(s.stacks[t]) && c < |s.depth|
    ensures Carries(limit, s0, s', e) && s'.stacks == s.stacks[t := s.stacks[t] + [Clear(c, 0), Poll(On(c), [])]]
  {
    var m := CallMove(s, CallProgress(c));
    CarryStep(limit, s0, s, e, Calls, t, CallProgress(c), m);
    s' := Apply(s, t, m);
  }

  lemma EndEmptyPoll(limit: nat, s0: State, s: State, e: Entry, t: nat) returns (s': State)
    requires Carries(limit, s0, s, e) && t < |s.stacks| && s.stacks[t] != []
    requires Top(s.stacks[t]).Poll? && Top(s.stacks[t]).entries == []
    ensures Carries(limit, s0, s', e) && s' == s.(stacks := s.stacks[t := Below(s.stacks[t])])
  {
    var m := HandleMove(limit, s, s.stacks[t], EndPoll);
    CarryStep(limit, s0, s, e, Handles, t, EndPoll, m);
    s' := Apply(s, t, m);
    StackOnly(s, t, m);
    assert NewStack(s.stacks[t], m) == Below(s.stacks[t]);
  }

  /** User code calls `progress` on the communicator of the entry. */
  lemma ProgressRuns(limit: nat, s0: State, s: State, e: Entry, t: nat) returns (s': State)
    requires Carries(limit, s0, s, e) && t < |s.stacks| && UserTurn(s.stacks[t])
    ensures Reaches(limit, s0, s') && e.id in s'.done
  {
    var c := OwnerOf(limit, s, e);
    var s1 := CallIt(limit, s0, s, e, t, c);
    var s2 := EndEmptyPoll(limit, s0, s1, e, t);
    assert s2.stacks[t] == s.stacks[t] + [Clear(c, 0)];
    s' := ClearUntil(limit, s0, s2, e, t, c, 0);
  }

  lemma OwnerOf(limit: nat, s: State, e: Entry) returns (c: nat)
    requires Reachable(limit, s) && e in s.queued && CallbackQueue(e.q)
    ensures c < |s.depth| && ClearQueue(c, StageOf(e.q)) == e.q
  {
    ReachableInv(limit, s);
    var j :| 0 <= j < |s.queued| && s.queued[j] == e;
    assert EntryOk(s.ops, s.queued[j]);
    c := s.ops[e.id].comm;
  }

  /** A thread that is not blocked can run any queued callback. */
  lemma FreeRuns(limit: nat, s0: State, s: State, e: Entry, t: nat) returns (s': State)
    requires Carries(limit, s0, s, e) && t < |s.stacks| && !Blocked(s.stacks[t])
    ensures Reaches(limit, s0, s') && e.id in s'.done
  {
    var s1 := ToUser(limit, s0, s, e, t);
    if RunsNow(limit, s0, s1, e.id, t) {
      s' := EndIt(limit, s0, s1, e.id, t);
    } else {
      s' := ProgressRuns(limit, s0, s1, e, t);
    }
  }

  // ---------- waking a blocked thread ----------

  /** The thread is blocked in a cancel of `target`. */
  ghost predicate Waits(s: State, t: nat, site: Site, target: Id)
  {
    && t < |s.stacks| && Blocked(s.stacks[t])
    && CancelFrame(s.stacks[t]).site == site && CancelFrame(s.stacks[t]).target == target
  }

  /** What steps inside cancel loops leave alone. */
  ghost predicate Quiet(s: State, s': State, t: nat)
  {
    && t < |s.stacks| == |s'.stacks| && s'.stacks == s.stacks[t := s'.stacks[t]]
    && s'.ops == s.ops && s'.depth == s.depth && s'.asked == s.asked
  }

  /** The cancel queue holds `x`, or a cancel call has popped it and will put it back. */
  ghost predicate InHand(s: State, t: nat, site: Site, x: Id)
  {
    || Entry(CancelQueue(site), x) in s.queued
    || (t < |s.stacks| && s.stacks[t] != [] && Top(s.stacks[t]).Cancelling? && Top(s.stacks[t]).site == site
        && x in Top(s.stacks[t]).temp)
  }

  ghost predicate Woken(limit: nat, s0: State, s: State, e: Entry)
  {
    Carries(limit, s0, s, e) && exists u: nat :: u < |s.stacks| && !Blocked(s.stacks[u])
  }

  /** One completion of the poll inside a cancel is handled. */
  lemma HandleOne(limit: nat, s0: State, s: State, e: Entry, t: nat) returns (s': State)
    requires Carries(limit, s0, s, e) && t < |s.stacks| && s.stacks[t] != []
    requires Top(s.stacks[t]).Poll? && Top(s.stacks[t]).entries != []
    ensures Carries(limit, s0, s', e)
    ensures var p := Top(s.stacks[t]);
            if Here(limit, s, p.site, p.entries[0]) then t < |s'.stacks| && !Blocked(s'.stacks[t])
            else && Quiet(s, s', t) && s'.fabric == s.fabric && s.queued <= s'.queued
                 && s'.stacks[t] == Below(s.stacks[t]) + [Poll(p.site, p.entries[1..])]
  {
    GoodStack(limit, s, t);
    var a, m := HandleFirst(limit, s, s.stacks[t]);
    CarryStep(limit, s0, s, e, Handles, t, a, m);
    s' := Apply(s, t, m);
  }

  /** The completions of the poll inside a cancel are handled, up to the first that runs here. */
  lemma {:induction false} HandleAll(limit: nat, s0: State, s: State, e: Entry, t: nat, site: Site, target: Id)
    returns (s': State)
    requires Carries(limit, s0, s, e) && Waits(s, t, site, target) && Top(s.stacks[t]).Poll?
    ensures Woken(limit, s0, s', e)
            || (&& Carries(limit, s0, s', e) && Waits(s', t, site, target) && Quiet(s, s', t) && s'.fabric == s.fabric
                && s.queued <= s'.queued && s'.stacks[t] == Below(s.stacks[t]) + [Poll(Top(s.stacks[t]).site, [])]
                && forall x :: x in Top(s.stacks[t]).entries ==> !Here(limit, s, Top(s.stacks[t]).site, x))
    decreases |Top(s.stacks[t]).entries|
  {
    var st := s.stacks[t];
    var p := Top(st);
    if p.entries == [] {
      s' := s;
      assert st == Below(st) + [p];
    } else {
      var mid := HandleOne(limit, s0, s, e, t);
      if Here(limit, s, p.site, p.entries[0]) {
        s' := mid;
      } else {
        assert Below(mid.stacks[t]) == Below(st) && Top(mid.stacks[t]) == Poll(p.site, p.entries[1..]);
        s' := HandleAll(limit, s0, mid, e, t, site, target);
        assert p.entries == [p.entries[0]] + p.entries[1..];
      }
    }
  }

  /** The next step of a cancel call that has not polled yet. */
  lemma CancelOne(limit: nat, s0: State, s: State, e: Entry, t: nat, a: Action) returns (s': State)
    requires Carries(limit, s0, s, e) && t < |s.stacks| && CancelEnabled(s, s.stacks[t], a)
    ensures Carries(limit, s0, s', e) && s' == Apply(s, t, CancelMove(s, s.stacks[t], a))
    ensures Quiet(s, s', t) && s'.fabric == s.fabric
    ensures s'.stacks[t] == NewStack(s.stacks[t], CancelMove(s, s.stacks[t], a))
  {
    var m := CancelMove(s, s.stacks[t], a);
    CarryStep(limit, s0, s, e, Cancels, t, a, m);
    s' := Apply(s, t, m);
  }

  ghost function PhaseRank(p: Phase): nat { if p.Polling? then 0 else if p.Restoring? then 1 else 2 }

  ghost function PhaseWork(s: State, f: Frame): nat
    requires f.Cancelling?
  {
    if f.phase.Polling? then 0 else if f.phase.Restoring? then |f.temp| else |s.queued|
  }

  /** One more step of the loop, towards its poll; `x` stays in hand. */
  ghost predicate Loops(limit: nat, s0: State, s: State, s': State, e: Entry, t: nat, site: Site, target: Id, x: Id)
  {
    && Carries(limit, s0, s', e) && Waits(s', t, site, target) && Quiet(s, s', t) && s'.fabric == s.fabric
    && (InHand(s, t, site, x) ==> InHand(s', t, site, x))
    && s.stacks[t] != [] && Top(s.stacks[t]).Cancelling?
    && var f, g := Top(s.stacks[t]), Top(s'.stacks[t]);
       || g.Poll?
       || (g.Cancelling? && PhaseRank(g.phase) < PhaseRank(f.phase))
       || (g.Cancelling? && PhaseRank(g.phase) == PhaseRank(f.phase) && PhaseWork(s', g) < PhaseWork(s, f))
  }

  lemma PollStep(limit: nat, s0: State, s: State, e: Entry, t: nat, site: Site, target: Id, x: Id) returns (s': State)
    requires Carries(limit, s0, s, e) && Waits(s, t, site, target)
    requires Top(s.stacks[t]).Cancelling? && Top(s.stacks[t]).phase.Polling?
    ensures Loops(limit, s0, s, s', e, t, site, target, x)
  {
    var st := s.stacks[t];
    GoodStack(limit, s, t);
    assert CancelOk(s, st[|st| - 1]);
    s' := CancelOne(limit, s0, s, e, t, CancelPoll);
    StackOnly(s, t, CancelMove(s, st, CancelPoll));
    assert s'.stacks[t] == Below(st) + [Top(st).(phase := Popping), Poll(site, [])];
    assert Below(s'.stacks[t]) == Below(st) + [Top(st).(phase := Popping)];
  }

  lemma RestoreStep(limit: nat, s0: State, s: State, e: Entry, t: nat, site: Site, target: Id, x: Id)
    returns (s': State)
    requires Carries(limit, s0, s, e) && Waits(s, t, site, target)
    requires Top(s.stacks[t]).Cancelling? && Top(s.stacks[t]).phase.Restoring?
    ensures Loops(limit, s0, s, s', e, t, site, target, x)
  {
    var st, f := s.stacks[t], Top(s.stacks[t]);
    if f.temp == [] {
      s' := CancelOne(limit, s0, s, e, t, CancelAgain);
      StackOnly(s, t, CancelMove(s, st, CancelAgain));
      assert s'.stacks[t] == Below(st) + [f.(phase := Polling)];
    } else {
      var n := |f.temp| - 1;
      s' := CancelOne(limit, s0, s, e, t, CancelRestore);
      assert s'.queued == s.queued + [Entry(CancelQueue(site), f.temp[n])];
      assert s'.stacks[t] == Below(st) + [f.(temp := f.temp[..n])];
      assert f.temp == f.temp[..n] + [f.temp[n]];
    }
  }

  /** The head of the cancel queue is popped: the target ends the loop, anything else is put aside. */
  lemma TakeStep(limit: nat, s0: State, s: State, e: Entry, t: nat, site: Site, target: Id, x: Id, i: nat)
    returns (s': State)
    requires Carries(limit, s0, s, e) && Waits(s, t, site, target)
    requires Top(s.stacks[t]).Cancelling? && Top(s.stacks[t]).phase.Popping? && IsHead(s.queued, i, CancelQueue(site))
    ensures if s.queued[i].id == target then Woken(limit, s0, s', e) && target in s'.cancelled
            else Loops(limit, s0, s, s', e, t, site, target, x) && Top(s'.stacks[t]).Cancelling?
                 && Top(s'.stacks[t]).phase.Popping? && s'.queued == Taken(s.queued, Some(i))
  {
    var st, f, y := s.stacks[t], Top(s.stacks[t]), s.queued[i].id;
    s' := CancelOne(limit, s0, s, e, t, CancelTake(i));
    assert s.queued[i] == Entry(CancelQueue(site), y);
    assert s'.queued == Taken(s.queued, Some(i));
    if y == target {
      assert s'.stacks[t] == Below(st) + [f.(phase := Restoring(true))];
      assert target in s'.cancelled;
    } else {
      assert s'.stacks[t] == Below(st) + [f.(temp := f.temp + [y])];
      if x != y && Entry(CancelQueue(site), x) in s.queued {
        TakenKeeps(s.queued, Some(i), Entry(CancelQueue(site), x));
      }
    }
  }

  lemma PopStep(limit: nat, s0: State, s: State, e: Entry, t: nat, site: Site, target: Id, x: Id) returns (s': State)
    requires Carries(limit, s0, s, e) && Waits(s, t, site, target)
    requires Top(s.stacks[t]).Cancelling? && Top(s.stacks[t]).phase.Popping?
    ensures Woken(limit, s0, s', e) || Loops(limit, s0, s, s', e, t, site, target, x)
  {
    var st, f := s.stacks[t], Top(s.stacks[t]);
    if IsEmpty(s.queued, CancelQueue(site)) {
      s' := CancelOne(limit, s0, s, e, t, CancelEmpty);
      StackOnly(s, t, CancelMove(s, st, CancelEmpty));
      assert s'.stacks[t] == Below(st) + [f.(phase := Restoring(false))];
    } else {
      var i := FindHead(s.queued, CancelQueue(site));
      s' := TakeStep(limit, s0, s, e, t, site, target, x, i);
    }
  }

  /** A blocked thread comes to its next poll, unless it finds its target before. */
  lemma {:induction false} ToPoll(limit: nat, s0: State, s: State, e: Entry, t: nat, site: Site, target: Id, x: Id)
    returns (s': State)
    requires Carries(limit, s0, s, e) && Waits(s, t, site, target)
    ensures Woken(limit, s0, s', e)
            || (&& Carries(limit, s0, s', e) && Waits(s', t, site, target) && Quiet(s, s', t) && s'.fabric == s.fabric
                && (InHand(s, t, site, x) ==> Entry(CancelQueue(site), x) in s'.queued) && Top(s'.stacks[t]).Poll?)
    decreases if Top(s.stacks[t]).Cancelling? then PhaseRank(Top(s.stacks[t]).phase) else 0,
              if Top(s.stacks[t]).Cancelling? then PhaseWork(s, Top(s.stacks[t])) + 1 else 0
  {
    if Top(s.stacks[t]).Poll? {
      s' := s;
    } else {
      var mid;
      match Top(s.stacks[t]).phase {
        case Polling => mid := PollStep(limit, s0, s, e, t, site, target, x);
        case Popping => mid := PopStep(limit, s0, s, e, t, site, target, x);
        case Restoring(_) => mid := RestoreStep(limit, s0, s, e, t, site, target, x);
      }
      if Woken(limit, s0, mid, e) {
        s' := mid;
      } else {
        s' := ToPoll(limit, s0, mid, e, t, site, target, x);
      }
    }
  }

  /** The target is popped in the end when it is in the queue. */
  lemma {:induction false} PopUntil(limit: nat, s0: State, s: State, e: Entry, t: nat, site: Site, target: Id)
    returns (s': State)
    requires Carries(limit, s0, s, e) && Waits(s, t, site, target)
    requires Top(s.stacks[t]).Cancelling? && Top(s.stacks[t]).phase.Popping?
    requires Entry(CancelQueue(site), target) in s.queued
    ensures Woken(limit, s0, s', e) && target in s'.cancelled
    decreases |s.queued|
  {
    var i := FindHead(s.queued, CancelQueue(site));
    var mid := TakeStep(limit, s0, s, e, t, site, target, target, i);
    if s.queued[i].id == target {
      s' := mid;
    } else {
      TakenKeeps(s.queued, Some(i), Entry(CancelQueue(site), target));
      s' := PopUntil(limit, s0, mid, e, t, site, target);
    }
  }

  /** A poll inside a cancel ends, and the cancel goes on to pop its queue. */
  lemma BackToPopping(limit: nat, s0: State, s: State, e: Entry, t: nat, site: Site, target: Id) returns (s': State)
    requires Carries(limit, s0, s, e) && Waits(s, t, site, target)
    requires Top(s.stacks[t]).Poll? && Top(s.stacks[t]).entries == []
    ensures Carries(limit, s0, s', e) && Waits(s', t, site, target) && s'.queued == s.queued
    ensures Top(s'.stacks[t]).Cancelling? && Top(s'.stacks[t]).phase.Popping?
  {
    GoodStack(limit, s, t);
    TopFits(s, s.stacks[t]);
    s' := EndEmptyPoll(limit, s0, s, e, t);
  }

  /** A blocked thread whose target is in the cancel queue gets free. */
  lemma FindTarget(limit: nat, s0: State, s: State, e: Entry, t: nat, site: Site, target: Id) returns (s': State)
    requires Carries(limit, s0, s, e) && Waits(s, t, site, target) && Entry(CancelQueue(site), target) in s.queued
    ensures Woken(limit, s0, s', e)
  {
    if Top(s.stacks[t]).Cancelling? && Top(s.stacks[t]).phase.Popping? {
      s' := PopUntil(limit, s0, s, e, t, site, target);
    } else {
      s' := ToPoll(limit, s0, s, e, t, site, target, target);
      if !Woken(limit, s0, s', e) {
        s' := HandleAll(limit, s0, s', e, t, site, target);
        if !Woken(limit, s0, s', e) {
          s' := BackToPopping(limit, s0, s', e, t, site, target);
          s' := PopUntil(limit, s0, s', e, t, site, target);
        }
      }
    }
  }

  lemma ReadOne(limit: nat, s0: State, s: State, e: Entry, t: nat, i: nat) returns (s': State)
    requires Carries(limit, s0, s, e) && t < |s.stacks| && s.stacks[t] != [] && Top(s.stacks[t]).Poll? && i < |s.fabric|
    requires s.fabric[i] < |s.ops| && !s.ops[s.fabric[i]].send
    ensures Carries(limit, s0, s', e) && Quiet(s, s', t)
    ensures var p := Top(s.stacks[t]);
            s'.stacks[t] == Below(s.stacks[t]) + [Poll(p.site, p.entries + [s.fabric[i]])]
  {
    var m := ReadMove(s, s.stacks[t], ReadDone(i));
    CarryStep(limit, s0, s, e, Reads, t, ReadDone(i), m);
    s' := Apply(s, t, m);
  }

  /** A completion that the poll of the blocked thread handles on the spot. */
  lemma WakeByRead(limit: nat, s0: State, s: State, e: Entry, t: nat, site: Site, target: Id, x: Id) returns (s': State)
    requires Carries(limit, s0, s, e) && Waits(s, t, site, target)
    requires x in s.fabric && Here(limit, s, site, x) && !s.ops[x].send
    ensures Woken(limit, s0, s', e)
  {
    s' := ToPoll(limit, s0, s, e, t, site, target, target);
    if !Woken(limit, s0, s', e) {
      GoodStack(limit, s', t);
      TopFits(s', s'.stacks[t]);
      var i :| 0 <= i < |s'.fabric| && s'.fabric[i] == x;
      var p := Top(s'.stacks[t]);
      var mid := ReadOne(limit, s0, s', e, t, i);
      assert Below(mid.stacks[t]) == Below(s'.stacks[t]) && Top(mid.stacks[t]) == Poll(p.site, p.entries + [x]);
      assert x in Top(mid.stacks[t]).entries;
      s' := HandleAll(limit, s0, mid, e, t, site, target);
    }
  }

  /** The fabric reports the target of the blocked thread as cancelled. */
  lemma WakeByCancel(limit: nat, s0: State, s: State, e: Entry, t: nat, site: Site, target: Id) returns (s': State)
    requires Carries(limit, s0, s, e) && Waits(s, t, site, target) && target in s.fabric
    ensures Woken(limit, s0, s', e)
  {
    s' := ToPoll(limit, s0, s, e, t, site, target, target);
    if !Woken(limit, s0, s', e) {
      var i :| 0 <= i < |s'.fabric| && s'.fabric[i] == target;
      var mid := ReadTarget(limit, s0, s', e, t, site, target, i);
      s' := FindTarget(limit, s0, mid, e, t, site, target);
    }
  }

  lemma ReadTarget(limit: nat, s0: State, s: State, e: Entry, t: nat, site: Site, target: Id, i: nat)
    returns (s': State)
    requires Carries(limit, s0, s, e) && Waits(s, t, site, target) && Top(s.stacks[t]).Poll?
    requires i < |s.fabric| && s.fabric[i] == target
    ensures Carries(limit, s0, s', e) && Waits(s', t, site, target) && Entry(CancelQueue(site), target) in s'.queued
  {
    var st := s.stacks[t];
    GoodStack(limit, s, t);
    TopFits(s, st);
    assert CancelOk(s, st[|st| - 2]);
    var m := ReadMove(s, st, ReadCancelled(i));
    CarryStep(limit, s0, s, e, Reads, t, ReadCancelled(i), m);
    s' := Apply(s, t, m);
    assert s'.queued == s.queued + [Entry(CancelQueue(site), target)];
    assert s'.stacks[t] == st;
  }

  /** Another cancel call on the same queue puts the target back. */
  lemma WakeByRestore(limit: nat, s0: State, s: State, e: Entry, t: nat, u: nat) returns (s': State)
    requires Carries(limit, s0, s, e) && t < |s.stacks| && Blocked(s.stacks[t])
    requires u < |s.stacks| && Blocked(s.stacks[u])
    requires var f := CancelFrame(s.stacks[t]);
             CancelFrame(s.stacks[u]).site == f.site && InHand(s, u, f.site, f.target)
    ensures Woken(limit, s0, s', e)
  {
    var f, g := CancelFrame(s.stacks[t]), CancelFrame(s.stacks[u]);
    s' := ToPoll(limit, s0, s, e, u, g.site, g.target, f.target);
    if !Woken(limit, s0, s', e) {
      assert Waits(s', t, f.site, f.target);
      s' := FindTarget(limit, s0, s', e, t, f.site, f.target);
    }
  }

  // ---------- when nothing can wake a blocked thread ----------

  /** The top frame of the stack is a cancel call that has put `target` aside. */
  ghost predicate Shelves(st: seq<Frame>, site: Site, target: Id)
  {
    st != [] && Top(st).Cancelling? && Top(st).site == site && target in Top(st).temp
  }

  /** Something can still happen to the blocked thread: its poll runs a callback, or its target turns up. */
  ghost predicate CanWake(limit: nat, s: State, t: nat)
    requires t < |s.stacks| && Blocked(s.stacks[t])
  {
    var st := s.stacks[t];
    var site, target := CancelFrame(st).site, CancelFrame(st).target;
    || (Top(st).Poll? && exists x :: x in Top(st).entries && Here(limit, s, site, x))
    || (exists x :: x in s.fabric && ((Here(limit, s, site, x) && !s.ops[x].send) || x == target))
    || Entry(CancelQueue(site), target) in s.queued
    || (exists u: nat :: u < |s.stacks| && Shelves(s.stacks[u], site, target))
  }

  /** Every thread is blocked in a cancel call that will never end. */
  ghost predicate Stuck(limit: nat, s: State)
  {
    forall t: nat :: t < |s.stacks| ==> Blocked(s.stacks[t]) && !CanWake(limit, s, t)
  }

  lemma WakeUp(limit: nat, s0: State, s: State, e: Entry) returns (s': State)
    requires Carries(limit, s0, s, e) && !Stuck(limit, s)
    ensures Woken(limit, s0, s', e)
  {
    if t: nat :| t < |s.stacks| && !Blocked(s.stacks[t]) {
      s' := s;
    } else {
      var t: nat :| t < |s.stacks| && CanWake(limit, s, t);
      s' := WakeThread(limit, s0, s, e, t);
    }
  }

  lemma WakeThread(limit: nat, s0: State, s: State, e: Entry, t: nat) returns (s': State)
    requires Carries(limit, s0, s, e) && (forall u: nat :: u < |s.stacks| ==> Blocked(s.stacks[u]))
    requires t < |s.stacks| && CanWake(limit, s, t)
    ensures Woken(limit, s0, s', e)
  {
    var st := s.stacks[t];
    var site, target := CancelFrame(st).site, CancelFrame(st).target;
    if Top(st).Poll? && exists x :: x in Top(st).entries && Here(limit, s, site, x) {
      GoodStack(limit, s, t);
      TopFits(s, st);
      s' := HandleAll(limit, s0, s, e, t, site, target);
    } else if x :| x in s.fabric && Here(limit, s, site, x) && !s.ops[x].send {
      s' := WakeByRead(limit, s0, s, e, t, site, target, x);
    } else if target in s.fabric {
      s' := WakeByCancel(limit, s0, s, e, t, site, target);
    } else if Entry(CancelQueue(site), target) in s.queued {
      s' := FindTarget(limit, s0, s, e, t, site, target);
    } else {
      var u: nat :| u < |s.stacks| && Shelves(s.stacks[u], site, target);
      s' := WakeByRestore(limit, s0, s, e, t, u);
    }
  }
}
