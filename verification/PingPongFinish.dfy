/** The ping-pong protocol cannot get stuck: from every reachable state both ranks can still finish. */
module PingPongFinish {
  import opened Counting
  import opened PingPong
  import opened PingPongSafety
  import opened PingPongElection
  import opened PingPongWalk

  // ---------- what holds on the way ----------

  ghost predicate Now(cfg: Config, s0: System, first: bool, r: Rank, p: Rank)
  {
    ValidConfig(cfg) && Reachable(cfg, s0) && Reaches(cfg, s0, Sys(first, r, p))
  }

  lemma Joined(cfg: Config, tr: seq<System>, more: seq<System>)
    requires IsRun(cfg, tr) && IsRun(cfg, more) && tr[|tr| - 1] == more[0]
    ensures IsRun(cfg, tr + more[1..])
  {
    var all := tr + more[1..];
    forall i | 0 <= i < |all| - 1 ensures Next(cfg, all[i], all[i + 1]) {
      if i < |tr| - 1 {
        assert Next(cfg, tr[i], tr[i + 1]);
      } else {
        var j := i - |tr| + 1;
        assert Next(cfg, more[j], more[j + 1]);
      }
    }
  }

  lemma StillReachable(cfg: Config, s0: System, s: System)
    requires Reachable(cfg, s0) && Reaches(cfg, s0, s)
    ensures Reachable(cfg, s)
  {
    var tr :| IsRun(cfg, tr) && Init(cfg, tr[0]) && tr[|tr| - 1] == s0;
    var more :| IsRun(cfg, more) && more[0] == s0 && more[|more| - 1] == s;
    Joined(cfg, tr, more);
    var all := tr + more[1..];
    assert Init(cfg, all[0]) && all[|all| - 1] == s;
  }

  /** All invariants hold wherever a run has led. */
  lemma Known(cfg: Config, s0: System, first: bool, r: Rank, p: Rank)
    requires Now(cfg, s0, first, r, p)
    ensures Inv(cfg, r, p) && Inv(cfg, p, r) && BothElected(cfg, r, p)
  {
    StillReachable(cfg, s0, Sys(first, r, p));
    ReachableElected(cfg, Sys(first, r, p));
  }

  /** Once a total has been acted on, every thread of the rank has been counted. */
  lemma CheckedClosed(cfg: Config, r: Rank, p: Rank)
    requires Inv(cfg, r, p) && Elected(cfg, r, p) && r.checked
    ensures Closed(r)
  {
    CountExtremes(r.threads, IsFlagged);
  }

  /** Only thread `t` has moved. */
  ghost predicate Drove(r: Rank, t: nat, r': Rank)
  {
    && t < |r.threads| == |r'.threads| && r'.threads == r.threads[t := r'.threads[t]]
    && (r.timeUp ==> r'.timeUp)
  }

  ghost predicate OnlyInbox(p: Rank, p': Rank) { p' == p.(inbox := p'.inbox) }

  lemma DroveGoto(r: Rank, t: nat, pc: PC, r': Rank)
    requires t < |r.threads| && r'.threads == Goto(r, t, pc).threads && r'.timeUp == r.timeUp
    ensures Drove(r, t, r') && r'.threads[t] == r.threads[t].(pc := pc)
  {
  }

  // ---------- one thread, through one round of the loop ----------

  lemma FromPosts(cfg: Config, s0: System, first: bool, r: Rank, p: Rank, t: nat) returns (r': Rank)
    requires Reaches(cfg, s0, Sys(first, r, p)) && t < |r.threads| && |r.threads[t].slots| == cfg.inflight
    requires r.threads[t].pc.PostCheck? || r.threads[t].pc.CountPost?
    ensures At(cfg, s0, first, r', p, t, SendCheck(0)) && OnlyPosts(r, t, r')
  {
    var r1 := r;
    if r.threads[t].pc.CountPost? {
      r1 := Goto(r, t, PostCheck(r.threads[t].pc.j + 1)).(recvPosted := r.recvPosted + 1);
      Move(cfg, s0, first, Posting, r, p, t, r1, p);
    }
    var j := r1.threads[t].pc.j;
    if j <= cfg.inflight {
      r' := WalkPosts(cfg, s0, first, r1, p, t, j);
    } else {
      r' := Goto(r1, t, SendCheck(0));
      Move(cfg, s0, first, Posting, r1, p, t, r', p);
    }
  }

  /** A send that is under way is finished. */
  lemma FromSends(cfg: Config, s0: System, first: bool, r: Rank, p: Rank, t: nat) returns (r': Rank, p': Rank)
    requires Reaches(cfg, s0, Sys(first, r, p)) && t < |r.threads| && |r.threads[t].slots| == cfg.inflight
    requires r.threads[t].pc.SendCheck? || r.threads[t].pc.SendNow? || r.threads[t].pc.CountSend?
    ensures Reaches(cfg, s0, Sys(first, r', p')) && Drove(r, t, r') && OnlyInbox(p, p')
    ensures r'.threads[t].pc.SendCheck? && |r'.threads[t].slots| == cfg.inflight
  {
    r', p' := r, p;
    if r'.threads[t].pc.SendNow? {
      var j := r'.threads[t].pc.j;
      var r1 := Goto(r', t, CountSend(j)).(sent := r'.sent + 1);
      var p1 := Deposit(p', Msg(j, 0, t));
      Move(cfg, s0, first, Sending, r', p', t, r1, p1);
      r', p' := r1, p1;
    }
    if r'.threads[t].pc.CountSend? {
      var r2 := Goto(r', t, SendCheck(r'.threads[t].pc.j + 1)).(sendPosted := r'.sendPosted + 1);
      Move(cfg, s0, first, Sending, r', p', t, r2, p');
      r' := r2;
    }
  }

  lemma FromClosing(cfg: Config, s0: System, first: bool, r: Rank, p: Rank, t: nat) returns (r': Rank, p': Rank)
    requires Reaches(cfg, s0, Sys(first, r, p)) && t < |r.threads| && |r.threads[t].slots| == cfg.inflight
    requires IsClosing(r.threads[t])
    ensures At(cfg, s0, first, r', p', t, MasterCheck) && Drove(r, t, r') && OnlyInbox(p, p')
    ensures r'.threads[t].flagged == r.threads[t].flagged
  {
    if r.threads[t].pc.Elect? {
      r', p' := FromElect(cfg, s0, first, r, p, t);
    } else if r.threads[t].pc.PostDone? {
      r', p' := FromPostDone(cfg, s0, first, r, p, t);
    } else {
      r', p' := SendTotal(cfg, s0, first, r, p, t);
      DroveGoto(r, t, MasterCheck, r');
    }
  }

  lemma FromElect(cfg: Config, s0: System, first: bool, r: Rank, p: Rank, t: nat) returns (r': Rank, p': Rank)
    requires At(cfg, s0, first, r, p, t, Elect)
    ensures At(cfg, s0, first, r', p', t, MasterCheck) && Drove(r, t, r') && OnlyInbox(p, p')
    ensures r'.threads[t].flagged == r.threads[t].flagged
  {
    r', p' := Announce(cfg, s0, first, r, p, t);
    DroveGoto(r, t, MasterCheck, r');
  }

  lemma FromPostDone(cfg: Config, s0: System, first: bool, r: Rank, p: Rank, t: nat) returns (r': Rank, p': Rank)
    requires At(cfg, s0, first, r, p, t, PostDone)
    ensures At(cfg, s0, first, r', p', t, MasterCheck) && Drove(r, t, r') && OnlyInbox(p, p')
    ensures r'.threads[t].flagged == r.threads[t].flagged
  {
    r', p' := PostAndSend(cfg, s0, first, r, p, t);
    DroveGoto(r, t, MasterCheck, r');
  }

  lemma FromTest(cfg: Config, s0: System, first: bool, r: Rank, p: Rank, t: nat) returns (r': Rank, p': Rank)
    requires At(cfg, s0, first, r, p, t, TestSends)
    ensures At(cfg, s0, first, r', p', t, MasterCheck) && Drove(r, t, r') && OnlyInbox(p, p')
    ensures r'.threads[t].flagged
  {
    if r.threads[t].flagged {
      r', p' := Goto(r, t, MasterCheck), p;
      Move(cfg, s0, first, Testing, r, p, t, r', p);
      DroveGoto(r, t, MasterCheck, r');
    } else {
      r', p' := FlagAndClose(cfg, s0, first, r, p, t);
    }
  }

  lemma FlagAndClose(cfg: Config, s0: System, first: bool, r: Rank, p: Rank, t: nat) returns (r': Rank, p': Rank)
    requires At(cfg, s0, first, r, p, t, TestSends) && !r.threads[t].flagged
    ensures At(cfg, s0, first, r', p', t, MasterCheck) && Drove(r, t, r') && OnlyInbox(p, p')
    ensures r'.threads[t].flagged
  {
    var r1 := Flag(cfg, s0, first, r, p, t);
    if r1.threads[t].pc.Elect? {
      r', p' := FromClosing(cfg, s0, first, r1, p, t);
    } else {
      r', p' := r1, p;
    }
  }

  ghost predicate BeforeTest(pc: PC)
  {
    || pc.PostCheck? || pc.CountPost? || pc.SendCheck? || pc.SendNow? || pc.CountSend?
    || pc.TimeCheck? || pc.TestSends?
  }

  /** From the sends on to the test. */
  lemma SendsToTest(cfg: Config, s0: System, first: bool, r: Rank, p: Rank, t: nat) returns (r': Rank, p': Rank)
    requires Reaches(cfg, s0, Sys(first, r, p)) && t < |r.threads| && |r.threads[t].slots| == cfg.inflight && r.timeUp
    requires var pc := r.threads[t].pc; BeforeTest(pc) && !pc.PostCheck? && !pc.CountPost?
    ensures At(cfg, s0, first, r', p', t, TestSends) && Drove(r, t, r') && OnlyInbox(p, p')
  {
    var pc := r.threads[t].pc;
    p' := p;
    if pc.TestSends? {
      r' := r;
    } else if pc.TimeCheck? {
      r' := TimeIsUp(cfg, s0, first, r, p, t);
    } else {
      var r1, p1 := FromSends(cfg, s0, first, r, p, t);
      r' := ReachTest(cfg, s0, first, r1, p1, t, r1.threads[t].pc.j);
      p' := p1;
    }
  }

  lemma ToTest(cfg: Config, s0: System, first: bool, r: Rank, p: Rank, t: nat) returns (r': Rank, p': Rank)
    requires Reaches(cfg, s0, Sys(first, r, p)) && t < |r.threads| && |r.threads[t].slots| == cfg.inflight && r.timeUp
    requires BeforeTest(r.threads[t].pc)
    ensures At(cfg, s0, first, r', p', t, TestSends) && Drove(r, t, r') && OnlyInbox(p, p')
  {
    var r1 := r;
    if r.threads[t].pc.PostCheck? || r.threads[t].pc.CountPost? {
      r1 := FromPosts(cfg, s0, first, r, p, t);
    }
    r', p' := SendsToTest(cfg, s0, first, r1, p, t);
  }

  /** Any thread inside the loop gets to the end of its round; it is counted if it started before the test. */
  lemma ToLoopFlag(cfg: Config, s0: System, first: bool, r: Rank, p: Rank, t: nat) returns (r': Rank, p': Rank)
    requires Reaches(cfg, s0, Sys(first, r, p)) && t < |r.threads| && |r.threads[t].slots| == cfg.inflight && r.timeUp
    requires var pc := r.threads[t].pc; !InExit(pc) && !pc.Thrown? && !pc.LoopCount?
    ensures At(cfg, s0, first, r', p', t, LoopFlag) && Drove(r, t, r') && OnlyInbox(p, p')
    ensures BeforeTest(r.threads[t].pc) ==> r'.threads[t].flagged
  {
    var pc := r.threads[t].pc;
    if pc.LoopFlag? {
      r', p' := r, p;
    } else if IsActing(pc) {
      r' := FromActing(cfg, s0, first, r, p, t);
      p' := p;
    } else {
      var r1, p1 := ToMaster(cfg, s0, first, r, p, t);
      r' := PassMaster(cfg, s0, first, r1, p1, t);
      p' := p1;
    }
  }

  lemma FromActing(cfg: Config, s0: System, first: bool, r: Rank, p: Rank, t: nat) returns (r': Rank)
    requires Reaches(cfg, s0, Sys(first, r, p)) && t < |r.threads| && |r.threads[t].slots| == cfg.inflight
    requires IsActing(r.threads[t].pc)
    ensures At(cfg, s0, first, r', p, t, LoopFlag) && Drove(r, t, r')
  {
    var pc := r.threads[t].pc;
    if pc.SetChecked? {
      r' := Check(cfg, s0, first, r, p, t);
    } else {
      r' := Store(cfg, s0, first, r, p, t, pc.v);
    }
    DroveGoto(r, t, LoopFlag, r');
  }

  lemma PassMaster(cfg: Config, s0: System, first: bool, r: Rank, p: Rank, t: nat) returns (r': Rank)
    requires At(cfg, s0, first, r, p, t, MasterCheck)
    ensures At(cfg, s0, first, r', p, t, LoopFlag) && r' == Goto(r, t, LoopFlag) && Drove(r, t, r')
  {
    r' := Goto(r, t, LoopFlag);
    Move(cfg, s0, first, Checking, r, p, t, r', p);
    DroveGoto(r, t, LoopFlag, r');
  }

  lemma ToMaster(cfg: Config, s0: System, first: bool, r: Rank, p: Rank, t: nat) returns (r': Rank, p': Rank)
    requires Reaches(cfg, s0, Sys(first, r, p)) && t < |r.threads| && |r.threads[t].slots| == cfg.inflight && r.timeUp
    requires var pc := r.threads[t].pc; BeforeTest(pc) || IsClosing(r.threads[t]) || pc.MasterCheck?
    ensures At(cfg, s0, first, r', p', t, MasterCheck) && Drove(r, t, r') && OnlyInbox(p, p')
    ensures BeforeTest(r.threads[t].pc) ==> r'.threads[t].flagged
  {
    if r.threads[t].pc.MasterCheck? {
      r', p' := r, p;
    } else if IsClosing(r.threads[t]) {
      r', p' := FromClosing(cfg, s0, first, r, p, t);
    } else {
      var r1, p1 := ToTest(cfg, s0, first, r, p, t);
      r', p' := FromTest(cfg, s0, first, r1, p1, t);
    }
  }

  // ---------- all threads counted ----------

  /** The thread is in the exit section, or counted and at the end of a round. */
  ghost predicate Parked(th: Thread) { InExit(th.pc) || (th.pc.LoopFlag? && th.flagged) }

  ghost predicate AllParked(r: Rank) { forall t :: 0 <= t < |r.threads| ==> Parked(r.threads[t]) }

  lemma SlotsOf(cfg: Config, s0: System, first: bool, r: Rank, p: Rank, t: nat)
    requires Now(cfg, s0, first, r, p) && t < |r.threads|
    ensures |r.threads[t].slots| == cfg.inflight && !r.threads[t].pc.Thrown?
    ensures r.checked ==> r.threads[t].flagged
    ensures r.threads[t].pc.LoopCount? ==> r.checked
  {
    Known(cfg, s0, first, r, p);
    assert ThreadOk(cfg, r, r.threads[t]);
    if r.checked { CheckedClosed(cfg, r, p); }
  }

  /** The loop condition, evaluated by a thread at the end of its round. */
  lemma LoopTest(cfg: Config, s0: System, first: bool, r: Rank, p: Rank, t: nat) returns (r': Rank)
    requires At(cfg, s0, first, r, p, t, LoopFlag)
    ensures r' == Goto(r, t, if r.checked && r.recvPosted == r.expected + cfg.threads * cfg.inflight
                             then Barrier1 else PostCheck(0))
    ensures At(cfg, s0, first, r', p, t, r'.threads[t].pc)
  {
    if r.checked {
      var r1 := Goto(r, t, LoopCount);
      Move(cfg, s0, first, Checking, r, p, t, r1, p);
      r' := CountTest(cfg, s0, first, r1, p, t);
      GotoTwice(r, t, LoopCount, r'.threads[t].pc);
    } else {
      r' := Goto(r, t, PostCheck(0));
      Move(cfg, s0, first, Checking, r, p, t, r', p);
    }
  }

  lemma CountTest(cfg: Config, s0: System, first: bool, r: Rank, p: Rank, t: nat) returns (r': Rank)
    requires At(cfg, s0, first, r, p, t, LoopCount)
    ensures r' == Goto(r, t, if r.recvPosted == r.expected + cfg.threads * cfg.inflight then Barrier1 else PostCheck(0))
    ensures At(cfg, s0, first, r', p, t, r'.threads[t].pc)
  {
    r' := Goto(r, t, if r.recvPosted == r.expected + cfg.threads * cfg.inflight then Barrier1 else PostCheck(0));
    Move(cfg, s0, first, Checking, r, p, t, r', p);
  }

  /** A thread at the end of a round that is not counted yet goes round once more. */
  lemma OnceMore(cfg: Config, s0: System, first: bool, r: Rank, p: Rank, t: nat) returns (r': Rank, p': Rank)
    requires Now(cfg, s0, first, r, p) && At(cfg, s0, first, r, p, t, LoopFlag) && r.timeUp && !r.threads[t].flagged
    ensures Now(cfg, s0, first, r', p') && Drove(r, t, r') && OnlyInbox(p, p') && Parked(r'.threads[t])
  {
    SlotsOf(cfg, s0, first, r, p, t);
    var r1 := LoopTest(cfg, s0, first, r, p, t);
    r', p' := ToLoopFlag(cfg, s0, first, r1, p, t);
  }

  lemma Park(cfg: Config, s0: System, first: bool, r: Rank, p: Rank, t: nat) returns (r': Rank, p': Rank)
    requires Now(cfg, s0, first, r, p) && t < |r.threads| && r.timeUp
    ensures Now(cfg, s0, first, r', p') && Drove(r, t, r') && OnlyInbox(p, p') && Parked(r'.threads[t])
  {
    SlotsOf(cfg, s0, first, r, p, t);
    r', p' := r, p;
    if r.threads[t].pc.LoopCount? {
      r' := CountTest(cfg, s0, first, r, p, t);
    }
    if !InExit(r'.threads[t].pc) {
      r', p' := ToLoopFlag(cfg, s0, first, r', p, t);
      if !r'.threads[t].flagged {
        r', p' := OnceMore(cfg, s0, first, r', p', t);
      }
    }
  }

  lemma {:induction false} ParkAll(cfg: Config, s0: System, first: bool, r: Rank, p: Rank, k: nat)
    returns (r': Rank, p': Rank)
    requires Now(cfg, s0, first, r, p) && r.timeUp && k <= |r.threads|
    requires forall t :: 0 <= t < k ==> Parked(r.threads[t])
    ensures Now(cfg, s0, first, r', p') && r'.timeUp && AllParked(r') && OnlyInbox(p, p')
    decreases |r.threads| - k
  {
    r', p' := r, p;
    if k < |r.threads| {
      r', p' := Park(cfg, s0, first, r, p, k);
      r', p' := ParkAll(cfg, s0, first, r', p', k + 1);
    }
  }

  lemma ParkedClosed(cfg: Config, r: Rank, p: Rank)
    requires ValidConfig(cfg) && Inv(cfg, r, p) && Elected(cfg, r, p) && AllParked(r)
    ensures Closed(r) && 0 <= r.master < |r.threads| && !r.doneRecv.NotPosted? && Sent(p)
  {
    if t :| 0 <= t < |r.threads| && InExit(r.threads[t].pc) {
      assert Drained(r, p);
      CheckedClosed(cfg, r, p);
    }
    CountExtremes(r.threads, IsFlagged);
    CountExtremes(r.threads, IsClosing);
  }

  // ---------- the totals are exchanged ----------

  /** A counted thread goes through the loop once, as far as the check of the total; all its slots are posted. */
  lemma FillRound(cfg: Config, s0: System, first: bool, r: Rank, p: Rank, t: nat) returns (r': Rank)
    requires At(cfg, s0, first, r, p, t, PostCheck(0)) && r.timeUp && r.threads[t].flagged
    ensures At(cfg, s0, first, r', p, t, MasterCheck) && OnlyPosts(r, t, r') && FilledFrom(r'.threads[t], 0)
  {
    var r1 := WalkPosts(cfg, s0, first, r, p, t, 0);
    var r2 := ReachTest(cfg, s0, first, r1, p, t, 0);
    r' := Goto(r2, t, MasterCheck);
    Move(cfg, s0, first, Testing, r2, p, t, r', p);
    GotoTwice(r1, t, TestSends, MasterCheck);
  }

  /** The first message of the same thread with the same tag. */
  lemma Earliest(inbox: seq<Msg>, k: nat) returns (q: nat)
    requires k < |inbox|
    ensures q <= k && inbox[q].tag == inbox[k].tag && InOrder(inbox, q)
  {
    q := k;
    if i :| 0 <= i < k && inbox[i].tag == inbox[k].tag && inbox[i].from == inbox[k].from {
      q := Earliest(inbox, i);
    }
  }

  /** The done message is delivered, if it has not been. */
  lemma ReceiveTotal(cfg: Config, s0: System, first: bool, r: Rank, p: Rank) returns (r': Rank)
    requires Now(cfg, s0, first, r, p) && Sent(r) && !r.doneRecv.NotPosted?
    ensures Now(cfg, s0, first, r', p) && r'.doneRecv.Got?
    ensures r' == r.(inbox := r'.inbox, doneRecv := r'.doneRecv)
  {
    if r.doneRecv.Got? {
      r' := r;
    } else {
      var k: nat :| k < |r.inbox| && r.inbox[k].tag == DONE_TAG;
      var q := Earliest(r.inbox, k);
      Known(cfg, s0, first, r, p);
      r' := r.(inbox := Without(r.inbox, q), doneRecv := Got(r.inbox[q].value));
      assert DeliverDone(r, q, r');
      Extend(cfg, s0, first, r, p, r', p);
    }
  }

  /** The master thread goes through one round and acts on the total. */
  lemma MasterActs(cfg: Config, s0: System, first: bool, r: Rank, p: Rank) returns (r': Rank)
    requires Now(cfg, s0, first, r, p) && AllParked(r) && r.timeUp && !r.checked
    requires r.doneRecv.Got? && 0 <= r.master < |r.threads|
    ensures Now(cfg, s0, first, r', p) && AllParked(r') && r'.timeUp && r'.checked
  {
    var m := r.master;
    SlotsOf(cfg, s0, first, r, p, m);
    NoExitYet(cfg, s0, first, r, p, m);
    var r1 := LoopTest(cfg, s0, first, r, p, m);
    var r2 := FillRound(cfg, s0, first, r1, p, m);
    r' := ActOnTotal(cfg, s0, first, r2, p, m, r2.doneRecv.value);
  }

  /** No thread is in the exit section before the total is checked. */
  lemma NoExitYet(cfg: Config, s0: System, first: bool, r: Rank, p: Rank, t: nat)
    requires Now(cfg, s0, first, r, p) && t < |r.threads| && !r.checked
    ensures !InExit(r.threads[t].pc)
  {
    Known(cfg, s0, first, r, p);
  }

  lemma GetTotal(cfg: Config, s0: System, first: bool, r: Rank, p: Rank) returns (r': Rank)
    requires Now(cfg, s0, first, r, p) && AllParked(r) && AllParked(p) && r.timeUp
    ensures Now(cfg, s0, first, r', p) && AllParked(r') && r'.timeUp && r'.checked
  {
    if r.checked {
      r' := r;
    } else {
      Known(cfg, s0, first, r, p);
      ParkedClosed(cfg, r, p);
      ParkedClosed(cfg, p, r);
      var r1 := ReceiveTotal(cfg, s0, first, r, p);
      r' := MasterActs(cfg, s0, first, r1, p);
    }
  }

  // ---------- everything the peer sent is received ----------

  ghost predicate Ready(cfg: Config, s0: System, first: bool, r: Rank, p: Rank)
  {
    Now(cfg, s0, first, r, p) && AllParked(r) && r.timeUp && r.checked
  }

  /** While data is left, no thread is in the exit section and the loop condition does not hold. */
  lemma DataKeepsLooping(cfg: Config, s0: System, first: bool, r: Rank, p: Rank, t: nat)
    requires Ready(cfg, s0, first, r, p) && t < |r.threads| && Count(r.inbox, DataMsg(cfg)) > 0
    ensures !InExit(r.threads[t].pc) && |r.threads[t].slots| == cfg.inflight
    ensures r.recvPosted != r.expected + cfg.threads * cfg.inflight
  {
    Known(cfg, s0, first, r, p);
    assert ThreadOk(cfg, r, r.threads[t]);
    if r.recvPosted == r.expected + cfg.threads * cfg.inflight && !InExit(r.threads[t].pc) {
      WouldLeave(cfg, s0, first, r, p, t);
    }
  }

  /** If the loop condition holds for a thread at the end of a round, nothing is left to receive. */
  lemma WouldLeave(cfg: Config, s0: System, first: bool, r: Rank, p: Rank, t: nat)
    requires Ready(cfg, s0, first, r, p) && t < |r.threads| && !InExit(r.threads[t].pc)
    requires r.recvPosted == r.expected + cfg.threads * cfg.inflight
    ensures Count(r.inbox, DataMsg(cfg)) == 0
  {
    SlotsOf(cfg, s0, first, r, p, t);
    var r1 := LoopTest(cfg, s0, first, r, p, t);
    Known(cfg, s0, first, r1, p);
    assert InExit(r1.threads[t].pc);
    assert Drained(r1, p);
  }

  /** One round of thread `t` at the end of which all its slots are posted, unless it leaves the loop. */
  lemma GoRound(cfg: Config, s0: System, first: bool, r: Rank, p: Rank, t: nat) returns (r': Rank)
    requires Ready(cfg, s0, first, r, p) && t < |r.threads| && !InExit(r.threads[t].pc)
    requires r.recvPosted != r.expected + cfg.threads * cfg.inflight
    ensures Ready(cfg, s0, first, r', p) && OnlyPosts(r, t, r')
    ensures !InExit(r'.threads[t].pc) && FilledFrom(r'.threads[t], 0)
  {
    SlotsOf(cfg, s0, first, r, p, t);
    var r1 := LoopTest(cfg, s0, first, r, p, t);
    var r2 := FillRound(cfg, s0, first, r1, p, t);
    r' := PassMaster(cfg, s0, first, r2, p, t);
  }

  /** One data message is received. */
  lemma TakeData(cfg: Config, s0: System, first: bool, r: Rank, p: Rank) returns (r': Rank)
    requires Ready(cfg, s0, first, r, p) && Count(r.inbox, DataMsg(cfg)) > 0
    ensures Ready(cfg, s0, first, r', p) && Count(r'.inbox, DataMsg(cfg)) < Count(r.inbox, DataMsg(cfg))
  {
    CountExtremes(r.inbox, DataMsg(cfg));
    var k: nat :| k < |r.inbox| && DataMsg(cfg)(r.inbox[k]);
    var q := Earliest(r.inbox, k);
    Known(cfg, s0, first, r, p);
    DataKeepsLooping(cfg, s0, first, r, p, 0);
    var r1 := GoRound(cfg, s0, first, r, p, 0);
    SlotsOf(cfg, s0, first, r1, p, 0);
    r' := DeliverAt(cfg, s0, first, r1, p, q);
  }

  lemma DeliverAt(cfg: Config, s0: System, first: bool, r: Rank, p: Rank, q: nat) returns (r': Rank)
    requires Ready(cfg, s0, first, r, p) && q < |r.inbox| && DataMsg(cfg)(r.inbox[q]) && InOrder(r.inbox, q)
    requires |r.threads| > 0 && |r.threads[0].slots| == cfg.inflight && FilledFrom(r.threads[0], 0)
    ensures Ready(cfg, s0, first, r', p) && Count(r'.inbox, DataMsg(cfg)) < Count(r.inbox, DataMsg(cfg))
  {
    var j := r.inbox[q].tag;
    r' := SetSlot(r, 0, j, false, r.threads[0].pc).(inbox := Without(r.inbox, q), received := r.received + 1);
    assert DeliverStep(r, 0, j, q, r');
    Extend(cfg, s0, first, r, p, r', p);
    CountRemove(r.inbox, q, DataMsg(cfg));
  }

  lemma {:induction false} DrainInbox(cfg: Config, s0: System, first: bool, r: Rank, p: Rank) returns (r': Rank)
    requires Ready(cfg, s0, first, r, p)
    ensures Ready(cfg, s0, first, r', p) && Count(r'.inbox, DataMsg(cfg)) == 0
    decreases Count(r.inbox, DataMsg(cfg))
  {
    r' := r;
    if Count(r.inbox, DataMsg(cfg)) > 0 {
      r' := TakeData(cfg, s0, first, r, p);
      r' := DrainInbox(cfg, s0, first, r', p);
    }
  }

  // ---------- all threads leave the loop ----------

  ghost predicate Drawn(cfg: Config, s0: System, first: bool, r: Rank, p: Rank)
  {
    Ready(cfg, s0, first, r, p) && Count(r.inbox, DataMsg(cfg)) == 0
  }

  ghost predicate AllFilled(r: Rank) { forall t :: 0 <= t < |r.threads| ==> FilledFrom(r.threads[t], 0) }

  /** If one thread is in the exit section and another is not, all slots are posted and none is cancelled. */
  lemma ExitMeansFilled(cfg: Config, r: Rank, p: Rank, t: nat, u: nat)
    requires Inv(cfg, r, p) && t < |r.threads| && u < |r.threads| && InExit(r.threads[t].pc) && !InExit(r.threads[u].pc)
    ensures AllFilled(r)
  {
    assert Drained(r, p);
    forall v | 0 <= v < |r.threads| ensures FilledFrom(r.threads[v], 0) {
      assert ThreadDrained(r.threads[v]);
    }
  }

  /** With everything received and all slots posted the loop condition holds. */
  lemma ConditionHolds(cfg: Config, s0: System, first: bool, r: Rank, p: Rank, u: nat)
    requires Drawn(cfg, s0, first, r, p) && AllFilled(r) && u < |r.threads| && !InExit(r.threads[u].pc)
    ensures r.recvPosted == r.expected + cfg.threads * cfg.inflight
  {
    Known(cfg, s0, first, r, p);
    CountExtremes(r.threads, AtCountPost);
    CountExtremes(r.threads, AtCountCancel);
    FilledSum(cfg, r);
  }

  lemma FilledSum(cfg: Config, r: Rank)
    requires Shape(cfg, r) && AllFilled(r)
    ensures Sum(r.threads, OutstandingOf) == cfg.threads * cfg.inflight
  {
    forall th | th in r.threads ensures OutstandingOf(th) == cfg.inflight {
      var t :| 0 <= t < |r.threads| && r.threads[t] == th;
      assert ThreadOk(cfg, r, r.threads[t]);
      CountExtremes(th.slots, Holds);
    }
    SumAtMost(r.threads, OutstandingOf, cfg.inflight);
  }

  /** Every thread posts all its slots, unless some thread is already in the exit section. */
  lemma {:induction false} FillAll(cfg: Config, s0: System, first: bool, r: Rank, p: Rank, k: nat) returns (r': Rank)
    requires Drawn(cfg, s0, first, r, p) && k <= |r.threads|
    requires forall t :: 0 <= t < |r.threads| ==> !InExit(r.threads[t].pc)
    requires forall t :: 0 <= t < k ==> FilledFrom(r.threads[t], 0)
    ensures Drawn(cfg, s0, first, r', p) && |r'.threads| == |r.threads|
    ensures (exists t :: 0 <= t < |r'.threads| && InExit(r'.threads[t].pc)) || AllFilled(r')
    decreases |r.threads| - k
  {
    if k == |r.threads| {
      r' := r;
    } else if r.recvPosted == r.expected + cfg.threads * cfg.inflight {
      r' := LeaveLoop(cfg, s0, first, r, p, k);
      assert InExit(r'.threads[k].pc);
    } else {
      var r1 := GoRound(cfg, s0, first, r, p, k);
      r' := FillAll(cfg, s0, first, r1, p, k + 1);
    }
  }

  /** One thread leaves the loop. */
  lemma LeaveLoop(cfg: Config, s0: System, first: bool, r: Rank, p: Rank, t: nat) returns (r': Rank)
    requires Drawn(cfg, s0, first, r, p) && t < |r.threads| && !InExit(r.threads[t].pc)
    requires r.recvPosted == r.expected + cfg.threads * cfg.inflight
    ensures Drawn(cfg, s0, first, r', p) && r' == Goto(r, t, Barrier1)
  {
    SlotsOf(cfg, s0, first, r, p, t);
    r' := LoopTest(cfg, s0, first, r, p, t);
  }

  lemma {:induction false} LeaveAll(cfg: Config, s0: System, first: bool, r: Rank, p: Rank, k: nat) returns (r': Rank)
    requires Drawn(cfg, s0, first, r, p) && AllFilled(r) && k <= |r.threads|
    requires forall t :: 0 <= t < k ==> InExit(r.threads[t].pc)
    ensures Now(cfg, s0, first, r', p) && forall t :: 0 <= t < |r'.threads| ==> InExit(r'.threads[t].pc)
    decreases |r.threads| - k
  {
    if k == |r.threads| {
      r' := r;
    } else if InExit(r.threads[k].pc) {
      r' := LeaveAll(cfg, s0, first, r, p, k + 1);
    } else {
      ConditionHolds(cfg, s0, first, r, p, k);
      var r1 := LeaveLoop(cfg, s0, first, r, p, k);
      r' := LeaveAll(cfg, s0, first, r1, p, k + 1);
    }
  }

  ghost predicate AllOut(r: Rank) { forall t :: 0 <= t < |r.threads| ==> InExit(r.threads[t].pc) }

  lemma AllLeave(cfg: Config, s0: System, first: bool, r: Rank, p: Rank) returns (r': Rank)
    requires Drawn(cfg, s0, first, r, p)
    ensures Now(cfg, s0, first, r', p) && AllOut(r')
  {
    var r1 := r;
    if forall t :: 0 <= t < |r.threads| ==> !InExit(r.threads[t].pc) {
      r1 := FillAll(cfg, s0, first, r, p, 0);
    }
    if AllOut(r1) {
      r' := r1;
    } else {
      var u :| 0 <= u < |r1.threads| && !InExit(r1.threads[u].pc);
      if t :| 0 <= t < |r1.threads| && InExit(r1.threads[t].pc) {
        Known(cfg, s0, first, r1, p);
        ExitMeansFilled(cfg, r1, p, t, u);
      }
      r' := LeaveAll(cfg, s0, first, r1, p, 0);
    }
  }

  // ---------- the exit section ----------

  /** Thread `t` cancels its receives from slot `j` on. */
  lemma {:induction false} CancelFrom(cfg: Config, s0: System, first: bool, r: Rank, p: Rank, t: nat, j: nat)
    returns (r': Rank)
    requires Now(cfg, s0, first, r, p) && t < |r.threads| && r.threads[t].pc == CancelSlot(j)
    ensures Now(cfg, s0, first, r', p) && Drove(r, t, r') && InBarrier2(r'.threads[t].pc)
    decreases if j < cfg.inflight then cfg.inflight - j else 0
  {
    SlotsOf(cfg, s0, first, r, p, t);
    if j >= cfg.inflight {
      r' := Goto(r, t, Barrier2);
      Move(cfg, s0, first, Exiting, r, p, t, r', p);
    } else {
      var r1 := CancelOne(cfg, s0, first, r, p, t, j);
      r' := CancelFrom(cfg, s0, first, r1, p, t, j + 1);
    }
  }

  lemma CancelOne(cfg: Config, s0: System, first: bool, r: Rank, p: Rank, t: nat, j: nat) returns (r': Rank)
    requires Now(cfg, s0, first, r, p) && t < |r.threads| && r.threads[t].pc == CancelSlot(j) && j < cfg.inflight
    requires |r.threads[t].slots| == cfg.inflight
    ensures Now(cfg, s0, first, r', p) && Drove(r, t, r') && r'.threads[t].pc == CancelSlot(j + 1)
  {
    SlotOutstanding(cfg, s0, first, r, p, t, j);
    var r1 := SetSlot(r, t, j, false, CountCancel(j)).(cancelled := r.cancelled + 1);
    Move(cfg, s0, first, Exiting, r, p, t, r1, p);
    r' := Goto(r1, t, CancelSlot(j + 1)).(recvPosted := r1.recvPosted - 1);
    Move(cfg, s0, first, Exiting, r1, p, t, r', p);
  }

  lemma SlotOutstanding(cfg: Config, s0: System, first: bool, r: Rank, p: Rank, t: nat, j: nat)
    requires Now(cfg, s0, first, r, p) && t < |r.threads| && r.threads[t].pc == CancelSlot(j) && j < cfg.inflight
    requires |r.threads[t].slots| == cfg.inflight
    ensures r.threads[t].slots[j]
  {
    Known(cfg, s0, first, r, p);
    assert Drained(r, p);
    assert ThreadDrained(r.threads[t]);
  }

  lemma ToBarrier2(cfg: Config, s0: System, first: bool, r: Rank, p: Rank, t: nat) returns (r': Rank)
    requires Now(cfg, s0, first, r, p) && AllOut(r) && t < |r.threads|
    ensures Now(cfg, s0, first, r', p) && Drove(r, t, r') && InBarrier2(r'.threads[t].pc)
  {
    if InBarrier2(r.threads[t].pc) {
      r' := r;
    } else {
      var r1 := ToCancels(cfg, s0, first, r, p, t);
      r' := CancelFrom(cfg, s0, first, r1, p, t, r1.threads[t].pc.j);
    }
  }

  /** A thread in the exit section gets to its cancels. */
  lemma ToCancels(cfg: Config, s0: System, first: bool, r: Rank, p: Rank, t: nat) returns (r': Rank)
    requires Now(cfg, s0, first, r, p) && AllOut(r) && t < |r.threads| && !InBarrier2(r.threads[t].pc)
    ensures Now(cfg, s0, first, r', p) && Drove(r, t, r') && r'.threads[t].pc.CancelSlot?
  {
    match r.threads[t].pc
    case Barrier1 =>
      r' := Goto(r, t, CancelSlot(0));
      Move(cfg, s0, first, Exiting, r, p, t, r', p);
      DroveGoto(r, t, CancelSlot(0), r');
    case CountCancel(j) =>
      r' := Goto(r, t, CancelSlot(j + 1)).(recvPosted := r.recvPosted - 1);
      Move(cfg, s0, first, Exiting, r, p, t, r', p);
      DroveGoto(r, t, CancelSlot(j + 1), r');
    case _ => r' := r;
  }

  lemma {:induction false} AllToBarrier2(cfg: Config, s0: System, first: bool, r: Rank, p: Rank, k: nat)
    returns (r': Rank)
    requires Now(cfg, s0, first, r, p) && AllOut(r) && k <= |r.threads|
    requires forall t :: 0 <= t < k ==> InBarrier2(r.threads[t].pc)
    ensures Now(cfg, s0, first, r', p) && forall t :: 0 <= t < |r'.threads| ==> InBarrier2(r'.threads[t].pc)
    decreases |r.threads| - k
  {
    r' := r;
    if k < |r.threads| {
      var r1 := ToBarrier2(cfg, s0, first, r, p, k);
      r' := AllToBarrier2(cfg, s0, first, r1, p, k + 1);
    }
  }

  ghost predicate AllIn(r: Rank) { forall t :: 0 <= t < |r.threads| ==> InBarrier2(r.threads[t].pc) }

  lemma FinishThread(cfg: Config, s0: System, first: bool, r: Rank, p: Rank, t: nat) returns (r': Rank)
    requires Now(cfg, s0, first, r, p) && AllIn(r) && t < |r.threads|
    ensures Now(cfg, s0, first, r', p) && Drove(r, t, r') && r'.threads[t].pc.Finished?
  {
    var r1 := r;
    if r.threads[t].pc.Barrier2? {
      r1 := Goto(r, t, FinalCheck);
      Move(cfg, s0, first, Exiting, r, p, t, r1, p);
      DroveGoto(r, t, FinalCheck, r1);
    }
    r' := r1;
    if r1.threads[t].pc.FinalCheck? {
      r' := LastCheck(cfg, s0, first, r1, p, t);
    }
  }

  /** The final comparison agrees. */
  lemma LastCheck(cfg: Config, s0: System, first: bool, r: Rank, p: Rank, t: nat) returns (r': Rank)
    requires Now(cfg, s0, first, r, p) && t < |r.threads| && r.threads[t].pc.FinalCheck?
    ensures Now(cfg, s0, first, r', p) && Drove(r, t, r') && r'.threads[t].pc.Finished?
  {
    CountsAgree(cfg, s0, first, r, p, t);
    r' := Goto(r, t, Finished);
    Move(cfg, s0, first, Exiting, r, p, t, r', p);
    DroveGoto(r, t, Finished, r');
  }

  lemma CountsAgree(cfg: Config, s0: System, first: bool, r: Rank, p: Rank, t: nat)
    requires Now(cfg, s0, first, r, p) && t < |r.threads| && r.threads[t].pc.FinalCheck?
    ensures r.recvPosted == r.expected
  {
    Known(cfg, s0, first, r, p);
    FinalCountRight(cfg, r, p, t);
  }

  ghost predicate RankFinished(r: Rank) { forall t :: 0 <= t < |r.threads| ==> r.threads[t].pc.Finished? }

  lemma {:induction false} FinishAll(cfg: Config, s0: System, first: bool, r: Rank, p: Rank, k: nat) returns (r': Rank)
    requires Now(cfg, s0, first, r, p) && AllIn(r) && k <= |r.threads|
    requires forall t :: 0 <= t < k ==> r.threads[t].pc.Finished?
    ensures Now(cfg, s0, first, r', p) && RankFinished(r')
    decreases |r.threads| - k
  {
    r' := r;
    if k < |r.threads| {
      var r1 := FinishThread(cfg, s0, first, r, p, k);
      r' := FinishAll(cfg, s0, first, r1, p, k + 1);
    }
  }

  // ---------- both ranks ----------

  /** A rank that has its peer's total finishes on its own. */
  lemma FinishRank(cfg: Config, s0: System, first: bool, r: Rank, p: Rank) returns (r': Rank)
    requires Ready(cfg, s0, first, r, p)
    ensures Now(cfg, s0, first, r', p) && RankFinished(r')
  {
    var r1 := DrainInbox(cfg, s0, first, r, p);
    var r2 := AllLeave(cfg, s0, first, r1, p);
    var r3 := AllToBarrier2(cfg, s0, first, r2, p, 0);
    r' := FinishAll(cfg, s0, first, r3, p, 0);
  }

  /** Time is up on both ranks and all threads are counted. */
  lemma CountEveryone(cfg: Config, s: System) returns (a: Rank, b: Rank)
    requires ValidConfig(cfg) && Reachable(cfg, s)
    ensures Now(cfg, s, true, a, b) && AllParked(a) && AllParked(b) && a.timeUp && b.timeUp
  {
    Stay(cfg, s);
    assert s == Sys(true, s.a, s.b);
    var a1 := s.a.(timeUp := true);
    Extend(cfg, s, true, s.a, s.b, a1, s.b);
    var a2, b2 := ParkAll(cfg, s, true, a1, s.b, 0);
    assert Sys(true, a2, b2) == Sys(false, b2, a2);
    var b3 := b2.(timeUp := true);
    Extend(cfg, s, false, b2, a2, b3, a2);
    var b4, a4 := ParkAll(cfg, s, false, b3, a2, 0);
    assert Sys(false, b4, a4) == Sys(true, a4, b4);
    a, b := a4, b4;
  }

  lemma ExchangeTotals(cfg: Config, s: System, a: Rank, b: Rank) returns (a': Rank, b': Rank)
    requires Now(cfg, s, true, a, b) && AllParked(a) && AllParked(b) && a.timeUp && b.timeUp
    ensures Ready(cfg, s, true, a', b') && Ready(cfg, s, false, b', a')
  {
    a' := GetTotal(cfg, s, true, a, b);
    assert Sys(true, a', b) == Sys(false, b, a');
    b' := GetTotal(cfg, s, false, b, a');
    assert Sys(true, a', b') == Sys(false, b', a');
  }

  /** Termination detection terminates: from every reachable state there is a continuation in which every thread of
      both ranks finishes. */
  lemma AlwaysCanFinish(cfg: Config, s: System) returns (s': System)
    requires ValidConfig(cfg) && Reachable(cfg, s)
    ensures Reaches(cfg, s, s') && RankFinished(s'.a) && RankFinished(s'.b)
  {
    var a1, b1 := CountEveryone(cfg, s);
    var a2, b2 := ExchangeTotals(cfg, s, a1, b1);
    var a3 := FinishRank(cfg, s, true, a2, b2);
    assert Sys(true, a3, b2) == Sys(false, b2, a3);
    var b3 := FinishRank(cfg, s, false, b2, a3);
    s' := Sys(false, b3, a3);
  }
}
