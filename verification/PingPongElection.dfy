/** Each rank elects one thread to exchange the totals, once, and its total does not get lost. */
module PingPongElection {
  import opened Counting
  import opened PingPong
  import opened PingPongSafety

  predicate IsClosing(th: Thread) { th.pc.Elect? || th.pc.PostDone? || th.pc.SendDone? }

  predicate IsActing(pc: PC) { pc.StoreExpected? || pc.SetChecked? }

  /** The total of the peer of `r` has been received by `r` or waits in its inbox. */
  ghost predicate Sent(r: Rank)
  {
    r.doneRecv.Got? || exists q :: 0 <= q < |r.inbox| && r.inbox[q].tag == DONE_TAG
  }

  ghost predicate ClosingOk(r: Rank, t: nat, pc: PC)
  {
    && (pc.Elect? || pc.PostDone? ==> r.doneRecv.NotPosted?)
    && (pc.PostDone? || pc.SendDone? ==> r.master == t)
    && (pc.SendDone? ==> !r.doneRecv.NotPosted?)
    && (IsActing(pc) ==> r.doneRecv.Got?)
  }

  /** Before the last thread is counted nothing is exchanged; then one thread sees to it, or has done so. */
  ghost predicate Elected(cfg: Config, r: Rank, p: Rank)
  {
    && |r.threads| == cfg.threads && Count(r.threads, IsClosing) <= 1 && r.doneRecv != Outstanding(true)
    && (r.completed < cfg.threads ==> Count(r.threads, IsClosing) == 0 && r.doneRecv.NotPosted?)
    && (r.completed == cfg.threads && Count(r.threads, IsClosing) == 0 ==>
          0 <= r.master < cfg.threads && !r.doneRecv.NotPosted? && Sent(p))
    && (r.checked ==> r.doneRecv.Got?)
    && (forall t :: 0 <= t < |r.threads| ==> ClosingOk(r, t, r.threads[t].pc))
  }

  /** What a step on the side of `r` has to do to `r` itself. */
  ghost predicate ElectStep(cfg: Config, r: Rank, t: nat, r': Rank, p': Rank)
  {
    && t < |r.threads| == |r'.threads| && r'.threads == r.threads[t := r'.threads[t]]
    && (r'.checked ==> r'.doneRecv.Got?) && r'.doneRecv != Outstanding(true)
    && ClosingOk(r', t, r'.threads[t].pc)
    && (IsClosing(r.threads[t]) || (r'.master == r.master && r'.doneRecv == r.doneRecv))
    && (r'.completed == r.completed || (!IsClosing(r.threads[t]) && r'.completed == r.completed + 1))
    && var closing, closing' := IsClosing(r.threads[t]), IsClosing(r'.threads[t]);
       && (closing' && !closing ==> r.completed + 1 == r'.completed == cfg.threads)
       && (!closing' && !closing && r'.completed == r.completed + 1 ==> r'.completed != cfg.threads)
       && (closing && !closing' ==> 0 <= r'.master < cfg.threads && !r'.doneRecv.NotPosted? && Sent(p'))
       && (closing ==> r'.doneRecv == r.doneRecv || r.doneRecv.NotPosted?)
  }

  lemma ElectKept(cfg: Config, r: Rank, p: Rank, t: nat, r': Rank, p': Rank)
    requires Elected(cfg, r, p) && ElectStep(cfg, r, t, r', p') && (Sent(p) ==> Sent(p'))
    ensures Elected(cfg, r', p')
  {
    CountUpdate(r.threads, t, r'.threads[t], IsClosing);
    CountExtremes(r.threads, IsClosing);
    OthersStill(cfg, r, p, t, r', p');
  }

  /** The other threads are not closing when `t` is, and keep what they rely on. */
  lemma OthersStill(cfg: Config, r: Rank, p: Rank, t: nat, r': Rank, p': Rank)
    requires Elected(cfg, r, p) && ElectStep(cfg, r, t, r', p')
    ensures forall u :: 0 <= u < |r'.threads| ==> ClosingOk(r', u, r'.threads[u].pc)
  {
    forall u | 0 <= u < |r'.threads| && u != t ensures ClosingOk(r', u, r'.threads[u].pc) {
      assert ClosingOk(r, u, r.threads[u].pc);
      if IsClosing(r.threads[t]) && IsClosing(r.threads[u]) {
        TwoHits(r.threads, t, u);
      }
    }
  }

  lemma TwoHits(threads: seq<Thread>, t: nat, u: nat)
    requires t < |threads| && u < |threads| && t != u && IsClosing(threads[t]) && IsClosing(threads[u])
    ensures Count(threads, IsClosing) >= 2
  {
    var rest := threads[t := threads[t].(pc := LoopFlag)];
    CountUpdate(threads, t, threads[t].(pc := LoopFlag), IsClosing);
    CountExtremes(rest, IsClosing);
    assert IsClosing(rest[u]);
  }

  // ---------- the steps of a thread ----------

  /** A step that has nothing to do with the exchange of totals. */
  ghost predicate Apart(r: Rank, t: nat, r': Rank)
  {
    && t < |r.threads| == |r'.threads| && r'.threads == r.threads[t := r'.threads[t]]
    && r'.master == r.master && r'.doneRecv == r.doneRecv
    && r'.completed == r.completed && r'.checked == r.checked
    && !IsClosing(r.threads[t]) && !IsClosing(r'.threads[t]) && !IsActing(r'.threads[t].pc)
  }

  lemma ApartElect(cfg: Config, r: Rank, p: Rank, t: nat, r': Rank, p': Rank)
    requires Elected(cfg, r, p) && Apart(r, t, r')
    ensures ElectStep(cfg, r, t, r', p')
  {
  }

  lemma PostApart(r: Rank, t: nat, r': Rank)
    requires t < |r.threads| && PostStep(r, t, r')
    ensures Apart(r, t, r')
  {
  }

  lemma SendElect(cfg: Config, r: Rank, p: Rank, t: nat, r': Rank, p': Rank)
    requires Elected(cfg, r, p) && t < |r.threads| && SendStep(cfg, r, p, t, r', p')
    ensures ElectStep(cfg, r, t, r', p') && (Sent(p) ==> Sent(p'))
  {
    SendApart(cfg, r, p, t, r', p');
    ApartElect(cfg, r, p, t, r', p');
    if r.threads[t].pc.SendNow? { DepositKeepsSent(p, p'); }
  }

  lemma SendApart(cfg: Config, r: Rank, p: Rank, t: nat, r': Rank, p': Rank)
    requires t < |r.threads| && SendStep(cfg, r, p, t, r', p')
    ensures Apart(r, t, r')
  {
  }

  lemma DepositKeepsSent(p: Rank, p': Rank)
    requires exists m :: p' == Deposit(p, m)
    ensures Sent(p) ==> Sent(p')
  {
    if q :| 0 <= q < |p.inbox| && p.inbox[q].tag == DONE_TAG {
      assert p'.inbox[q] == p.inbox[q];
    }
  }

  lemma TestElect(cfg: Config, r: Rank, p: Rank, t: nat, r': Rank)
    requires Elected(cfg, r, p) && t < |r.threads| && TestStep(cfg, r, t, r') && r.completed <= cfg.threads
    ensures ElectStep(cfg, r, t, r', p)
  {
    assert ClosingOk(r, t, r.threads[t].pc);
  }

  lemma CloseElect(cfg: Config, r: Rank, p: Rank, t: nat, r': Rank, p': Rank)
    requires Elected(cfg, r, p) && t < |r.threads| && CloseStep(r, p, t, r', p')
    requires |r.threads[t].slots| <= DONE_TAG
    ensures ElectStep(cfg, r, t, r', p') && (Sent(p) ==> Sent(p'))
  {
    assert ClosingOk(r, t, r.threads[t].pc);
    if r.threads[t].pc.SendDone? { AnnounceElect(cfg, r, p, t, r', p'); }
  }

  lemma AnnounceElect(cfg: Config, r: Rank, p: Rank, t: nat, r': Rank, p': Rank)
    requires Elected(cfg, r, p) && t < |r.threads| && CloseStep(r, p, t, r', p') && r.threads[t].pc.SendDone?
    ensures ElectStep(cfg, r, t, r', p') && Sent(p')
  {
    assert ClosingOk(r, t, r.threads[t].pc);
    assert p'.inbox[|p.inbox|].tag == DONE_TAG;
  }

  lemma CheckElect(cfg: Config, r: Rank, p: Rank, t: nat, r': Rank)
    requires Elected(cfg, r, p) && t < |r.threads| && CheckStep(cfg, r, t, r')
    ensures ElectStep(cfg, r, t, r', p)
  {
    if InLoopTest(r.threads[t].pc) {
      LoopTestApart(cfg, r, t, r');
      ApartElect(cfg, r, p, t, r', p);
    } else {
      assert ClosingOk(r, t, r.threads[t].pc);
    }
  }

  lemma LoopTestApart(cfg: Config, r: Rank, t: nat, r': Rank)
    requires t < |r.threads| && CheckStep(cfg, r, t, r') && InLoopTest(r.threads[t].pc)
    ensures Apart(r, t, r')
  {
  }

  lemma ExitApart(r: Rank, t: nat, r': Rank)
    requires t < |r.threads| && ExitStep(r, t, r')
    ensures Apart(r, t, r')
  {
    if r.threads[t].pc.CancelSlot? { CancelApart(r, t, r.threads[t].pc.j, r'); }
  }

  lemma CancelApart(r: Rank, t: nat, j: nat, r': Rank)
    requires t < |r.threads| && CancelStep(r, t, j, r') && r.threads[t].pc == CancelSlot(j)
    ensures Apart(r, t, r')
  {
    if j < |r.threads[t].slots| && r.threads[t].slots[j] { CancelNowApart(r, t, j, r'); }
  }

  lemma CancelNowApart(r: Rank, t: nat, j: nat, r': Rank)
    requires t < |r.threads| && CancelStep(r, t, j, r') && r.threads[t].pc == CancelSlot(j)
    requires j < |r.threads[t].slots| && r.threads[t].slots[j]
    ensures Apart(r, t, r')
  {
  }

  lemma ThreadElect(cfg: Config, part: Part, r: Rank, p: Rank, t: nat, r': Rank, p': Rank)
    requires Elected(cfg, r, p) && r.completed <= cfg.threads && ThreadStep(cfg, part, r, p, t, r', p')
    requires |r.threads[t].slots| <= DONE_TAG
    ensures Elected(cfg, r', p')
  {
    match part {
      case Posting =>
        PostApart(r, t, r');
        ApartElect(cfg, r, p, t, r', p');
      case Sending => SendElect(cfg, r, p, t, r', p');
      case Testing => TestElect(cfg, r, p, t, r');
      case Closing => CloseElect(cfg, r, p, t, r', p');
      case Checking => CheckElect(cfg, r, p, t, r');
      case Exiting =>
        ExitApart(r, t, r');
        ApartElect(cfg, r, p, t, r', p');
    }
    ElectKept(cfg, r, p, t, r', p');
  }

  // ---------- the peer, deliveries and the clock ----------

  lemma ThreadInbox(cfg: Config, part: Part, r: Rank, p: Rank, t: nat, r': Rank, p': Rank)
    requires ThreadStep(cfg, part, r, p, t, r', p')
    ensures r'.inbox == r.inbox && p' == p.(inbox := p'.inbox)
  {
    match part
    case Exiting => if r.threads[t].pc.CancelSlot? { CancelInbox(r, t, r.threads[t].pc.j, r'); }
    case _ =>
  }

  lemma CancelInbox(r: Rank, t: nat, j: nat, r': Rank)
    requires t < |r.threads| && CancelStep(r, t, j, r')
    ensures r'.inbox == r.inbox
  {
  }

  /** A received total is not given up, nor is one in the inbox. */
  lemma ThreadKeepsSent(cfg: Config, part: Part, r: Rank, p: Rank, t: nat, r': Rank, p': Rank)
    requires Elected(cfg, r, p) && ThreadStep(cfg, part, r, p, t, r', p')
    ensures Sent(r) ==> Sent(r')
  {
    ThreadInbox(cfg, part, r, p, t, r', p');
    assert ClosingOk(r, t, r.threads[t].pc);
    assert r'.doneRecv == r.doneRecv || r.doneRecv.NotPosted? by {
      DoneRecvKept(cfg, part, r, p, t, r', p');
    }
    if q :| 0 <= q < |r.inbox| && r.inbox[q].tag == DONE_TAG {
      assert r'.inbox[q] == r.inbox[q];
    }
  }

  lemma DoneRecvKept(cfg: Config, part: Part, r: Rank, p: Rank, t: nat, r': Rank, p': Rank)
    requires ThreadStep(cfg, part, r, p, t, r', p') && ClosingOk(r, t, r.threads[t].pc)
    ensures r'.doneRecv == r.doneRecv || r.doneRecv.NotPosted?
  {
    match part
    case Exiting => ExitApart(r, t, r');
    case _ =>
  }

  lemma PeerElected(cfg: Config, r: Rank, p: Rank, r': Rank, p': Rank)
    requires Elected(cfg, p, r) && p' == p.(inbox := p'.inbox) && (Sent(r) ==> Sent(r'))
    ensures Elected(cfg, p', r')
  {
  }

  ghost predicate BothElected(cfg: Config, r: Rank, p: Rank) { Elected(cfg, r, p) && Elected(cfg, p, r) }

  lemma ThreadStepElected(cfg: Config, part: Part, r: Rank, p: Rank, t: nat, r': Rank, p': Rank)
    requires BothElected(cfg, r, p) && r.completed <= cfg.threads && ThreadStep(cfg, part, r, p, t, r', p')
    requires |r.threads[t].slots| <= DONE_TAG
    ensures BothElected(cfg, r', p')
  {
    ThreadElect(cfg, part, r, p, t, r', p');
    ThreadKeepsSent(cfg, part, r, p, t, r', p');
    ThreadInbox(cfg, part, r, p, t, r', p');
    PeerElected(cfg, r, p, r', p');
  }

  /** Taking a data message out leaves the total in the inbox. */
  lemma DataKeepsSent(cfg: Config, r: Rank, t: nat, j: nat, q: nat, r': Rank)
    requires ValidConfig(cfg) && Shape(cfg, r) && DeliverStep(r, t, j, q, r')
    ensures Sent(r) ==> Sent(r')
  {
    assert ThreadOk(cfg, r, r.threads[t]);
    if k :| 0 <= k < |r.inbox| && r.inbox[k].tag == DONE_TAG {
      assert r'.inbox[if k < q then k else k - 1] == r.inbox[k];
    }
  }

  lemma DataElected(cfg: Config, r: Rank, p: Rank, t: nat, j: nat, q: nat, r': Rank)
    requires ValidConfig(cfg) && Shape(cfg, r) && BothElected(cfg, r, p) && DeliverStep(r, t, j, q, r')
    ensures BothElected(cfg, r', p)
  {
    DataKeepsSent(cfg, r, t, j, q, r');
    CountUpdate(r.threads, t, r'.threads[t], IsClosing);
    forall u | 0 <= u < |r'.threads| ensures ClosingOk(r', u, r'.threads[u].pc) {
      assert ClosingOk(r, u, r.threads[u].pc);
    }
  }

  lemma DoneElected(cfg: Config, r: Rank, p: Rank, q: nat, r': Rank)
    requires BothElected(cfg, r, p) && DeliverDone(r, q, r')
    ensures BothElected(cfg, r', p)
  {
    forall u | 0 <= u < |r'.threads| ensures ClosingOk(r', u, r'.threads[u].pc) {
      assert ClosingOk(r, u, r.threads[u].pc);
    }
  }

  lemma ClockElected(cfg: Config, r: Rank, p: Rank)
    requires BothElected(cfg, r, p)
    ensures BothElected(cfg, r.(timeUp := true), p)
  {
    var r' := r.(timeUp := true);
    forall u | 0 <= u < |r'.threads| ensures ClosingOk(r', u, r'.threads[u].pc) {
      assert ClosingOk(r, u, r.threads[u].pc);
    }
    if q :| 0 <= q < |r.inbox| && r.inbox[q].tag == DONE_TAG {
      assert r'.inbox[q] == r.inbox[q];
    }
  }

  lemma SideElected(cfg: Config, r: Rank, p: Rank, r': Rank, p': Rank)
    requires ValidConfig(cfg) && Shape(cfg, r) && Books(r) && BothElected(cfg, r, p) && SideStep(cfg, r, p, r', p')
    ensures BothElected(cfg, r', p')
  {
    if part, t: nat :| ThreadStep(cfg, part, r, p, t, r', p') {
      assert ThreadOk(cfg, r, r.threads[t]);
      ThreadStepElected(cfg, part, r, p, t, r', p');
    } else if t: nat, j: nat, q: nat :| DeliverStep(r, t, j, q, r') && p' == p {
      DataElected(cfg, r, p, t, j, q, r');
    } else if q: nat :| DeliverDone(r, q, r') && p' == p {
      DoneElected(cfg, r, p, q, r');
    } else {
      ClockElected(cfg, r, p);
    }
  }

  // ---------- all runs ----------

  lemma InitElected(cfg: Config, r: Rank, p: Rank)
    requires ValidConfig(cfg) && InitRank(cfg, r) && InitRank(cfg, p)
    ensures Elected(cfg, r, p)
  {
    CountExtremes(r.threads, IsClosing);
  }

  lemma StepElected(cfg: Config, s: System, s': System)
    requires ValidConfig(cfg) && BothInv(cfg, s) && BothElected(cfg, s.a, s.b) && Next(cfg, s, s')
    ensures BothElected(cfg, s'.a, s'.b)
  {
    if SideStep(cfg, s.a, s.b, s'.a, s'.b) {
      SideElected(cfg, s.a, s.b, s'.a, s'.b);
    } else {
      SideElected(cfg, s.b, s.a, s'.b, s'.a);
    }
  }

  lemma {:induction false} RunElected(cfg: Config, tr: seq<System>)
    requires ValidConfig(cfg) && IsRun(cfg, tr) && Init(cfg, tr[0])
    ensures BothInv(cfg, tr[|tr| - 1]) && BothElected(cfg, tr[|tr| - 1].a, tr[|tr| - 1].b)
    decreases |tr|
  {
    if |tr| == 1 {
      RunInv(cfg, tr);
      InitElected(cfg, tr[0].a, tr[0].b);
      InitElected(cfg, tr[0].b, tr[0].a);
    } else {
      RunInit(cfg, tr);
      var pre := tr[..|tr| - 1];
      assert pre[0] == tr[0] && pre[|pre| - 1] == tr[|tr| - 2];
      RunElected(cfg, pre);
      StepElected(cfg, tr[|tr| - 2], tr[|tr| - 1]);
      StepInv(cfg, tr[|tr| - 2], tr[|tr| - 1]);
    }
  }

  lemma ReachableElected(cfg: Config, s: System)
    requires ValidConfig(cfg) && Reachable(cfg, s)
    ensures BothInv(cfg, s) && BothElected(cfg, s.a, s.b)
  {
    var tr :| IsRun(cfg, tr) && Init(cfg, tr[0]) && tr[|tr| - 1] == s;
    RunElected(cfg, tr);
  }

  /** Each rank elects at most one thread, only after all its threads are counted, and once none is at it any more
      the rank's total has been received by the peer or waits for it. */
  lemma TotalsExchangedOnce(cfg: Config, s: System, first: bool)
    requires ValidConfig(cfg) && Reachable(cfg, s)
    ensures var r, p := Mine(s, first), Peer(s, first);
            && Count(r.threads, IsClosing) <= (if Closed(r) then 1 else 0)
            && (Closed(r) && Count(r.threads, IsClosing) == 0 ==>
                  0 <= r.master < |r.threads| && !r.doneRecv.NotPosted? && Sent(p))
            && (r.checked ==> Closed(r))
  {
    ReachableElected(cfg, s);
    CountExtremes(Mine(s, first).threads, IsFlagged);
  }
}
