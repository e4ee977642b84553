/** What the counts of the ping-pong benchmark mean when a thread leaves the main loop. */
module PingPongSafety {
  import opened Counting
  import opened PingPong

  predicate Holds(b: bool) { b }
  predicate AtCountPost(th: Thread) { th.pc.CountPost? }
  predicate AtCountSend(th: Thread) { th.pc.CountSend? }
  predicate AtCountCancel(th: Thread) { th.pc.CountCancel? }
  predicate IsFlagged(th: Thread) { th.flagged }
  ghost function OutstandingOf(th: Thread): int { Count(th.slots, Holds) }
  ghost function DataMsg(cfg: Config): Msg -> bool { (m: Msg) => m.tag < cfg.inflight }

  // ---------- the invariant ----------

  ghost predicate ThreadOk(cfg: Config, r: Rank, th: Thread)
  {
    && |th.slots| == cfg.inflight
    && (th.flagged ==> r.timeUp && !th.pc.SendNow? && !th.pc.CountSend?)
    && (th.pc.SendNow? ==> th.pc.j < cfg.inflight)
    && (th.pc.TestSends? ==> r.timeUp)
    && (th.pc.Elect? || th.pc.PostDone? || th.pc.SendDone? ==> r.completed == cfg.threads)
    && !th.pc.Thrown?
  }

  ghost predicate Shape(cfg: Config, r: Rank)
  {
    |r.threads| == cfg.threads && forall t :: 0 <= t < |r.threads| ==> ThreadOk(cfg, r, r.threads[t])
  }

  /** The counters against what really happened; a thread between an action and its count is in the gap. */
  ghost predicate Books(r: Rank)
  {
    && r.posted == r.received + Sum(r.threads, OutstandingOf) + r.cancelled
    && r.recvPosted == r.posted - Count(r.threads, AtCountPost) - r.cancelled + Count(r.threads, AtCountCancel)
    && r.sendPosted == r.sent - Count(r.threads, AtCountSend)
    && r.completed == Count(r.threads, IsFlagged)
  }

  /** Every thread has finished its sends. */
  ghost predicate Closed(r: Rank)
  {
    forall t :: 0 <= t < |r.threads| ==> r.threads[t].flagged
  }

  ghost predicate MsgOk(cfg: Config, p: Rank, m: Msg)
  {
    m.tag < cfg.inflight || (m.tag == DONE_TAG && m.value == p.sent && Closed(p))
  }

  /** What rank `r` knows of its peer `p`. */
  ghost predicate Link(cfg: Config, r: Rank, p: Rank)
  {
    && p.sent == r.received + Count(r.inbox, DataMsg(cfg))
    && (forall q :: 0 <= q < |r.inbox| ==> MsgOk(cfg, p, r.inbox[q]))
    && (r.doneRecv.Got? ==> r.doneRecv.value == p.sent && Closed(p))
    && (r.checked ==> r.expected == p.sent && Closed(p))
    && (forall t :: 0 <= t < |r.threads| ==>
          && (r.threads[t].pc.StoreExpected? ==> r.threads[t].pc.v == p.sent && Closed(p))
          && (r.threads[t].pc.SetChecked? ==> r.expected == p.sent && Closed(p))
          && (r.threads[t].pc.LoopCount? ==> r.checked))
  }

  ghost predicate SlotCancelled(pc: PC, j: nat)
  {
    match pc
    case CancelSlot(c) => j < c
    case CountCancel(c) => j <= c
    case _ => InBarrier2(pc)
  }

  ghost predicate ThreadDrained(th: Thread)
  {
    && !th.pc.CountPost?
    && forall j :: 0 <= j < |th.slots| ==> (th.slots[j] <==> !SlotCancelled(th.pc, j))
  }

  /** Everything the peer sent has been received, and every slot holds exactly one outstanding receive
      until its thread cancels it. */
  ghost predicate Drained(r: Rank, p: Rank)
  {
    && r.checked && r.received == p.sent
    && forall t :: 0 <= t < |r.threads| ==> ThreadDrained(r.threads[t])
  }

  ghost predicate Exit(r: Rank, p: Rank)
  {
    && !r.late
    && (forall t, u :: 0 <= t < |r.threads| && 0 <= u < |r.threads| && PastBarrier1(r.threads[t].pc) ==>
          InExit(r.threads[u].pc))
    && (forall t, u :: 0 <= t < |r.threads| && 0 <= u < |r.threads| && PastBarrier2(r.threads[t].pc) ==>
          InBarrier2(r.threads[u].pc))
    && (forall t :: 0 <= t < |r.threads| && InExit(r.threads[t].pc) ==> Drained(r, p))
    && (r.cancelled > 0 ==> forall t :: 0 <= t < |r.threads| ==> InExit(r.threads[t].pc))
  }

  ghost predicate Inv(cfg: Config, r: Rank, p: Rank)
  {
    Shape(cfg, r) && Books(r) && Link(cfg, r, p) && Exit(r, p)
  }

  // ---------- bookkeeping ----------

  ghost function Bit(b: bool): int { if b then 1 else 0 }

  /** The step changes one thread, and that thread's own contribution matches the counters. */
  ghost predicate Balanced(r: Rank, t: nat, r': Rank)
  {
    && t < |r.threads| == |r'.threads| && r'.threads == r.threads[t := r'.threads[t]]
    && var x, y := r.threads[t], r'.threads[t];
       && r'.posted - r.posted
          == r'.received - r.received + OutstandingOf(y) - OutstandingOf(x) + r'.cancelled - r.cancelled
       && r'.recvPosted - r.recvPosted
          == r'.posted - r.posted - Bit(y.pc.CountPost?) + Bit(x.pc.CountPost?)
             - (r'.cancelled - r.cancelled) + Bit(y.pc.CountCancel?) - Bit(x.pc.CountCancel?)
       && r'.sendPosted - r.sendPosted == r'.sent - r.sent - Bit(y.pc.CountSend?) + Bit(x.pc.CountSend?)
       && r'.completed - r.completed == Bit(y.flagged) - Bit(x.flagged)
  }

  lemma BalancedBooks(r: Rank, t: nat, r': Rank)
    requires Books(r) && Balanced(r, t, r')
    ensures Books(r')
  {
    var y := r'.threads[t];
    SumUpdate(r.threads, t, y, OutstandingOf);
    CountUpdate(r.threads, t, y, AtCountPost);
    CountUpdate(r.threads, t, y, AtCountCancel);
    CountUpdate(r.threads, t, y, AtCountSend);
    CountUpdate(r.threads, t, y, IsFlagged);
  }

  lemma SlotUpdate(slots: seq<bool>, j: nat, v: bool)
    requires j < |slots|
    ensures Count(slots[j := v], Holds) == Count(slots, Holds) - Bit(slots[j]) + Bit(v)
  {
    CountUpdate(slots, j, v, Holds);
  }

  lemma PostBalanced(r: Rank, t: nat, r': Rank)
    requires t < |r.threads| && PostStep(r, t, r')
    ensures Balanced(r, t, r')
  {
    var th := r.threads[t];
    if th.pc.PostCheck? && th.pc.j < |th.slots| && !th.slots[th.pc.j] { PostNewBalanced(r, t, r'); }
  }

  lemma PostNewBalanced(r: Rank, t: nat, r': Rank)
    requires t < |r.threads| && PostStep(r, t, r') && r.threads[t].pc.PostCheck?
    requires var th := r.threads[t]; th.pc.j < |th.slots| && !th.slots[th.pc.j]
    ensures Balanced(r, t, r')
  {
    SlotUpdate(r.threads[t].slots, r.threads[t].pc.j, true);
  }

  lemma SendBalanced(cfg: Config, r: Rank, p: Rank, t: nat, r': Rank, p': Rank)
    requires t < |r.threads| && SendStep(cfg, r, p, t, r', p')
    ensures Balanced(r, t, r')
  {
    if r.threads[t].pc.SendCheck? {
      SkipBalanced(cfg, r, p, t, r', p');
    } else {
      PostSendBalanced(cfg, r, p, t, r', p');
    }
  }

  lemma SkipBalanced(cfg: Config, r: Rank, p: Rank, t: nat, r': Rank, p': Rank)
    requires t < |r.threads| && SendStep(cfg, r, p, t, r', p') && r.threads[t].pc.SendCheck?
    ensures Balanced(r, t, r')
  {
  }

  lemma PostSendBalanced(cfg: Config, r: Rank, p: Rank, t: nat, r': Rank, p': Rank)
    requires t < |r.threads| && SendStep(cfg, r, p, t, r', p') && !r.threads[t].pc.SendCheck?
    ensures Balanced(r, t, r')
  {
  }

  lemma TestBalanced(cfg: Config, r: Rank, t: nat, r': Rank)
    requires t < |r.threads| && TestStep(cfg, r, t, r')
    ensures Balanced(r, t, r')
  {
  }

  lemma CloseBalanced(r: Rank, p: Rank, t: nat, r': Rank, p': Rank)
    requires t < |r.threads| && CloseStep(r, p, t, r', p')
    ensures Balanced(r, t, r')
  {
    if IsExchange(r.threads[t].pc) { ExchangeBalanced(r, p, t, r', p'); }
  }

  ghost predicate IsExchange(pc: PC) { pc.PostDone? || pc.SendDone? }

  lemma ExchangeBalanced(r: Rank, p: Rank, t: nat, r': Rank, p': Rank)
    requires t < |r.threads| && CloseStep(r, p, t, r', p') && IsExchange(r.threads[t].pc)
    ensures Balanced(r, t, r')
  {
  }

  lemma CheckBalanced(cfg: Config, r: Rank, t: nat, r': Rank)
    requires t < |r.threads| && CheckStep(cfg, r, t, r')
    ensures Balanced(r, t, r')
  {
    if InLoopTest(r.threads[t].pc) { LoopTestBalanced(cfg, r, t, r'); } else { MasterBalanced(cfg, r, t, r'); }
  }

  ghost predicate InLoopTest(pc: PC) { pc.LoopFlag? || pc.LoopCount? }

  lemma LoopTestBalanced(cfg: Config, r: Rank, t: nat, r': Rank)
    requires t < |r.threads| && CheckStep(cfg, r, t, r') && InLoopTest(r.threads[t].pc)
    ensures Balanced(r, t, r')
  {
  }

  lemma MasterBalanced(cfg: Config, r: Rank, t: nat, r': Rank)
    requires t < |r.threads| && CheckStep(cfg, r, t, r') && !InLoopTest(r.threads[t].pc)
    ensures Balanced(r, t, r')
  {
  }

  lemma CancelBalanced(r: Rank, t: nat, j: nat, r': Rank)
    requires t < |r.threads| && CancelStep(r, t, j, r') && r.threads[t].pc == CancelSlot(j)
    ensures Balanced(r, t, r')
  {
    var th := r.threads[t];
    if j < |th.slots| && th.slots[j] { CancelledBalanced(r, t, j, r'); }
  }

  lemma CancelledBalanced(r: Rank, t: nat, j: nat, r': Rank)
    requires t < |r.threads| && CancelStep(r, t, j, r') && r.threads[t].pc == CancelSlot(j)
    requires j < |r.threads[t].slots| && r.threads[t].slots[j]
    ensures Balanced(r, t, r')
  {
    SlotUpdate(r.threads[t].slots, j, false);
  }

  lemma ExitBalanced(r: Rank, t: nat, r': Rank)
    requires t < |r.threads| && ExitStep(r, t, r')
    ensures Balanced(r, t, r')
  {
    if r.threads[t].pc.CancelSlot? { CancelBalanced(r, t, r.threads[t].pc.j, r'); } else { LeaveBalanced(r, t, r'); }
  }

  lemma LeaveBalanced(r: Rank, t: nat, r': Rank)
    requires t < |r.threads| && ExitStep(r, t, r') && !r.threads[t].pc.CancelSlot?
    ensures Balanced(r, t, r')
  {
    if r.threads[t].pc.CountCancel? { CountCancelBalanced(r, t, r'); }
  }

  lemma CountCancelBalanced(r: Rank, t: nat, r': Rank)
    requires t < |r.threads| && ExitStep(r, t, r') && r.threads[t].pc.CountCancel?
    ensures Balanced(r, t, r')
  {
  }

  lemma DeliverBalanced(r: Rank, t: nat, j: nat, q: nat, r': Rank)
    requires DeliverStep(r, t, j, q, r')
    ensures Balanced(r, t, r')
  {
    SlotUpdate(r.threads[t].slots, j, false);
  }

  lemma ThreadBooks(cfg: Config, part: Part, r: Rank, p: Rank, t: nat, r': Rank, p': Rank)
    requires Books(r) && ThreadStep(cfg, part, r, p, t, r', p')
    ensures Books(r')
  {
    match part {
      case Posting => PostBalanced(r, t, r');
      case Sending => SendBalanced(cfg, r, p, t, r', p');
      case Testing => TestBalanced(cfg, r, t, r');
      case Closing => CloseBalanced(r, p, t, r', p');
      case Checking => CheckBalanced(cfg, r, t, r');
      case Exiting => ExitBalanced(r, t, r');
    }
    BalancedBooks(r, t, r');
  }

  // ---------- what the counts force ----------

  /** A rank never has more outstanding receives than slots, and reaches that number only when
      every slot has one. */
  lemma OutstandingBound(cfg: Config, r: Rank)
    requires Shape(cfg, r)
    ensures Sum(r.threads, OutstandingOf) <= cfg.threads * cfg.inflight
    ensures Sum(r.threads, OutstandingOf) == cfg.threads * cfg.inflight ==>
              forall t, j :: 0 <= t < |r.threads| && 0 <= j < |r.threads[t].slots| ==> r.threads[t].slots[j]
  {
    forall th | th in r.threads ensures OutstandingOf(th) <= cfg.inflight {
    }
    SumAtMost(r.threads, OutstandingOf, cfg.inflight);
    if Sum(r.threads, OutstandingOf) == cfg.threads * cfg.inflight {
      forall t, j | 0 <= t < |r.threads| && 0 <= j < |r.threads[t].slots| ensures r.threads[t].slots[j] {
        assert r.threads[t] in r.threads;
        CountExtremes(r.threads[t].slots, Holds);
      }
    }
  }

  /** No thread is in the exit section: nothing has been cancelled, so the books are simple. */
  lemma BeforeExit(r: Rank, p: Rank)
    requires Exit(r, p) && |r.threads| > 0
    requires forall t :: 0 <= t < |r.threads| ==> !InExit(r.threads[t].pc)
    ensures r.cancelled == 0 && Count(r.threads, AtCountCancel) == 0
  {
    assert !InExit(r.threads[0].pc);
    CountExtremes(r.threads, AtCountCancel);
  }

  /** The loop condition is met only when the rank is drained. */
  lemma ExitMeansDrained(cfg: Config, r: Rank, p: Rank, t: nat)
    requires Inv(cfg, r, p) && t < |r.threads| && r.threads[t].pc == LoopCount
    requires r.recvPosted == r.expected + cfg.threads * cfg.inflight
    ensures Drained(r, p)
  {
    if u :| 0 <= u < |r.threads| && InExit(r.threads[u].pc) {
    } else {
      BeforeExit(r, p);
      OutstandingBound(cfg, r);
      CountExtremes(r.threads, AtCountPost);
    }
  }

  /** In a drained rank no data message is left. */
  lemma DrainedInboxEmpty(cfg: Config, r: Rank, p: Rank, q: nat)
    requires Link(cfg, r, p) && r.received == p.sent && q < |r.inbox|
    ensures r.inbox[q].tag >= cfg.inflight
  {
    CountExtremes(r.inbox, DataMsg(cfg));
    assert !DataMsg(cfg)(r.inbox[q]);
  }

  /** After the second barrier the counter has come down to exactly what the peer sent. */
  lemma FinalCountRight(cfg: Config, r: Rank, p: Rank, t: nat)
    requires Inv(cfg, r, p) && t < |r.threads| && PastBarrier2(r.threads[t].pc)
    ensures r.recvPosted == r.expected == p.sent
  {
    assert Drained(r, p);
    forall th | th in r.threads ensures OutstandingOf(th) == 0 {
      var u :| 0 <= u < |r.threads| && r.threads[u] == th;
      assert InBarrier2(r.threads[u].pc) && ThreadDrained(r.threads[u]);
      CountExtremes(th.slots, Holds);
    }
    SumAtLeastZero(r.threads, OutstandingOf);
    CountExtremes(r.threads, AtCountPost);
    CountExtremes(r.threads, AtCountCancel);
  }

  /** A thread that cancels finds its receive outstanding, and the cancel cannot fail. */
  lemma CancelSucceeds(cfg: Config, r: Rank, p: Rank, t: nat, j: nat, r': Rank)
    requires Inv(cfg, r, p) && t < |r.threads| && r.threads[t].pc == CancelSlot(j) && CancelStep(r, t, j, r')
    ensures j < cfg.inflight ==> r' == SetSlot(r, t, j, false, CountCancel(j)).(cancelled := r.cancelled + 1)
    ensures j >= cfg.inflight ==> r' == Goto(r, t, Barrier2)
  {
    assert Drained(r, p) && ThreadDrained(r.threads[t]) && ThreadOk(cfg, r, r.threads[t]);
    if j < cfg.inflight {
      assert r.threads[t].slots[j];
      forall q | 0 <= q < |r.inbox| ensures r.inbox[q].tag != j {
        DrainedInboxEmpty(cfg, r, p, q);
      }
    }
  }

  // ---------- every step keeps the invariant: the moving rank ----------

  /** A step that leaves the exit section, the receives and the cancels alone. */
  ghost predicate Quiet(r: Rank, t: nat, r': Rank)
  {
    && t < |r.threads| == |r'.threads| && r'.threads == r.threads[t := r'.threads[t]]
    && !InExit(r.threads[t].pc) && !InExit(r'.threads[t].pc) && !r'.threads[t].pc.Thrown?
    && r'.received == r.received && r'.cancelled == r.cancelled && r'.inbox == r.inbox && r'.late == r.late
    && (r.checked ==> r'.checked)
    && (|| (r'.threads[t].slots == r.threads[t].slots && !r'.threads[t].pc.CountPost?)
        || (exists j :: 0 <= j < |r.threads[t].slots| && !r.threads[t].slots[j])
        || r.threads[t].pc.CountPost?)
  }

  lemma QuietExit(r: Rank, p: Rank, t: nat, r': Rank, p': Rank)
    requires Exit(r, p) && Quiet(r, t, r') && p'.sent == p.sent
    ensures Exit(r', p')
  {
    forall u | 0 <= u < |r'.threads| && InExit(r'.threads[u].pc)
      ensures Drained(r', p')
    {
      assert u != t && InExit(r.threads[u].pc);
      assert Drained(r, p) && ThreadDrained(r.threads[t]);
      assert r'.threads[t].slots == r.threads[t].slots;
      forall v | 0 <= v < |r'.threads| ensures ThreadDrained(r'.threads[v]) {
        assert ThreadDrained(r.threads[v]);
      }
    }
  }

  lemma PostQuiet(r: Rank, t: nat, r': Rank)
    requires t < |r.threads| && PostStep(r, t, r')
    ensures Quiet(r, t, r')
  {
  }

  lemma SendQuiet(cfg: Config, r: Rank, p: Rank, t: nat, r': Rank, p': Rank)
    requires t < |r.threads| && SendStep(cfg, r, p, t, r', p')
    ensures Quiet(r, t, r') && p'.sent == p.sent
  {
  }

  lemma TestQuiet(cfg: Config, r: Rank, t: nat, r': Rank)
    requires t < |r.threads| && TestStep(cfg, r, t, r')
    ensures Quiet(r, t, r')
  {
  }

  lemma CloseQuiet(r: Rank, p: Rank, t: nat, r': Rank, p': Rank)
    requires t < |r.threads| && CloseStep(r, p, t, r', p')
    ensures Quiet(r, t, r') && p'.sent == p.sent
  {
  }

  lemma CheckQuiet(cfg: Config, r: Rank, t: nat, r': Rank)
    requires t < |r.threads| && CheckStep(cfg, r, t, r') && r'.threads[t].pc != Barrier1
    ensures Quiet(r, t, r')
  {
    if InLoopTest(r.threads[t].pc) { LoopTestQuiet(cfg, r, t, r'); }
  }

  lemma LoopTestQuiet(cfg: Config, r: Rank, t: nat, r': Rank)
    requires t < |r.threads| && CheckStep(cfg, r, t, r') && r'.threads[t].pc != Barrier1 && InLoopTest(r.threads[t].pc)
    ensures Quiet(r, t, r')
  {
  }

  lemma EnterExit(cfg: Config, r: Rank, p: Rank, t: nat, r': Rank)
    requires Inv(cfg, r, p) && t < |r.threads| && r.threads[t].pc == LoopCount
    requires r.recvPosted == r.expected + cfg.threads * cfg.inflight && r' == Goto(r, t, Barrier1)
    ensures Exit(r', p)
  {
    ExitMeansDrained(cfg, r, p, t);
    forall v | 0 <= v < |r'.threads| ensures ThreadDrained(r'.threads[v]) {
      assert ThreadDrained(r.threads[v]);
    }
  }

  /** Steps inside the exit section keep the rank drained. */
  lemma ExitStays(cfg: Config, r: Rank, p: Rank, t: nat, r': Rank)
    requires Inv(cfg, r, p) && t < |r.threads| && InExit(r.threads[t].pc)
    requires |r'.threads| == |r.threads| && r'.threads == r.threads[t := r'.threads[t]]
    requires InExit(r'.threads[t].pc) && ThreadDrained(r'.threads[t])
    requires r'.checked == r.checked && r'.received == r.received && !r'.late
    requires PastBarrier1(r'.threads[t].pc) && !PastBarrier1(r.threads[t].pc) ==>
               forall u :: 0 <= u < |r.threads| ==> InExit(r.threads[u].pc)
    requires PastBarrier2(r'.threads[t].pc) && !PastBarrier2(r.threads[t].pc) ==>
               forall u :: 0 <= u < |r.threads| ==> InBarrier2(r.threads[u].pc)
    requires InBarrier2(r.threads[t].pc) ==> InBarrier2(r'.threads[t].pc)
    requires r'.cancelled > r.cancelled ==> PastBarrier1(r.threads[t].pc)
    ensures Exit(r', p)
  {
    assert Drained(r, p);
    forall v | 0 <= v < |r'.threads| ensures ThreadDrained(r'.threads[v]) {
      assert ThreadDrained(r.threads[v]);
    }
  }

  lemma CancelExit(cfg: Config, r: Rank, p: Rank, t: nat, j: nat, r': Rank)
    requires Inv(cfg, r, p) && t < |r.threads| && r.threads[t].pc == CancelSlot(j) && CancelStep(r, t, j, r')
    ensures Exit(r', p) && !r'.threads[t].pc.Thrown?
  {
    CancelSucceeds(cfg, r, p, t, j, r');
    assert Drained(r, p) && ThreadDrained(r.threads[t]) && ThreadOk(cfg, r, r.threads[t]);
    ExitStays(cfg, r, p, t, r');
  }

  lemma ExitExit(cfg: Config, r: Rank, p: Rank, t: nat, r': Rank)
    requires Inv(cfg, r, p) && t < |r.threads| && ExitStep(r, t, r')
    ensures Exit(r', p) && !r'.threads[t].pc.Thrown?
  {
    assert Drained(r, p) && ThreadDrained(r.threads[t]);
    if r.threads[t].pc.CancelSlot? {
      CancelExit(cfg, r, p, t, r.threads[t].pc.j, r');
    } else {
      if r.threads[t].pc.FinalCheck? { FinalCountRight(cfg, r, p, t); }
      ExitStays(cfg, r, p, t, r');
    }
  }

  lemma CheckExit(cfg: Config, r: Rank, p: Rank, t: nat, r': Rank)
    requires Inv(cfg, r, p) && t < |r.threads| && CheckStep(cfg, r, t, r')
    ensures Exit(r', p) && !r'.threads[t].pc.Thrown?
  {
    if r'.threads[t].pc == Barrier1 {
      EnterExit(cfg, r, p, t, r');
    } else {
      CheckQuiet(cfg, r, t, r');
      QuietExit(r, p, t, r', p);
    }
  }

  lemma QuietPart(cfg: Config, part: Part, r: Rank, p: Rank, t: nat, r': Rank, p': Rank)
    requires ThreadStep(cfg, part, r, p, t, r', p') && part != Checking && part != Exiting
    ensures Quiet(r, t, r') && p'.sent == p.sent
  {
    match part
    case Posting => PostQuiet(r, t, r');
    case Sending => SendQuiet(cfg, r, p, t, r', p');
    case Testing => TestQuiet(cfg, r, t, r');
    case Closing => CloseQuiet(r, p, t, r', p');
  }

  lemma ThreadExit(cfg: Config, part: Part, r: Rank, p: Rank, t: nat, r': Rank, p': Rank)
    requires Inv(cfg, r, p) && ThreadStep(cfg, part, r, p, t, r', p')
    ensures Exit(r', p') && |r'.threads| == |r.threads| && !r'.threads[t].pc.Thrown?
  {
    if part == Checking {
      CheckExit(cfg, r, p, t, r');
    } else if part == Exiting {
      ExitExit(cfg, r, p, t, r');
    } else {
      QuietPart(cfg, part, r, p, t, r', p');
      QuietExit(r, p, t, r', p');
    }
  }

  // ---------- shape ----------

  /** No thread is counted twice: once the last one has been, no other can be. */
  lemma AllCounted(cfg: Config, r: Rank, t: nat)
    requires Shape(cfg, r) && Books(r) && t < |r.threads| && r.completed == cfg.threads
    ensures r.threads[t].flagged
  {
    CountExtremes(r.threads, IsFlagged);
  }

  /** What the stepping thread does to the facts `ThreadOk` is about. */
  ghost predicate ShapeStep(cfg: Config, r: Rank, t: nat, r': Rank)
  {
    && t < |r.threads| == |r'.threads| && r'.threads == r.threads[t := r'.threads[t]]
    && (r.timeUp ==> r'.timeUp)
    && (r'.completed == r.completed || (!r.threads[t].flagged && r'.completed == r.completed + 1))
    && (ThreadOk(cfg, r, r.threads[t]) && !r'.threads[t].pc.Thrown?
        && (r.completed == cfg.threads ==> r'.completed == r.completed)
        ==> ThreadOk(cfg, r', r'.threads[t]))
  }

  lemma ShapeKept(cfg: Config, r: Rank, t: nat, r': Rank)
    requires Shape(cfg, r) && Books(r) && ShapeStep(cfg, r, t, r') && !r'.threads[t].pc.Thrown?
    ensures Shape(cfg, r')
  {
    if r.completed == cfg.threads { AllCounted(cfg, r, t); }
  }

  lemma PostShape(cfg: Config, r: Rank, t: nat, r': Rank)
    requires t < |r.threads| && PostStep(r, t, r')
    ensures ShapeStep(cfg, r, t, r')
  {
  }

  lemma SendShape(cfg: Config, r: Rank, p: Rank, t: nat, r': Rank, p': Rank)
    requires t < |r.threads| && SendStep(cfg, r, p, t, r', p')
    ensures ShapeStep(cfg, r, t, r')
  {
  }

  lemma TestShape(cfg: Config, r: Rank, t: nat, r': Rank)
    requires t < |r.threads| && TestStep(cfg, r, t, r') && r.timeUp
    ensures ShapeStep(cfg, r, t, r')
  {
  }

  lemma CloseShape(cfg: Config, r: Rank, p: Rank, t: nat, r': Rank, p': Rank)
    requires t < |r.threads| && CloseStep(r, p, t, r', p')
    ensures ShapeStep(cfg, r, t, r')
  {
  }

  lemma CheckShape(cfg: Config, r: Rank, t: nat, r': Rank)
    requires t < |r.threads| && CheckStep(cfg, r, t, r')
    ensures ShapeStep(cfg, r, t, r')
  {
  }

  lemma CancelShape(cfg: Config, r: Rank, t: nat, j: nat, r': Rank)
    requires t < |r.threads| && CancelStep(r, t, j, r')
    ensures ShapeStep(cfg, r, t, r')
  {
  }

  lemma ExitShape(cfg: Config, r: Rank, t: nat, r': Rank)
    requires t < |r.threads| && ExitStep(r, t, r')
    ensures ShapeStep(cfg, r, t, r')
  {
    if r.threads[t].pc.CancelSlot? { CancelShape(cfg, r, t, r.threads[t].pc.j, r'); }
  }

  lemma PartShape(cfg: Config, part: Part, r: Rank, p: Rank, t: nat, r': Rank, p': Rank)
    requires ThreadStep(cfg, part, r, p, t, r', p') && (part == Testing ==> r.timeUp)
    ensures ShapeStep(cfg, r, t, r')
  {
    match part
    case Posting => PostShape(cfg, r, t, r');
    case Sending => SendShape(cfg, r, p, t, r', p');
    case Testing => TestShape(cfg, r, t, r');
    case Closing => CloseShape(cfg, r, p, t, r', p');
    case Checking => CheckShape(cfg, r, t, r');
    case Exiting => ExitShape(cfg, r, t, r');
  }

  // ---------- links ----------

  /** What a thread step does to the facts `Link(r, p)` is about. */
  ghost predicate LinkStep(r: Rank, p: Rank, t: nat, r': Rank)
  {
    && t < |r.threads| == |r'.threads| && r'.threads == r.threads[t := r'.threads[t]]
    && r'.received == r.received && r'.inbox == r.inbox
    && (r'.doneRecv == r.doneRecv || !r'.doneRecv.Got?)
    && (r.checked ==> r'.checked)
    && (r'.checked && !r.checked ==> r.threads[t].pc.SetChecked? && r'.expected == r.expected)
    && (r'.expected == r.expected || (r.threads[t].pc.StoreExpected? && r'.expected == r.threads[t].pc.v))
    && var pc' := r'.threads[t].pc;
       && (pc'.StoreExpected? ==> r.doneRecv == Got(pc'.v))
       && (pc'.SetChecked? ==> r.threads[t].pc.StoreExpected? && r'.expected == r.threads[t].pc.v)
       && (pc'.LoopCount? ==> r'.checked)
  }

  lemma LinkKept(cfg: Config, r: Rank, p: Rank, t: nat, r': Rank, p': Rank)
    requires Link(cfg, r, p) && LinkStep(r, p, t, r') && p'.sent == p.sent && p'.threads == p.threads
    ensures Link(cfg, r', p')
  {
    forall q | 0 <= q < |r'.inbox| ensures MsgOk(cfg, p', r'.inbox[q]) {
      assert MsgOk(cfg, p, r.inbox[q]);
    }
  }

  /** Only sends touch the peer, and only its inbox. */
  ghost predicate PeerStep(cfg: Config, r: Rank, p: Rank, t: nat, r': Rank, p': Rank)
  {
    && t < |r.threads| == |r'.threads| && r'.threads == r.threads[t := r'.threads[t]]
    && p' == p.(inbox := p'.inbox)
    && (r.threads[t].flagged ==> r'.threads[t].flagged)
    && (|| (p' == p && r'.sent == r.sent)
        || (r.threads[t].pc.SendNow? && r'.sent == r.sent + 1
            && exists v :: p' == Deposit(p, Msg(r.threads[t].pc.j, v, t)))
        || (r.threads[t].pc.SendDone? && r'.sent == r.sent && p' == Deposit(p, Msg(DONE_TAG, r.sendPosted, t))))
  }

  lemma PostLink(cfg: Config, r: Rank, p: Rank, t: nat, r': Rank)
    requires t < |r.threads| && PostStep(r, t, r')
    ensures LinkStep(r, p, t, r') && PeerStep(cfg, r, p, t, r', p)
  {
  }

  lemma SendLink(cfg: Config, r: Rank, p: Rank, t: nat, r': Rank, p': Rank)
    requires t < |r.threads| && SendStep(cfg, r, p, t, r', p')
    ensures LinkStep(r, p, t, r') && PeerStep(cfg, r, p, t, r', p')
  {
    SendLinkOnly(cfg, r, p, t, r', p');
    SendPeerOnly(cfg, r, p, t, r', p');
  }

  lemma SendPeerOnly(cfg: Config, r: Rank, p: Rank, t: nat, r': Rank, p': Rank)
    requires t < |r.threads| && SendStep(cfg, r, p, t, r', p')
    ensures PeerStep(cfg, r, p, t, r', p')
  {
  }

  lemma SendLinkOnly(cfg: Config, r: Rank, p: Rank, t: nat, r': Rank, p': Rank)
    requires t < |r.threads| && SendStep(cfg, r, p, t, r', p')
    ensures LinkStep(r, p, t, r')
  {
  }

  lemma TestLink(cfg: Config, r: Rank, p: Rank, t: nat, r': Rank)
    requires t < |r.threads| && TestStep(cfg, r, t, r')
    ensures LinkStep(r, p, t, r') && PeerStep(cfg, r, p, t, r', p)
  {
  }

  lemma CloseLink(cfg: Config, r: Rank, p: Rank, t: nat, r': Rank, p': Rank)
    requires t < |r.threads| && CloseStep(r, p, t, r', p')
    ensures LinkStep(r, p, t, r') && PeerStep(cfg, r, p, t, r', p')
  {
    if r.threads[t].pc.SendDone? { AnnounceLink(cfg, r, p, t, r', p'); } else { ElectLink(cfg, r, p, t, r', p'); }
  }

  lemma AnnounceLink(cfg: Config, r: Rank, p: Rank, t: nat, r': Rank, p': Rank)
    requires t < |r.threads| && CloseStep(r, p, t, r', p') && r.threads[t].pc.SendDone?
    ensures LinkStep(r, p, t, r') && PeerStep(cfg, r, p, t, r', p')
  {
  }

  lemma ElectLink(cfg: Config, r: Rank, p: Rank, t: nat, r': Rank, p': Rank)
    requires t < |r.threads| && CloseStep(r, p, t, r', p') && !r.threads[t].pc.SendDone?
    ensures LinkStep(r, p, t, r') && PeerStep(cfg, r, p, t, r', p')
  {
  }

  lemma CheckLink(cfg: Config, r: Rank, p: Rank, t: nat, r': Rank)
    requires t < |r.threads| && CheckStep(cfg, r, t, r')
    ensures LinkStep(r, p, t, r') && PeerStep(cfg, r, p, t, r', p)
  {
  }

  lemma CancelLink(cfg: Config, r: Rank, p: Rank, t: nat, j: nat, r': Rank)
    requires t < |r.threads| && CancelStep(r, t, j, r')
    ensures LinkStep(r, p, t, r') && PeerStep(cfg, r, p, t, r', p)
  {
  }

  lemma ExitLink(cfg: Config, r: Rank, p: Rank, t: nat, r': Rank)
    requires t < |r.threads| && ExitStep(r, t, r')
    ensures LinkStep(r, p, t, r') && PeerStep(cfg, r, p, t, r', p)
  {
    if r.threads[t].pc.CancelSlot? { CancelLink(cfg, r, p, t, r.threads[t].pc.j, r'); }
  }

  lemma PartLink(cfg: Config, part: Part, r: Rank, p: Rank, t: nat, r': Rank, p': Rank)
    requires ThreadStep(cfg, part, r, p, t, r', p')
    ensures LinkStep(r, p, t, r') && PeerStep(cfg, r, p, t, r', p')
  {
    match part
    case Posting => PostLink(cfg, r, p, t, r');
    case Sending => SendLink(cfg, r, p, t, r', p');
    case Testing => TestLink(cfg, r, p, t, r');
    case Closing => CloseLink(cfg, r, p, t, r', p');
    case Checking => CheckLink(cfg, r, p, t, r');
    case Exiting => ExitLink(cfg, r, p, t, r');
  }

  // ---------- the peer ----------

  /** A rank that has closed its sends sends no more, and its counter is its total. */
  lemma ClosedCount(cfg: Config, r: Rank)
    requires Shape(cfg, r) && Books(r) && Closed(r)
    ensures r.sendPosted == r.sent
  {
    forall t | 0 <= t < |r.threads| ensures !AtCountSend(r.threads[t]) {
      assert ThreadOk(cfg, r, r.threads[t]);
    }
    CountExtremes(r.threads, AtCountSend);
  }

  lemma PeerDeposit(cfg: Config, r: Rank, p: Rank, r': Rank, m: Msg)
    requires ValidConfig(cfg) && Link(cfg, p, r) && Exit(p, r)
    requires (m.tag < cfg.inflight && r'.sent == r.sent + 1 && !Closed(r))
             || (m.tag == DONE_TAG && m.value == r.sent && r'.sent == r.sent && Closed(r) && Closed(r'))
    ensures Link(cfg, Deposit(p, m), r') && Exit(Deposit(p, m), r')
  {
    var p' := Deposit(p, m);
    CountPush(p.inbox, m, DataMsg(cfg));
    forall q | 0 <= q < |p'.inbox| ensures MsgOk(cfg, r', p'.inbox[q]) {
      if q < |p.inbox| { assert MsgOk(cfg, r, p.inbox[q]); }
    }
    DepositExit(p, r, r', m);
  }

  lemma DepositExit(p: Rank, r: Rank, r': Rank, m: Msg)
    requires Exit(p, r) && (p.checked ==> r'.sent == r.sent)
    ensures Exit(Deposit(p, m), r')
  {
    var p' := Deposit(p, m);
    forall u | 0 <= u < |p'.threads| && InExit(p'.threads[u].pc) ensures Drained(p', r') {
      assert InExit(p.threads[u].pc);
      assert Drained(p, r);
    }
  }

  lemma PeerUntouched(cfg: Config, r: Rank, p: Rank, r': Rank)
    requires Link(cfg, p, r) && Exit(p, r) && r'.sent == r.sent && (Closed(r) ==> Closed(r'))
    ensures Link(cfg, p, r') && Exit(p, r')
  {
    forall q | 0 <= q < |p.inbox| ensures MsgOk(cfg, r', p.inbox[q]) {
      assert MsgOk(cfg, r, p.inbox[q]);
    }
    forall u | 0 <= u < |p.threads| && InExit(p.threads[u].pc) ensures Drained(p, r') {
      assert Drained(p, r);
    }
  }

  lemma PeerKept(cfg: Config, r: Rank, p: Rank, t: nat, r': Rank, p': Rank)
    requires ValidConfig(cfg) && Shape(cfg, r) && Books(r) && Inv(cfg, p, r) && PeerStep(cfg, r, p, t, r', p')
    ensures Inv(cfg, p', r')
  {
    assert Shape(cfg, p') && Books(p');
    assert Closed(r) ==> Closed(r') by {
      if Closed(r) { forall u | 0 <= u < |r'.threads| ensures r'.threads[u].flagged { assert r.threads[u].flagged; } }
    }
    assert ThreadOk(cfg, r, r.threads[t]);
    if p' == p && r'.sent == r.sent {
      PeerUntouched(cfg, r, p, r');
    } else if r.threads[t].pc.SendNow? {
      var v :| p' == Deposit(p, Msg(r.threads[t].pc.j, v, t));
      PeerDeposit(cfg, r, p, r', Msg(r.threads[t].pc.j, v, t));
    } else {
      assert Closed(r) by { forall u | 0 <= u < |r.threads| ensures r.threads[u].flagged { AllCounted(cfg, r, u); } }
      ClosedCount(cfg, r);
      PeerDeposit(cfg, r, p, r', Msg(DONE_TAG, r.sendPosted, t));
    }
  }

  // ---------- deliveries ----------

  lemma DeliverKeeps(cfg: Config, r: Rank, p: Rank, t: nat, j: nat, q: nat, r': Rank)
    requires Inv(cfg, r, p) && DeliverStep(r, t, j, q, r')
    ensures Shape(cfg, r') && Link(cfg, r', p) && Exit(r', p)
  {
    assert ThreadOk(cfg, r, r.threads[t]);
    CountRemove(r.inbox, q, DataMsg(cfg));
    forall k | 0 <= k < |r'.inbox| ensures MsgOk(cfg, p, r'.inbox[k]) {
      assert MsgOk(cfg, p, r.inbox[if k < q then k else k + 1]);
    }
    if u :| 0 <= u < |r.threads| && InExit(r.threads[u].pc) {
      DrainedInboxEmpty(cfg, r, p, q);
    } else {
      assert !InExit(r.threads[t].pc);
    }
  }

  lemma DeliverDoneKeeps(cfg: Config, r: Rank, p: Rank, q: nat, r': Rank)
    requires ValidConfig(cfg) && Inv(cfg, r, p) && DeliverDone(r, q, r')
    ensures Inv(cfg, r', p)
  {
    assert MsgOk(cfg, p, r.inbox[q]);
    CountRemove(r.inbox, q, DataMsg(cfg));
    forall k | 0 <= k < |r'.inbox| ensures MsgOk(cfg, p, r'.inbox[k]) {
      assert MsgOk(cfg, p, r.inbox[if k < q then k else k + 1]);
    }
    forall u | 0 <= u < |r'.threads| && InExit(r'.threads[u].pc) ensures Drained(r', p) {
      assert Drained(r, p);
    }
  }

  lemma ClockKeeps(cfg: Config, r: Rank, p: Rank, r': Rank)
    requires Inv(cfg, r, p) && r' == r.(timeUp := true)
    ensures Inv(cfg, r', p)
  {
    forall u | 0 <= u < |r'.threads| ensures ThreadOk(cfg, r', r'.threads[u]) {
      assert ThreadOk(cfg, r, r.threads[u]);
    }
    forall u | 0 <= u < |r'.threads| && InExit(r'.threads[u].pc) ensures Drained(r', p) {
      assert Drained(r, p);
    }
  }

  // ---------- all steps ----------

  lemma ThreadKeeps(cfg: Config, part: Part, r: Rank, p: Rank, t: nat, r': Rank, p': Rank)
    requires ValidConfig(cfg) && Inv(cfg, r, p) && Inv(cfg, p, r) && ThreadStep(cfg, part, r, p, t, r', p')
    ensures Inv(cfg, r', p') && Inv(cfg, p', r')
  {
    assert ThreadOk(cfg, r, r.threads[t]);
    assert part == Testing ==> r.timeUp;
    PartShape(cfg, part, r, p, t, r', p');
    ThreadExit(cfg, part, r, p, t, r', p');
    ShapeKept(cfg, r, t, r');
    ThreadBooks(cfg, part, r, p, t, r', p');
    PartLink(cfg, part, r, p, t, r', p');
    LinkKept(cfg, r, p, t, r', p');
    PeerKept(cfg, r, p, t, r', p');
  }

  lemma SideKeeps(cfg: Config, r: Rank, p: Rank, r': Rank, p': Rank)
    requires ValidConfig(cfg) && Inv(cfg, r, p) && Inv(cfg, p, r) && SideStep(cfg, r, p, r', p')
    ensures Inv(cfg, r', p') && Inv(cfg, p', r')
  {
    if part, t: nat :| ThreadStep(cfg, part, r, p, t, r', p') {
      ThreadKeeps(cfg, part, r, p, t, r', p');
    } else {
      NetworkKeeps(cfg, r, p, r', p');
    }
  }

  lemma NetworkKeeps(cfg: Config, r: Rank, p: Rank, r': Rank, p': Rank)
    requires ValidConfig(cfg) && Inv(cfg, r, p) && Inv(cfg, p, r) && SideStep(cfg, r, p, r', p')
    requires forall part, t: nat :: !ThreadStep(cfg, part, r, p, t, r', p')
    ensures Inv(cfg, r', p') && Inv(cfg, p', r')
  {
    if t: nat, j: nat, q: nat :| DeliverStep(r, t, j, q, r') {
      DataKeeps(cfg, r, p, t, j, q, r');
    } else if q: nat :| DeliverDone(r, q, r') {
      DeliverDoneKeeps(cfg, r, p, q, r');
    } else {
      ClockKeeps(cfg, r, p, r');
    }
    PeerUntouched(cfg, r, p, r');
  }

  lemma DataKeeps(cfg: Config, r: Rank, p: Rank, t: nat, j: nat, q: nat, r': Rank)
    requires ValidConfig(cfg) && Inv(cfg, r, p) && DeliverStep(r, t, j, q, r')
    ensures Inv(cfg, r', p)
  {
    DeliverBalanced(r, t, j, q, r');
    BalancedBooks(r, t, r');
    DeliverKeeps(cfg, r, p, t, j, q, r');
  }

  lemma InitInv(cfg: Config, r: Rank, p: Rank)
    requires InitRank(cfg, r) && InitRank(cfg, p)
    ensures Inv(cfg, r, p)
  {
    CountExtremes(r.threads, AtCountPost);
    CountExtremes(r.threads, AtCountSend);
    CountExtremes(r.threads, AtCountCancel);
    CountExtremes(r.threads, IsFlagged);
    forall th | th in r.threads ensures OutstandingOf(th) == 0 {
      CountExtremes(th.slots, Holds);
    }
    SumAtLeastZero(r.threads, OutstandingOf);
  }

  ghost predicate BothInv(cfg: Config, s: System)
  {
    Inv(cfg, s.a, s.b) && Inv(cfg, s.b, s.a)
  }

  lemma StepInv(cfg: Config, s: System, s': System)
    requires ValidConfig(cfg) && BothInv(cfg, s) && Next(cfg, s, s')
    ensures BothInv(cfg, s')
  {
    if SideStep(cfg, s.a, s.b, s'.a, s'.b) {
      SideKeeps(cfg, s.a, s.b, s'.a, s'.b);
    } else {
      SideKeeps(cfg, s.b, s.a, s'.b, s'.a);
    }
  }

  lemma RunInit(cfg: Config, tr: seq<System>)
    requires IsRun(cfg, tr) && |tr| > 1
    ensures IsRun(cfg, tr[..|tr| - 1]) && Next(cfg, tr[|tr| - 2], tr[|tr| - 1])
  {
    var n := |tr| - 2;
    assert Next(cfg, tr[n], tr[n + 1]);
  }

  lemma {:induction false} RunInv(cfg: Config, tr: seq<System>)
    requires ValidConfig(cfg) && IsRun(cfg, tr) && Init(cfg, tr[0])
    ensures BothInv(cfg, tr[|tr| - 1])
    decreases |tr|
  {
    if |tr| == 1 {
      InitInv(cfg, tr[0].a, tr[0].b);
      InitInv(cfg, tr[0].b, tr[0].a);
    } else {
      RunInit(cfg, tr);
      var pre := tr[..|tr| - 1];
      assert pre[0] == tr[0] && pre[|pre| - 1] == tr[|tr| - 2];
      RunInv(cfg, pre);
      StepInv(cfg, tr[|tr| - 2], tr[|tr| - 1]);
    }
  }

  lemma ReachableInv(cfg: Config, s: System)
    requires ValidConfig(cfg) && Reachable(cfg, s)
    ensures Inv(cfg, s.a, s.b) && Inv(cfg, s.b, s.a)
  {
    var tr :| IsRun(cfg, tr) && Init(cfg, tr[0]) && tr[|tr| - 1] == s;
    RunInv(cfg, tr);
  }

  // ---------- the theorems ----------

  /** One rank of the system, and the other. */
  ghost function Mine(s: System, first: bool): Rank { if first then s.a else s.b }
  ghost function Peer(s: System, first: bool): Rank { if first then s.b else s.a }

  /** A thread that has left the main loop: every data message the peer ever sends has been received,
      none is in flight, the peer has closed its sends, and every slot of the rank that has not been cancelled
      yet holds exactly one outstanding receive. */
  lemma ExitOnlyWhenDrained(cfg: Config, s: System, first: bool, t: nat)
    requires ValidConfig(cfg) && Reachable(cfg, s)
    requires t < |Mine(s, first).threads| && InExit(Mine(s, first).threads[t].pc)
    ensures var r, p := Mine(s, first), Peer(s, first);
            && r.received == p.sent == r.expected && Closed(p)
            && (forall q :: 0 <= q < |r.inbox| ==> r.inbox[q].tag >= cfg.inflight)
            && (forall u :: 0 <= u < |r.threads| ==> ThreadDrained(r.threads[u]))
  {
    ReachableInv(cfg, s);
    var r, p := Mine(s, first), Peer(s, first);
    assert Drained(r, p);
    forall q | 0 <= q < |r.inbox| ensures r.inbox[q].tag >= cfg.inflight {
      DrainedInboxEmpty(cfg, r, p, q);
    }
  }

  /** The run never throws: no cancel fails, no receive is late, and the final comparison of counts,
      made after the second barrier, always agrees with what the peer sent. */
  lemma NeverThrows(cfg: Config, s: System, first: bool, t: nat)
    requires ValidConfig(cfg) && Reachable(cfg, s) && t < |Mine(s, first).threads|
    ensures var r, p := Mine(s, first), Peer(s, first);
            && !r.threads[t].pc.Thrown? && !r.late
            && (PastBarrier2(r.threads[t].pc) ==> r.recvPosted == r.expected == p.sent)
  {
    ReachableInv(cfg, s);
    var r, p := Mine(s, first), Peer(s, first);
    assert ThreadOk(cfg, r, r.threads[t]);
    if PastBarrier2(r.threads[t].pc) { FinalCountRight(cfg, r, p, t); }
  }

  /** The total a rank announces is final: from the moment the done message exists, the rank has
      sent exactly that many data messages and no thread is about to send another. */
  lemma AnnouncedTotalFinal(cfg: Config, s: System, first: bool, q: nat)
    requires ValidConfig(cfg) && Reachable(cfg, s)
    requires q < |Mine(s, first).inbox| && Mine(s, first).inbox[q].tag == DONE_TAG
    ensures var r, p := Mine(s, first), Peer(s, first);
            && r.inbox[q].value == p.sent && Closed(p)
            && forall u :: 0 <= u < |p.threads| ==> !p.threads[u].pc.SendNow?
  {
    ReachableInv(cfg, s);
    var r, p := Mine(s, first), Peer(s, first);
    assert MsgOk(cfg, p, r.inbox[q]);
    forall u | 0 <= u < |p.threads| ensures !p.threads[u].pc.SendNow? {
      assert ThreadOk(cfg, p, p.threads[u]);
    }
  }

  /** The total a rank acts on is the peer's total. */
  lemma CheckedTotalRight(cfg: Config, s: System, first: bool)
    requires ValidConfig(cfg) && Reachable(cfg, s) && Mine(s, first).checked
    ensures Mine(s, first).expected == Peer(s, first).sent
  {
    ReachableInv(cfg, s);
  }
}
