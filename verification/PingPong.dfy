/** Termination detection in the ping-pong benchmark (bench_p2p_pp_ft_avail_mt): two ranks, any
    number of threads per rank, any number of message slots per thread.

    A step is one shared-memory or communication action of one thread, or the delivery of one
    message.  The clock, the readiness of sends and the order of deliveries are free.  A step reads or
    writes one of the shared atomics, but for the two comparisons of counts: the loop condition and the
    final check read the count of receives and the peer's total, which no longer changes by then.
    `thread_barrier` is used through what Barrier.NoEarlyExit proves of it: a thread leaves it only
    after every thread of its rank has entered. */
module PingPong {

  /** The tag of the message that carries a rank's total. */
  const DONE_TAG: nat := 0xffff

  /** Threads per rank and message slots per thread; slot j uses tag j, so slots stay below the done tag. */
  datatype Config = Config(threads: nat, inflight: nat)

  ghost predicate ValidConfig(cfg: Config) { 0 < cfg.threads && cfg.inflight <= DONE_TAG }

  /** A message and the thread that sent it. */
  datatype Msg = Msg(tag: nat, value: int, from: nat)

  /** Where a thread is; slot loops carry their slot. */
  datatype PC =
    | PostCheck(j: nat) | CountPost(j: nat)
    | SendCheck(j: nat) | SendNow(j: nat) | CountSend(j: nat)
    | TimeCheck | TestSends
    | Elect | PostDone | SendDone
    | MasterCheck | StoreExpected(v: int) | SetChecked
    | LoopFlag | LoopCount
    | Barrier1 | CancelSlot(j: nat) | CountCancel(j: nat) | Barrier2
    | FinalCheck | Finished | Thrown

  /** `slots[j]`: slot j has an outstanding receive.  `flagged`: thread_sends_complete_flag. */
  datatype Thread = Thread(pc: PC, slots: seq<bool>, flagged: bool)

  /** The receive of the peer's total.  `behind`: the thread that posted it has a receive with the same tag outstanding
      that it posted earlier. */
  datatype DoneRecv = NotPosted | Outstanding(behind: bool) | Got(value: int)

  /** The shared atomics of one process and, as history, the receives really posted, completed and
      cancelled, and the data messages really sent.  `inbox` holds what the peer sent and nobody received.
      `late` records the branch that reports a late receive. */
  datatype Rank = Rank(
    recvPosted: int, sendPosted: int, timeUp: bool, completed: int, master: int,
    checked: bool, expected: int, doneRecv: DoneRecv,
    posted: nat, received: nat, cancelled: nat, sent: nat,
    inbox: seq<Msg>, late: bool, threads: seq<Thread>)

  datatype System = System(a: Rank, b: Rank)

  ghost function Goto(r: Rank, t: nat, pc: PC): Rank
    requires t < |r.threads|
  {
    r.(threads := r.threads[t := r.threads[t].(pc := pc)])
  }

  ghost function SetSlot(r: Rank, t: nat, j: nat, outstanding: bool, pc: PC): Rank
    requires t < |r.threads| && j < |r.threads[t].slots|
  {
    var th := r.threads[t];
    r.(threads := r.threads[t := Thread(pc, th.slots[j := outstanding], th.flagged)])
  }

  ghost function Deposit(p: Rank, m: Msg): Rank { p.(inbox := p.inbox + [m]) }

  ghost predicate InExit(pc: PC)
  {
    pc.Barrier1? || pc.CancelSlot? || pc.CountCancel? || pc.Barrier2? || pc.FinalCheck? || pc.Finished?
  }

  ghost predicate PastBarrier1(pc: PC) { InExit(pc) && !pc.Barrier1? }
  ghost predicate InBarrier2(pc: PC) { pc.Barrier2? || pc.FinalCheck? || pc.Finished? }
  ghost predicate PastBarrier2(pc: PC) { pc.FinalCheck? || pc.Finished? }

  // ---------- steps of one thread ----------

  /** Pre-post a receive in every free slot (lines 182-187). */
  ghost predicate PostStep(r: Rank, t: nat, r': Rank)
    requires t < |r.threads|
  {
    var th := r.threads[t];
    match th.pc
    case PostCheck(j) =>
      if j >= |th.slots| then r' == Goto(r, t, SendCheck(0))
      else if th.slots[j] then r' == Goto(r, t, PostCheck(j + 1))
      else r' == SetSlot(r, t, j, true, CountPost(j)).(posted := r.posted + 1)
    case CountPost(j) => r' == Goto(r, t, PostCheck(j + 1)).(recvPosted := r.recvPosted + 1)
    case _ => false
  }

  /** Send from every free slot while there is time (lines 192-198). */
  ghost predicate SendStep(cfg: Config, r: Rank, p: Rank, t: nat, r': Rank, p': Rank)
    requires t < |r.threads|
  {
    match r.threads[t].pc
    case SendCheck(j) =>
      && p' == p
      && (|| r' == Goto(r, t, if j >= cfg.inflight then TimeCheck else SendCheck(j + 1))
          || (j < cfg.inflight && !r.timeUp && r' == Goto(r, t, SendNow(j))))
    case SendNow(j) =>
      r' == Goto(r, t, CountSend(j)).(sent := r.sent + 1) && exists v :: p' == Deposit(p, Msg(j, v, t))
    case CountSend(j) => p' == p && r' == Goto(r, t, SendCheck(j + 1)).(sendPosted := r.sendPosted + 1)
    case _ => false
  }

  /** Poll the thread's sends; when all are complete, count the thread, once (lines 205-222). */
  ghost predicate TestStep(cfg: Config, r: Rank, t: nat, r': Rank)
    requires t < |r.threads|
  {
    var th := r.threads[t];
    && th.pc.TestSends?
    && (|| r' == Goto(r, t, LoopFlag)
        || (th.flagged && r' == Goto(r, t, MasterCheck))
        || (!th.flagged
            && var next := if r.completed + 1 == cfg.threads then Elect else MasterCheck;
               r' == r.(completed := r.completed + 1, threads := r.threads[t := th.(flagged := true, pc := next)])))
  }

  /** Thread `t` has an outstanding slot receive with the done tag. */
  ghost predicate ClashPending(r: Rank, t: nat)
    requires t < |r.threads|
  {
    DONE_TAG < |r.threads[t].slots| && r.threads[t].slots[DONE_TAG]
  }

  /** Is time up?  And, for the last thread to finish, the exchange of totals (lines 203, 224-232). */
  ghost predicate CloseStep(r: Rank, p: Rank, t: nat, r': Rank, p': Rank)
    requires t < |r.threads|
  {
    match r.threads[t].pc
    case TimeCheck => p' == p && r' == Goto(r, t, if r.timeUp then TestSends else LoopFlag)
    case Elect => p' == p && r' == Goto(r, t, PostDone).(master := t)
    case PostDone => p' == p && r' == Goto(r, t, SendDone).(doneRecv := Outstanding(ClashPending(r, t)))
    case SendDone => r' == Goto(r, t, MasterCheck) && p' == Deposit(p, Msg(DONE_TAG, r.sendPosted, t))
    case _ => false
  }

  /** The master thread reads the peer's total; then the loop condition (lines 234-256). */
  ghost predicate CheckStep(cfg: Config, r: Rank, t: nat, r': Rank)
    requires t < |r.threads|
  {
    match r.threads[t].pc
    case MasterCheck =>
      || r' == Goto(r, t, LoopFlag)
      || (r.master == t && !r.checked && r.doneRecv.Got? && r' == Goto(r, t, StoreExpected(r.doneRecv.value)))
    case StoreExpected(v) => r' == Goto(r, t, SetChecked).(expected := v)
    case SetChecked => r' == Goto(r, t, LoopFlag).(checked := true)
    case LoopFlag => r' == Goto(r, t, if r.checked then LoopCount else PostCheck(0))
    case LoopCount =>
      r' == Goto(r, t, if r.recvPosted == r.expected + cfg.threads * cfg.inflight then Barrier1 else PostCheck(0))
    case _ => false
  }

  /** Cancel the receive of slot `j`.  A cancel can fail only if a message for the slot has arrived. */
  ghost predicate CancelStep(r: Rank, t: nat, j: nat, r': Rank)
    requires t < |r.threads|
  {
    var th := r.threads[t];
    if j >= |th.slots| then r' == Goto(r, t, Barrier2)
    else if !th.slots[j] then r' == Goto(r, t, CancelSlot(j + 1)).(late := true)
    else
      || r' == SetSlot(r, t, j, false, CountCancel(j)).(cancelled := r.cancelled + 1)
      || ((exists q :: 0 <= q < |r.inbox| && r.inbox[q].tag == j) && r' == Goto(r, t, Thrown))
  }

  /** The first barrier, the cancels, the second barrier, the final check (lines 263-295). */
  ghost predicate ExitStep(r: Rank, t: nat, r': Rank)
    requires t < |r.threads|
  {
    match r.threads[t].pc
    case Barrier1 =>
      && (forall u :: 0 <= u < |r.threads| ==> InExit(r.threads[u].pc))
      && r' == Goto(r, t, CancelSlot(0))
    case CancelSlot(j) => CancelStep(r, t, j, r')
    case CountCancel(j) => r' == Goto(r, t, CancelSlot(j + 1)).(recvPosted := r.recvPosted - 1)
    case Barrier2 =>
      && (forall u :: 0 <= u < |r.threads| ==> InBarrier2(r.threads[u].pc))
      && r' == Goto(r, t, FinalCheck)
    case FinalCheck => r' == Goto(r, t, if r.recvPosted != r.expected then Thrown else Finished)
    case _ => false
  }

  // ---------- deliveries and the clock ----------

  ghost function Without(inbox: seq<Msg>, q: nat): seq<Msg>
    requires q < |inbox|
  {
    inbox[..q] + inbox[q + 1..]
  }

  /** Messages of one thread with one tag arrive in the order they were sent (section 3.5 of MPI 3.1). */
  ghost predicate InOrder(inbox: seq<Msg>, q: nat)
    requires q < |inbox|
  {
    forall k :: 0 <= k < q ==> !(inbox[k].tag == inbox[q].tag && inbox[k].from == inbox[q].from)
  }

  /** Slot `j` of thread `t` competes with the done receive that the same thread has posted. */
  ghost predicate Competes(r: Rank, t: nat, j: nat) { j == DONE_TAG && t == r.master && r.doneRecv.Outstanding? }

  /** Message `q` completes the outstanding receive of slot `j` of thread `t`.  Of two matching receives that one
      thread has posted, the earlier takes the message (section 3.5 of MPI 3.1). */
  ghost predicate DeliverStep(r: Rank, t: nat, j: nat, q: nat, r': Rank)
  {
    && t < |r.threads| && j < |r.threads[t].slots| && r.threads[t].slots[j]
    && q < |r.inbox| && r.inbox[q].tag == j && InOrder(r.inbox, q)
    && (Competes(r, t, j) ==> r.doneRecv.behind)
    && r' == SetSlot(r, t, j, false, r.threads[t].pc).(
               inbox := Without(r.inbox, q), received := r.received + 1,
               doneRecv := if Competes(r, t, j) then Outstanding(false) else r.doneRecv)
  }

  /** Message `q` completes the done receive. */
  ghost predicate DeliverDone(r: Rank, q: nat, r': Rank)
  {
    && r.doneRecv == Outstanding(false) && q < |r.inbox| && r.inbox[q].tag == DONE_TAG && InOrder(r.inbox, q)
    && r' == r.(inbox := Without(r.inbox, q), doneRecv := Got(r.inbox[q].value))
  }

  datatype Part = Posting | Sending | Testing | Closing | Checking | Exiting

  ghost predicate ThreadStep(cfg: Config, part: Part, r: Rank, p: Rank, t: nat, r': Rank, p': Rank)
  {
    && t < |r.threads|
    && match part
       case Posting => PostStep(r, t, r') && p' == p
       case Sending => SendStep(cfg, r, p, t, r', p')
       case Testing => TestStep(cfg, r, t, r') && p' == p
       case Closing => CloseStep(r, p, t, r', p')
       case Checking => CheckStep(cfg, r, t, r') && p' == p
       case Exiting => ExitStep(r, t, r') && p' == p
  }

  /** A step taken on the side of `r`; only a send touches the peer, by its inbox. */
  ghost predicate SideStep(cfg: Config, r: Rank, p: Rank, r': Rank, p': Rank)
  {
    || (exists part, t: nat :: ThreadStep(cfg, part, r, p, t, r', p'))
    || (p' == p && exists t: nat, j: nat, q: nat :: DeliverStep(r, t, j, q, r'))
    || (p' == p && exists q: nat :: DeliverDone(r, q, r'))
    || (p' == p && r' == r.(timeUp := true))
  }

  ghost predicate Next(cfg: Config, s: System, s': System)
  {
    SideStep(cfg, s.a, s.b, s'.a, s'.b) || SideStep(cfg, s.b, s.a, s'.b, s'.a)
  }

  ghost predicate InitRank(cfg: Config, r: Rank)
  {
    && |r.threads| == cfg.threads
    && (forall t :: 0 <= t < |r.threads| ==>
          r.threads[t] == Thread(PostCheck(0), seq(cfg.inflight, i => false), false))
    && r.recvPosted == r.sendPosted == r.completed == 0 && r.master == -1
    && !r.timeUp && !r.checked && r.expected == 0x7fff_ffff / 2 && r.doneRecv == NotPosted
    && r.posted == r.received == r.cancelled == r.sent == 0
    && r.inbox == [] && !r.late
  }

  ghost predicate Init(cfg: Config, s: System)
  {
    InitRank(cfg, s.a) && InitRank(cfg, s.b)
  }

  ghost predicate IsRun(cfg: Config, tr: seq<System>)
  {
    |tr| > 0 && forall i :: 0 <= i < |tr| - 1 ==> Next(cfg, tr[i], tr[i + 1])
  }

  ghost predicate Reachable(cfg: Config, s: System)
  {
    exists tr :: IsRun(cfg, tr) && Init(cfg, tr[0]) && tr[|tr| - 1] == s
  }
}
