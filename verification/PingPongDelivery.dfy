/** Every slot of the ping-pong benchmark can send, and what it sends can complete the peer's receive of that slot and
    of no other. */
module PingPongDelivery {
  import opened PingPong
  import opened PingPongWalk
  import opened PingPongTagClash

  // ---------- a message goes from slot to slot ----------

  /** A thread walks to its slot `j` and sends from it. */
  lemma SendFrom(cfg: Config, s0: System, first: bool, r: Rank, p: Rank, t: nat, j: nat, v: int)
    returns (r': Rank, p': Rank)
    requires At(cfg, s0, first, r, p, t, PostCheck(0)) && j < cfg.inflight && !r.timeUp
    ensures Reaches(cfg, s0, Sys(first, r', p')) && p' == Deposit(p, Msg(j, v, t)) && r'.sent == r.sent + 1
    ensures r'.sendPosted == r.sendPosted + 1
  {
    var r1 := WalkPosts(cfg, s0, first, r, p, t, 0);
    SkipSends(cfg, s0, first, r1, p, t, 0, j);
    r', p' := SendHere(cfg, s0, first, Goto(r1, t, SendCheck(j)), p, t, j, v);
  }

  lemma SendHere(cfg: Config, s0: System, first: bool, r: Rank, p: Rank, t: nat, j: nat, v: int)
    returns (r': Rank, p': Rank)
    requires At(cfg, s0, first, r, p, t, SendCheck(j)) && j < cfg.inflight && !r.timeUp
    ensures Reaches(cfg, s0, Sys(first, r', p')) && p' == Deposit(p, Msg(j, v, t)) && r'.sent == r.sent + 1
    ensures r'.sendPosted == r.sendPosted + 1
  {
    var r1 := Goto(r, t, SendNow(j));
    Move(cfg, s0, first, Sending, r, p, t, r1, p);
    var r2 := Goto(r1, t, CountSend(j)).(sent := r1.sent + 1);
    p' := Deposit(p, Msg(j, v, t));
    Move(cfg, s0, first, Sending, r1, p, t, r2, p');
    r' := Goto(r2, t, SendCheck(j + 1)).(sendPosted := r2.sendPosted + 1);
    Move(cfg, s0, first, Sending, r2, p', t, r', p');
  }

  /** A thread posts its receives, and the only message there is completes that of its slot `j`. */
  lemma ReceiveAt(cfg: Config, s0: System, first: bool, r: Rank, p: Rank, u: nat, j: nat, m: Msg)
    returns (mid: Rank, r': Rank)
    requires At(cfg, s0, first, r, p, u, PostCheck(0)) && j < cfg.inflight && r.inbox == [m] && m.tag == j
    requires r.doneRecv == NotPosted
    ensures Reaches(cfg, s0, Sys(first, mid, p)) && Reaches(cfg, s0, Sys(first, r', p))
    ensures mid.inbox == [m] && r'.inbox == [] && mid.received == r.received && r'.received == r.received + 1
    ensures |mid.threads| == |r.threads| && FilledFrom(mid.threads[u], 0) && |mid.threads[u].slots| == cfg.inflight
    ensures r'.threads == mid.threads[u := mid.threads[u].(slots := mid.threads[u].slots[j := false])]
  {
    mid := WalkPosts(cfg, s0, first, r, p, u, 0);
    r' := SetSlot(mid, u, j, false, mid.threads[u].pc).(inbox := Without(mid.inbox, 0), received := mid.received + 1);
    assert r' == r'.(doneRecv := mid.doneRecv);
    assert DeliverStep(mid, u, j, 0, r');
    Extend(cfg, s0, first, mid, p, r', p);
  }

  /** For every configuration with threads and slots, every thread `t` of one rank, every thread `u` of the other, every
      slot and every content: some run sends from that slot of `t`, and the message completes the receive that `u` has
      posted for the same slot, and no other receive. */
  lemma EverySlotDelivers(cfg: Config, t: nat, u: nat, j: nat, v: int) returns (s: System, s': System)
    requires t < cfg.threads && u < cfg.threads && j < cfg.inflight
    ensures Reachable(cfg, s) && Reachable(cfg, s')
    ensures s.b.sent == 1 && s.a.inbox == [Msg(j, v, t)] && s.a.received == 0
    ensures s'.b == s.b && s'.a.inbox == [] && s'.a.received == 1
    ensures u < |s.a.threads| && |s.a.threads[u].slots| == cfg.inflight && s.a.threads[u].slots[j]
    ensures s'.a.threads == s.a.threads[u := s.a.threads[u].(slots := s.a.threads[u].slots[j := false])]
  {
    var s0 := Start(cfg);
    Stay(cfg, s0);
    var a0, b0 := StartRank(cfg), StartRank(cfg);
    assert Sys(false, b0, a0) == s0;
    var b1, a1 := SendFrom(cfg, s0, false, b0, a0, t, j, v);
    assert Sys(false, b1, a1) == Sys(true, a1, b1);
    var mid, a2 := ReceiveAt(cfg, s0, true, a1, b1, u, j, Msg(j, v, t));
    s, s' := Sys(true, mid, b1), Sys(true, a2, b1);
    FromStart(cfg, s);
    FromStart(cfg, s');
  }

  // ---------- and nowhere else ----------

  /** A step that counts a received message takes it out of the inbox, first of its sender and tag, and completes
      exactly one receive: one that was outstanding for the slot with the message's tag. */
  lemma ReceiptMatches(cfg: Config, r: Rank, p: Rank, r': Rank, p': Rank)
    requires SideStep(cfg, r, p, r', p') && r'.received != r.received
    ensures exists u: nat, q: nat :: Received(r, u, q, r')
  {
    if part, t: nat :| ThreadStep(cfg, part, r, p, t, r', p') {
      ThreadReceivesNothing(cfg, part, r, p, t, r', p');
    } else {
      var u: nat, j: nat, q: nat :| DeliverStep(r, u, j, q, r');
      assert Received(r, u, q, r');
    }
  }

  /** Message `q` has completed the receive that thread `u` had posted for the slot of its tag. */
  ghost predicate Received(r: Rank, u: nat, q: nat, r': Rank)
  {
    && u < |r.threads| && q < |r.inbox| && InOrder(r.inbox, q) && r'.inbox == Without(r.inbox, q)
    && var j := r.inbox[q].tag;
       && j < |r.threads[u].slots| && r.threads[u].slots[j]
       && r'.threads == r.threads[u := r.threads[u].(slots := r.threads[u].slots[j := false])]
  }

  lemma ThreadReceivesNothing(cfg: Config, part: Part, r: Rank, p: Rank, t: nat, r': Rank, p': Rank)
    requires ThreadStep(cfg, part, r, p, t, r', p')
    ensures r'.received == r.received && r'.inbox == r.inbox
  {
    match part
    case Sending => SendingReceivesNothing(cfg, r, p, t, r', p');
    case Closing => ClosingReceivesNothing(r, p, t, r', p');
    case Exiting => ExitingReceivesNothing(r, t, r');
    case _ =>
  }

  lemma SendingReceivesNothing(cfg: Config, r: Rank, p: Rank, t: nat, r': Rank, p': Rank)
    requires t < |r.threads| && SendStep(cfg, r, p, t, r', p')
    ensures r'.received == r.received && r'.inbox == r.inbox
  {
  }

  lemma ClosingReceivesNothing(r: Rank, p: Rank, t: nat, r': Rank, p': Rank)
    requires t < |r.threads| && CloseStep(r, p, t, r', p')
    ensures r'.received == r.received && r'.inbox == r.inbox
  {
  }

  lemma ExitingReceivesNothing(r: Rank, t: nat, r': Rank)
    requires t < |r.threads| && ExitStep(r, t, r')
    ensures r'.received == r.received && r'.inbox == r.inbox
  {
  }

  /** A step that counts a data message has put it into the peer's inbox, with the tag of the slot its thread sends
      from. */
  lemma SendMatches(cfg: Config, r: Rank, p: Rank, r': Rank, p': Rank)
    requires SideStep(cfg, r, p, r', p') && r'.sent != r.sent
    ensures exists t: nat, v: int :: t < |r.threads| && r.threads[t].pc.SendNow?
              && p' == Deposit(p, Msg(r.threads[t].pc.j, v, t))
  {
    var part, t: nat :| ThreadStep(cfg, part, r, p, t, r', p');
    SendOnly(cfg, part, r, p, t, r', p');
    var v :| p' == Deposit(p, Msg(r.threads[t].pc.j, v, t));
  }

  lemma SendOnly(cfg: Config, part: Part, r: Rank, p: Rank, t: nat, r': Rank, p': Rank)
    requires ThreadStep(cfg, part, r, p, t, r', p') && r'.sent != r.sent
    ensures r.threads[t].pc.SendNow? && exists v :: p' == Deposit(p, Msg(r.threads[t].pc.j, v, t))
  {
    match part
    case Sending => SlotSends(cfg, r, p, t, r', p');
    case _ => OthersSendNothing(cfg, part, r, p, t, r', p');
  }

  lemma SlotSends(cfg: Config, r: Rank, p: Rank, t: nat, r': Rank, p': Rank)
    requires t < |r.threads| && SendStep(cfg, r, p, t, r', p') && r'.sent != r.sent
    ensures r.threads[t].pc.SendNow? && exists v :: p' == Deposit(p, Msg(r.threads[t].pc.j, v, t))
  {
  }

  lemma OthersSendNothing(cfg: Config, part: Part, r: Rank, p: Rank, t: nat, r': Rank, p': Rank)
    requires ThreadStep(cfg, part, r, p, t, r', p') && part != Sending
    ensures r'.sent == r.sent
  {
  }
}
