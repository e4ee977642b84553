/** The slot tags must stay below the done tag: with more than 0xffff slots the protocol breaks. */
module PingPongTagClash {
  import opened PingPong
  import opened PingPongSafety
  import opened PingPongWalk

  /** What a thread sends from the slot whose tag is the done tag: data buffers hold zeros. */
  ghost function Clash(t: nat): Msg { Msg(DONE_TAG, 0, t) }

  /** Time is not up and no total is known: the rank goes on sending. */
  ghost predicate StillSending(r: Rank) { !r.timeUp && !r.checked }

  /** A thread sends one message from that slot. */
  lemma SendClashing(cfg: Config, s0: System, first: bool, r: Rank, p: Rank, t: nat) returns (r': Rank, p': Rank)
    requires At(cfg, s0, first, r, p, t, PostCheck(0)) && DONE_TAG < cfg.inflight && StillSending(r)
    ensures At(cfg, s0, first, r', p', t, SendCheck(DONE_TAG + 1)) && StillSending(r')
    ensures p' == Deposit(p, Clash(t)) && r'.sent == r.sent + 1
  {
    var r1 := WalkPosts(cfg, s0, first, r, p, t, 0);
    SkipSends(cfg, s0, first, r1, p, t, 0, DONE_TAG);
    r', p' := SendNext(cfg, s0, first, Goto(r1, t, SendCheck(DONE_TAG)), p, t);
  }

  lemma SendNext(cfg: Config, s0: System, first: bool, r: Rank, p: Rank, t: nat) returns (r': Rank, p': Rank)
    requires At(cfg, s0, first, r, p, t, SendCheck(DONE_TAG)) && DONE_TAG < cfg.inflight && StillSending(r)
    ensures At(cfg, s0, first, r', p', t, SendCheck(DONE_TAG + 1)) && StillSending(r')
    ensures p' == Deposit(p, Clash(t)) && r'.sent == r.sent + 1
  {
    var r1 := Goto(r, t, SendNow(DONE_TAG));
    Move(cfg, s0, first, Sending, r, p, t, r1, p);
    var r2 := Goto(r1, t, CountSend(DONE_TAG)).(sent := r1.sent + 1);
    p' := Deposit(p, Clash(t));
    Move(cfg, s0, first, Sending, r1, p, t, r2, p');
    r' := Goto(r2, t, SendCheck(DONE_TAG + 1)).(sendPosted := r2.sendPosted + 1);
    Move(cfg, s0, first, Sending, r2, p', t, r', p');
  }

  /** The thread goes round its loop, back to the receives. */
  lemma NextRound(cfg: Config, s0: System, first: bool, r: Rank, p: Rank, t: nat, j: nat) returns (r': Rank)
    requires At(cfg, s0, first, r, p, t, SendCheck(j)) && StillSending(r)
    ensures At(cfg, s0, first, r', p, t, PostCheck(0)) && StillSending(r') && r'.sent == r.sent
  {
    var r1 := SendsOver(cfg, s0, first, r, p, t, j);
    var r2 := Goto(r1, t, LoopFlag);
    Move(cfg, s0, first, Closing, r1, p, t, r2, p);
    r' := Goto(r2, t, PostCheck(0));
    Move(cfg, s0, first, Checking, r2, p, t, r', p);
  }

  /** What counting one thread leaves as it was. */
  ghost predicate Counted(cfg: Config, r: Rank, t: nat, r': Rank)
  {
    && t < |r.threads| == |r'.threads| && r'.threads == r.threads[t := r'.threads[t]]
    && r'.completed == r.completed + 1 && r'.inbox == r.inbox && r'.checked == r.checked && r'.timeUp
    && r'.threads[t].pc == (if r.completed + 1 == cfg.threads then Elect else MasterCheck)
    && |r'.threads[t].slots| == cfg.inflight && FilledFrom(r'.threads[t], 0)
  }

  lemma CountThread(cfg: Config, s0: System, first: bool, r: Rank, p: Rank, t: nat) returns (r': Rank)
    requires At(cfg, s0, first, r, p, t, PostCheck(0)) && r.timeUp && !r.threads[t].flagged
    ensures Reaches(cfg, s0, Sys(first, r', p)) && Counted(cfg, r, t, r')
  {
    var r1 := WalkPosts(cfg, s0, first, r, p, t, 0);
    var r2 := ReachTest(cfg, s0, first, r1, p, t, 0);
    r' := Flag(cfg, s0, first, r2, p, t);
  }

  /** The first `k` threads are counted, the others have not started. */
  ghost predicate Waiting(cfg: Config, r: Rank, k: nat)
  {
    && k <= cfg.threads == |r.threads| && r.completed == k && r.timeUp
    && forall u :: k <= u < |r.threads| ==>
         r.threads[u].pc == PostCheck(0) && !r.threads[u].flagged && |r.threads[u].slots| == cfg.inflight
  }

  /** All threads are counted one after the other; the last one is elected. */
  lemma {:induction false} ReachElect(cfg: Config, s0: System, first: bool, r: Rank, p: Rank, k: nat)
    returns (r': Rank)
    requires Reaches(cfg, s0, Sys(first, r, p)) && Waiting(cfg, r, k) && k < cfg.threads
    ensures At(cfg, s0, first, r', p, cfg.threads - 1, Elect) && r'.inbox == r.inbox && r'.checked == r.checked
    ensures FilledFrom(r'.threads[cfg.threads - 1], 0)
    decreases cfg.threads - k
  {
    r' := CountThread(cfg, s0, first, r, p, k);
    if k + 1 < cfg.threads {
      r' := ReachElect(cfg, s0, first, r', p, k + 1);
    }
  }

  /** The first clashing message completes the slot receive, which was posted before the done receive. */
  lemma TakeFirst(cfg: Config, s0: System, first: bool, r: Rank, p: Rank, t: nat) returns (r': Rank)
    requires At(cfg, s0, first, r, p, t, MasterCheck) && r.inbox == [Clash(0), Clash(0)] && !r.checked
    requires DONE_TAG < cfg.inflight && FilledFrom(r.threads[t], 0)
    requires r.master == t && r.doneRecv == Outstanding(true)
    ensures At(cfg, s0, first, r', p, t, MasterCheck) && r'.inbox == [Clash(0)] && !r'.checked
    ensures r'.master == t && r'.doneRecv == Outstanding(false)
  {
    r' := SetSlot(r, t, DONE_TAG, false, r.threads[t].pc).(
            inbox := Without(r.inbox, 0), received := r.received + 1, doneRecv := Outstanding(false));
    assert DeliverStep(r, t, DONE_TAG, 0, r');
    Extend(cfg, s0, first, r, p, r', p);
  }

  /** The second one completes the done receive, before the slot is posted again. */
  lemma TakeSecond(cfg: Config, s0: System, first: bool, r: Rank, p: Rank, t: nat) returns (r': Rank)
    requires At(cfg, s0, first, r, p, t, MasterCheck) && r.inbox == [Clash(0)] && !r.checked
    requires r.master == t && r.doneRecv == Outstanding(false)
    ensures Reaches(cfg, s0, Sys(first, r', p)) && r'.checked && r'.expected == 0
  {
    var r1 := r.(inbox := Without(r.inbox, 0), doneRecv := Got(0));
    assert DeliverDone(r, 0, r1);
    Extend(cfg, s0, first, r, p, r1, p);
    r' := ActOnTotal(cfg, s0, first, r1, p, t, 0);
  }

  ghost function StartRank(cfg: Config): Rank
  {
    Rank(0, 0, false, 0, -1, false, 0x7fff_ffff / 2, NotPosted, 0, 0, 0, 0, [], false,
         seq(cfg.threads, i => Thread(PostCheck(0), seq(cfg.inflight, k => false), false)))
  }

  ghost function Start(cfg: Config): System { System(StartRank(cfg), StartRank(cfg)) }

  /** Peer `b` has sent two clashing messages, and nothing has happened on `a`. */
  lemma ClashInFlight(cfg: Config) returns (a: Rank, b: Rank)
    requires cfg.threads > 0 && cfg.inflight > DONE_TAG
    ensures Reaches(cfg, Start(cfg), Sys(true, a, b)) && b.sent == 2
    ensures a == StartRank(cfg).(inbox := [Clash(0), Clash(0)])
  {
    var s0 := Start(cfg);
    Stay(cfg, s0);
    var a0, b0 := StartRank(cfg), StartRank(cfg);
    assert Sys(false, b0, a0) == s0;
    var b1, a1 := SendClashing(cfg, s0, false, b0, a0, 0);
    var b2 := NextRound(cfg, s0, false, b1, a1, 0, DONE_TAG + 1);
    b, a := SendClashing(cfg, s0, false, b2, a1, 0);
    assert Sys(false, b, a) == Sys(true, a, b);
  }

  /** With a slot tag equal to the done tag, a rank can take a data message for the peer's total and act on a total
      the peer never sent, whatever the number of threads.  Two messages clash: the elected thread's slot receive,
      posted first, takes the first, its done receive the second.  The done receive has room for four bytes, so
      this is a run with data messages of at most four bytes. */
  lemma SlotTagMeetsDoneTag(cfg: Config) returns (s: System)
    requires cfg.threads > 0 && cfg.inflight > DONE_TAG
    ensures Reachable(cfg, s) && s.a.checked && s.a.expected != s.b.sent
  {
    var s0, m := Start(cfg), cfg.threads - 1;
    var a1, b1 := ClashInFlight(cfg);
    var a2 := a1.(timeUp := true);
    Extend(cfg, s0, true, a1, b1, a2, b1);
    var a3 := ReachElect(cfg, s0, true, a2, b1, 0);
    var a4, b4 := Announce(cfg, s0, true, a3, b1, m);
    var a5 := TakeFirst(cfg, s0, true, a4, b4, m);
    var a6 := TakeSecond(cfg, s0, true, a5, b4, m);
    s := Sys(true, a6, b4);
    FromStart(cfg, s);
  }

  lemma FromStart(cfg: Config, s: System)
    requires Reaches(cfg, Start(cfg), s)
    ensures Reachable(cfg, s)
  {
    assert Init(cfg, Start(cfg));
  }

  /** The protocol acts on the right total exactly when the slot tags stay below the done tag. */
  lemma RightIffTagsDistinct(cfg: Config)
    requires cfg.threads > 0
    ensures cfg.inflight <= DONE_TAG <==>
              forall s :: Reachable(cfg, s) && s.a.checked ==> s.a.expected == s.b.sent
  {
    if cfg.inflight <= DONE_TAG {
      forall s | Reachable(cfg, s) && s.a.checked ensures s.a.expected == s.b.sent {
        CheckedTotalRight(cfg, s, true);
      }
    } else {
      var s := SlotTagMeetsDoneTag(cfg);
    }
  }
}
