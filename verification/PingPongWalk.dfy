/** Building runs of the ping-pong benchmark: one thread walks through its loop while all others wait. */
module PingPongWalk {
  import opened PingPong

  ghost function Sys(first: bool, r: Rank, p: Rank): System { if first then System(r, p) else System(p, r) }

  /** Some run leads from `s0` to `s`. */
  ghost predicate Reaches(cfg: Config, s0: System, s: System)
  {
    exists tr :: IsRun(cfg, tr) && tr[0] == s0 && tr[|tr| - 1] == s
  }

  lemma Stay(cfg: Config, s: System)
    ensures Reaches(cfg, s, s)
  {
    assert IsRun(cfg, [s]) && [s][0] == s;
  }

  lemma GoOn(cfg: Config, s0: System, s: System, s': System)
    requires Reaches(cfg, s0, s) && Next(cfg, s, s')
    ensures Reaches(cfg, s0, s')
  {
    var tr :| IsRun(cfg, tr) && tr[0] == s0 && tr[|tr| - 1] == s;
    var tr' := tr + [s'];
    forall i | 0 <= i < |tr'| - 1 ensures Next(cfg, tr'[i], tr'[i + 1]) {
      if i < |tr| - 1 { assert Next(cfg, tr[i], tr[i + 1]); }
    }
    assert IsRun(cfg, tr') && tr'[0] == s0 && tr'[|tr'| - 1] == s';
  }

  lemma SideIsNext(cfg: Config, first: bool, r: Rank, p: Rank, r': Rank, p': Rank)
    requires SideStep(cfg, r, p, r', p')
    ensures Next(cfg, Sys(first, r, p), Sys(first, r', p'))
  {
  }

  lemma Extend(cfg: Config, s0: System, first: bool, r: Rank, p: Rank, r': Rank, p': Rank)
    requires Reaches(cfg, s0, Sys(first, r, p)) && SideStep(cfg, r, p, r', p')
    ensures Reaches(cfg, s0, Sys(first, r', p'))
  {
    SideIsNext(cfg, first, r, p, r', p');
    GoOn(cfg, s0, Sys(first, r, p), Sys(first, r', p'));
  }

  lemma Move(cfg: Config, s0: System, first: bool, part: Part, r: Rank, p: Rank, t: nat, r': Rank, p': Rank)
    requires Reaches(cfg, s0, Sys(first, r, p)) && ThreadStep(cfg, part, r, p, t, r', p')
    ensures Reaches(cfg, s0, Sys(first, r', p'))
  {
    Extend(cfg, s0, first, r, p, r', p');
  }

  /** A rank whose thread `t` is at `pc`, in a system that `s0` leads to. */
  ghost predicate At(cfg: Config, s0: System, first: bool, r: Rank, p: Rank, t: nat, pc: PC)
  {
    && Reaches(cfg, s0, Sys(first, r, p))
    && t < |r.threads| && |r.threads[t].slots| == cfg.inflight && r.threads[t].pc == pc
  }

  /** Posting receives changes nothing but the thread's slots and the counts of receives. */
  ghost predicate OnlyPosts(r: Rank, t: nat, r': Rank)
  {
    && r' == r.(threads := r'.threads, posted := r'.posted, recvPosted := r'.recvPosted)
    && t < |r.threads| == |r'.threads| && r'.threads == r.threads[t := r'.threads[t]]
    && r'.threads[t].flagged == r.threads[t].flagged
  }

  /** Slots below `j` are as they were, slot `j` is outstanding. */
  ghost predicate SlotPosted(th: Thread, th': Thread, j: nat)
  {
    j < |th.slots| == |th'.slots| && th'.slots == th.slots[j := true]
  }

  /** One slot of the posting loop. */
  lemma PostOne(cfg: Config, s0: System, first: bool, r: Rank, p: Rank, t: nat, j: nat) returns (r': Rank)
    requires At(cfg, s0, first, r, p, t, PostCheck(j)) && j < cfg.inflight
    ensures At(cfg, s0, first, r', p, t, PostCheck(j + 1)) && OnlyPosts(r, t, r')
    ensures SlotPosted(r.threads[t], r'.threads[t], j)
  {
    if r.threads[t].slots[j] {
      r' := Goto(r, t, PostCheck(j + 1));
      Move(cfg, s0, first, Posting, r, p, t, r', p);
    } else {
      r' := PostFree(cfg, s0, first, r, p, t, j);
    }
  }

  lemma PostFree(cfg: Config, s0: System, first: bool, r: Rank, p: Rank, t: nat, j: nat) returns (r': Rank)
    requires At(cfg, s0, first, r, p, t, PostCheck(j)) && j < cfg.inflight && !r.threads[t].slots[j]
    ensures At(cfg, s0, first, r', p, t, PostCheck(j + 1)) && OnlyPosts(r, t, r')
    ensures SlotPosted(r.threads[t], r'.threads[t], j)
  {
    var r1 := SetSlot(r, t, j, true, CountPost(j)).(posted := r.posted + 1);
    Move(cfg, s0, first, Posting, r, p, t, r1, p);
    r' := Goto(r1, t, PostCheck(j + 1)).(recvPosted := r1.recvPosted + 1);
    Move(cfg, s0, first, Posting, r1, p, t, r', p);
  }

  /** Every slot of the thread from `j` on has an outstanding receive. */
  ghost predicate FilledFrom(th: Thread, j: nat) { forall i :: j <= i < |th.slots| ==> th.slots[i] }

  lemma {:induction false} WalkPosts(cfg: Config, s0: System, first: bool, r: Rank, p: Rank, t: nat, j: nat)
    returns (r': Rank)
    requires At(cfg, s0, first, r, p, t, PostCheck(j)) && j <= cfg.inflight
    ensures At(cfg, s0, first, r', p, t, SendCheck(0)) && OnlyPosts(r, t, r') && FilledFrom(r'.threads[t], j)
    ensures forall i :: 0 <= i < j ==> r'.threads[t].slots[i] == r.threads[t].slots[i]
    decreases cfg.inflight - j
  {
    if j == cfg.inflight {
      r' := Goto(r, t, SendCheck(0));
      Move(cfg, s0, first, Posting, r, p, t, r', p);
    } else {
      var r1 := PostOne(cfg, s0, first, r, p, t, j);
      r' := WalkPosts(cfg, s0, first, r1, p, t, j + 1);
    }
  }

  lemma GotoTwice(r: Rank, t: nat, pc: PC, pc': PC)
    requires t < |r.threads|
    ensures Goto(Goto(r, t, pc), t, pc') == Goto(r, t, pc')
  {
    assert Goto(Goto(r, t, pc), t, pc').threads == Goto(r, t, pc').threads;
  }

  /** Every send slot up to `target` is busy. */
  lemma {:induction false} SkipSends(cfg: Config, s0: System, first: bool, r: Rank, p: Rank, t: nat, j: nat,
                                     target: nat)
    requires At(cfg, s0, first, r, p, t, SendCheck(j)) && j <= target <= cfg.inflight
    ensures At(cfg, s0, first, Goto(r, t, SendCheck(target)), p, t, SendCheck(target))
    decreases target - j
  {
    if j == target {
      assert Goto(r, t, SendCheck(target)) == r;
    } else {
      var r1 := Goto(r, t, SendCheck(j + 1));
      Move(cfg, s0, first, Sending, r, p, t, r1, p);
      SkipSends(cfg, s0, first, r1, p, t, j + 1, target);
      GotoTwice(r, t, SendCheck(j + 1), SendCheck(target));
    }
  }

  /** No more sends in this round. */
  lemma SendsOver(cfg: Config, s0: System, first: bool, r: Rank, p: Rank, t: nat, j: nat) returns (r': Rank)
    requires At(cfg, s0, first, r, p, t, SendCheck(j))
    ensures r' == Goto(r, t, TimeCheck) && At(cfg, s0, first, r', p, t, TimeCheck)
  {
    r' := Goto(r, t, TimeCheck);
    if j < cfg.inflight {
      SkipSends(cfg, s0, first, r, p, t, j, cfg.inflight);
      GotoTwice(r, t, SendCheck(cfg.inflight), TimeCheck);
      Move(cfg, s0, first, Sending, Goto(r, t, SendCheck(cfg.inflight)), p, t, r', p);
    } else {
      Move(cfg, s0, first, Sending, r, p, t, r', p);
    }
  }

  lemma TimeIsUp(cfg: Config, s0: System, first: bool, r: Rank, p: Rank, t: nat) returns (r': Rank)
    requires At(cfg, s0, first, r, p, t, TimeCheck) && r.timeUp
    ensures r' == Goto(r, t, TestSends) && At(cfg, s0, first, r', p, t, TestSends)
  {
    r' := Goto(r, t, TestSends);
    Move(cfg, s0, first, Closing, r, p, t, r', p);
  }

  /** From the sends to the test of their completion. */
  lemma ReachTest(cfg: Config, s0: System, first: bool, r: Rank, p: Rank, t: nat, j: nat) returns (r': Rank)
    requires At(cfg, s0, first, r, p, t, SendCheck(j)) && r.timeUp
    ensures r' == Goto(r, t, TestSends) && At(cfg, s0, first, r', p, t, TestSends)
  {
    var r1 := SendsOver(cfg, s0, first, r, p, t, j);
    r' := TimeIsUp(cfg, s0, first, r1, p, t);
    GotoTwice(r, t, TimeCheck, TestSends);
  }

  /** A thread whose time is up and whose sends are complete is counted; the last one goes on to `Elect`. */
  ghost function AfterFlag(cfg: Config, r: Rank, t: nat): Rank
    requires t < |r.threads|
  {
    var next := if r.completed + 1 == cfg.threads then Elect else MasterCheck;
    r.(completed := r.completed + 1, threads := r.threads[t := r.threads[t].(flagged := true, pc := next)])
  }

  lemma Flag(cfg: Config, s0: System, first: bool, r: Rank, p: Rank, t: nat) returns (r': Rank)
    requires At(cfg, s0, first, r, p, t, TestSends) && !r.threads[t].flagged
    ensures r' == AfterFlag(cfg, r, t) && Reaches(cfg, s0, Sys(first, r', p))
  {
    r' := AfterFlag(cfg, r, t);
    Move(cfg, s0, first, Testing, r, p, t, r', p);
  }

  /** The elected thread posts the done receive and sends its rank's total. */
  lemma Announce(cfg: Config, s0: System, first: bool, r: Rank, p: Rank, t: nat) returns (r': Rank, p': Rank)
    requires At(cfg, s0, first, r, p, t, Elect)
    ensures At(cfg, s0, first, r', p', t, MasterCheck)
    ensures r' == Goto(r, t, MasterCheck).(master := t, doneRecv := Outstanding(ClashPending(r, t)))
    ensures p' == Deposit(p, Msg(DONE_TAG, r.sendPosted, t))
  {
    var r1 := Goto(r, t, PostDone).(master := t);
    Move(cfg, s0, first, Closing, r, p, t, r1, p);
    r', p' := PostAndSend(cfg, s0, first, r1, p, t);
    GotoTwice(r, t, PostDone, MasterCheck);
  }

  lemma PostAndSend(cfg: Config, s0: System, first: bool, r: Rank, p: Rank, t: nat) returns (r': Rank, p': Rank)
    requires At(cfg, s0, first, r, p, t, PostDone)
    ensures At(cfg, s0, first, r', p', t, MasterCheck)
    ensures r' == Goto(r, t, MasterCheck).(doneRecv := Outstanding(ClashPending(r, t)))
    ensures p' == Deposit(p, Msg(DONE_TAG, r.sendPosted, t))
  {
    var r1 := Goto(r, t, SendDone).(doneRecv := Outstanding(ClashPending(r, t)));
    Move(cfg, s0, first, Closing, r, p, t, r1, p);
    r', p' := SendTotal(cfg, s0, first, r1, p, t);
    GotoTwice(r, t, SendDone, MasterCheck);
  }

  lemma SendTotal(cfg: Config, s0: System, first: bool, r: Rank, p: Rank, t: nat) returns (r': Rank, p': Rank)
    requires At(cfg, s0, first, r, p, t, SendDone)
    ensures At(cfg, s0, first, r', p', t, MasterCheck)
    ensures r' == Goto(r, t, MasterCheck) && p' == Deposit(p, Msg(DONE_TAG, r.sendPosted, t))
  {
    r' := Goto(r, t, MasterCheck);
    p' := Deposit(p, Msg(DONE_TAG, r.sendPosted, t));
    Move(cfg, s0, first, Closing, r, p, t, r', p');
  }

  /** The master acts on the total it has received. */
  lemma ActOnTotal(cfg: Config, s0: System, first: bool, r: Rank, p: Rank, t: nat, v: int) returns (r': Rank)
    requires At(cfg, s0, first, r, p, t, MasterCheck) && !r.checked && r.master == t && r.doneRecv == Got(v)
    ensures At(cfg, s0, first, r', p, t, LoopFlag)
    ensures r' == Goto(r, t, LoopFlag).(expected := v, checked := true)
  {
    var r1 := Goto(r, t, StoreExpected(v));
    Move(cfg, s0, first, Checking, r, p, t, r1, p);
    r' := Store(cfg, s0, first, r1, p, t, v);
    GotoTwice(r, t, StoreExpected(v), LoopFlag);
  }

  lemma Store(cfg: Config, s0: System, first: bool, r: Rank, p: Rank, t: nat, v: int) returns (r': Rank)
    requires At(cfg, s0, first, r, p, t, StoreExpected(v))
    ensures At(cfg, s0, first, r', p, t, LoopFlag)
    ensures r' == Goto(r, t, LoopFlag).(expected := v, checked := true)
  {
    var r1 := Goto(r, t, SetChecked).(expected := v);
    Move(cfg, s0, first, Checking, r, p, t, r1, p);
    r' := Check(cfg, s0, first, r1, p, t);
    GotoTwice(r, t, SetChecked, LoopFlag);
  }

  lemma Check(cfg: Config, s0: System, first: bool, r: Rank, p: Rank, t: nat) returns (r': Rank)
    requires At(cfg, s0, first, r, p, t, SetChecked)
    ensures At(cfg, s0, first, r', p, t, LoopFlag) && r' == Goto(r, t, LoopFlag).(checked := true)
  {
    r' := Goto(r, t, LoopFlag).(checked := true);
    Move(cfg, s0, first, Checking, r, p, t, r', p);
  }
}
