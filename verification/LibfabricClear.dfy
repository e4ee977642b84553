/** What one `clear_callback_queues` of the libfabric backend does when no other thread comes in between. */
module LibfabricClear {
  import opened Libfabric

  /** The operations in queue `q`, in order. */
  ghost function Ids(queued: seq<Entry>, q: QName): seq<Id>
  {
    if queued == [] then [] else
      var n := |queued| - 1;
      if queued[n].q == q then Ids(queued[..n], q) + [queued[n].id] else Ids(queued[..n], q)
  }

  /** The queue is one that `clear_callback_queues` on communicator `c` works off. */
  ghost predicate Cleared(q: QName, c: nat) { q == SendQ(c) || q == RecvQ(c) || q == CtxQ }

  /** Everything that is in other queues, in order. */
  ghost function Rest(queued: seq<Entry>, c: nat): seq<Entry>
  {
    if queued == [] then [] else
      var n := |queued| - 1;
      if Cleared(queued[n].q, c) then Rest(queued[..n], c) else Rest(queued[..n], c) + [queued[n]]
  }

  /** What is still to be run when the queues before `stage` have been worked off. */
  ghost function Left(queued: seq<Entry>, c: nat, stage: nat): seq<Id>
  {
    (if stage <= 0 then Ids(queued, SendQ(c)) else [])
    + (if stage <= 1 then Ids(queued, RecvQ(c)) else [])
    + (if stage <= 2 then Ids(queued, CtxQ) else [])
  }

  lemma {:induction false} IdsConcat(a: seq<Entry>, b: seq<Entry>, q: QName)
    ensures Ids(a + b, q) == Ids(a, q) + Ids(b, q)
  {
    if b == [] {
      assert a + b == a;
    } else {
      var n := |b| - 1;
      assert (a + b)[..|a + b| - 1] == a + b[..n];
      IdsConcat(a, b[..n], q);
    }
  }

  lemma {:induction false} RestConcat(a: seq<Entry>, b: seq<Entry>, c: nat)
    ensures Rest(a + b, c) == Rest(a, c) + Rest(b, c)
  {
    if b == [] {
      assert a + b == a;
    } else {
      var n := |b| - 1;
      assert (a + b)[..|a + b| - 1] == a + b[..n];
      RestConcat(a, b[..n], c);
    }
  }

  lemma {:induction false} IdsEmpty(queued: seq<Entry>, q: QName)
    requires IsEmpty(queued, q)
    ensures Ids(queued, q) == []
  {
    if queued != [] { IdsEmpty(queued[..|queued| - 1], q); }
  }

  lemma {:induction false} RestAll(queued: seq<Entry>, c: nat)
    requires IsEmpty(queued, SendQ(c)) && IsEmpty(queued, RecvQ(c)) && IsEmpty(queued, CtxQ)
    ensures Rest(queued, c) == queued
  {
    if queued != [] {
      RestAll(queued[..|queued| - 1], c);
      assert queued == queued[..|queued| - 1] + [queued[|queued| - 1]];
    }
  }

  lemma OneEntry(e: Entry, q: QName, c: nat)
    ensures Ids([e], q) == (if e.q == q then [e.id] else []) && Rest([e], c) == if Cleared(e.q, c) then [] else [e]
  {
    assert [e][..0] == [];
  }

  /** Popping the head of a queue takes its first operation and leaves the other queues alone. */
  lemma PopIds(queued: seq<Entry>, i: nat, q: QName, other: QName)
    requires IsHead(queued, i, q)
    ensures Ids(queued, q) == [queued[i].id] + Ids(Taken(queued, Some(i)), q)
    ensures other != q ==> Ids(queued, other) == Ids(Taken(queued, Some(i)), other)
  {
    var pre, post := queued[..i], queued[i + 1..];
    assert queued == (pre + [queued[i]]) + post;
    SplitIds(pre, queued[i], post, q);
    SplitIds(pre, queued[i], post, other);
    IdsEmpty(pre, q);
  }

  lemma SplitIds(pre: seq<Entry>, e: Entry, post: seq<Entry>, q: QName)
    ensures Ids((pre + [e]) + post, q) == Ids(pre, q) + (if e.q == q then [e.id] else []) + Ids(post, q)
    ensures Ids(pre + post, q) == Ids(pre, q) + Ids(post, q)
  {
    IdsConcat(pre + [e], post, q);
    IdsConcat(pre, [e], q);
    IdsConcat(pre, post, q);
    OneEntry(e, q, 0);
  }

  lemma PopRest(queued: seq<Entry>, i: nat, c: nat)
    requires i < |queued| && Cleared(queued[i].q, c)
    ensures Rest(Taken(queued, Some(i)), c) == Rest(queued, c)
  {
    var pre, post := queued[..i], queued[i + 1..];
    assert queued == (pre + [queued[i]]) + post;
    RestConcat(pre + [queued[i]], post, c);
    RestConcat(pre, [queued[i]], c);
    RestConcat(pre, post, c);
    OneEntry(queued[i], queued[i].q, c);
  }

  lemma PopLeft(queued: seq<Entry>, i: nat, c: nat, stage: nat)
    requires stage < 3 && IsHead(queued, i, ClearQueue(c, stage))
    ensures Left(queued, c, stage) == [queued[i].id] + Left(Taken(queued, Some(i)), c, stage)
  {
    var q, rest := ClearQueue(c, stage), Taken(queued, Some(i));
    PopIds(queued, i, q, SendQ(c));
    PopIds(queued, i, q, RecvQ(c));
    PopIds(queued, i, q, CtxQ);
  }

  // ---------- the run ----------

  /** A step of the clearing thread: the next of `clear_callback_queues`, or the return of a callback. */
  ghost predicate ClearStep(s: State, s': State, t: nat)
  {
    && t < |s.stacks|
    && (|| (exists a :: ClearEnabled(s, s.stacks[t], a) && s' == Apply(s, t, ClearMove(s, s.stacks[t], a)))
        || (ReturnEnabled(s.stacks[t], EndCallback) && s' == Apply(s, t, ReturnMove(s.stacks[t], EndCallback))))
  }

  /** A whole call of `clear_callback_queues` on communicator `c`, whose callbacks return at once. */
  ghost predicate ClearCall(tr: seq<State>, t: nat, c: nat)
  {
    && |tr| > 1 && t < |tr[0].stacks| && tr[0].stacks[t] != [] && Top(tr[0].stacks[t]) == Clear(c, 0)
    && (forall i :: 0 <= i < |tr| - 1 ==> ClearStep(tr[i], tr[i + 1], t))
    && (forall i :: 0 <= i < |tr| - 1 ==> t < |tr[i].stacks| && |tr[i].stacks[t]| >= |tr[0].stacks[t]|)
    && t < |tr[|tr| - 1].stacks| && |tr[|tr| - 1].stacks[t]| < |tr[0].stacks[t]|
  }

  /** What the call changes at all. */
  ghost predicate SameButQueues(s0: State, s: State, t: nat)
  {
    && t < |s0.stacks| == |s.stacks|
    && s == State(s0.ops, s0.fabric, s0.asked, s.queued, s0.depth, s0.stacks[t := s.stacks[t]], s.ran, s.done,
                  s0.cancelled)
  }

  /** The operations run so far, and what is left of the queues, make up what there was; `running` is on the stack. */
  ghost predicate Progressed(s0: State, s: State, c: nat, stage: nat, running: seq<Id>)
  {
    && s0.ran <= s.ran && s.ran + Left(s.queued, c, stage) == s0.ran + Left(s0.queued, c, 0)
    && s.done + running == s0.done + s.ran[|s0.ran|..]
    && Rest(s.queued, c) == Rest(s0.queued, c)
    && (stage > 0 ==> IsEmpty(s.queued, SendQ(c))) && (stage > 1 ==> IsEmpty(s.queued, RecvQ(c)))
    && (stage > 2 ==> IsEmpty(s.queued, CtxQ))
  }

  ghost predicate Clearing(s0: State, s: State, t: nat, c: nat)
  {
    && SameButQueues(s0, s, t) && s0.stacks[t] != []
    && var base := Below(s0.stacks[t]);
       || (exists stage: nat :: stage <= 3 && s.stacks[t] == base + [Clear(c, stage)]
             && Progressed(s0, s, c, stage, []))
       || (exists stage: nat, id: Id :: stage < 3 && s.stacks[t] == base + [Clear(c, stage), Callback(id, FromQueue)]
             && Progressed(s0, s, c, stage, [id]))
       || (s.stacks[t] == base && Progressed(s0, s, c, 3, []))
  }

  lemma ProgressedPop(s0: State, s: State, s': State, c: nat, stage: nat, i: nat)
    requires stage < 3 && Progressed(s0, s, c, stage, []) && IsHead(s.queued, i, ClearQueue(c, stage))
    requires s'.queued == Taken(s.queued, Some(i)) && s'.ran == s.ran + [s.queued[i].id] && s'.done == s.done
    ensures Progressed(s0, s', c, stage, [s.queued[i].id])
  {
    var id := s.queued[i].id;
    PopLeft(s.queued, i, c, stage);
    PopRest(s.queued, i, c);
    TakenEmpty(s.queued, i);
    Moved(s.ran, id, Left(s'.queued, c, stage));
    assert s'.ran[|s0.ran|..] == s.ran[|s0.ran|..] + [id];
    assert s.done + [] == s.done;
  }

  lemma Moved(ran: seq<Id>, id: Id, left: seq<Id>)
    ensures (ran + [id]) + left == ran + ([id] + left)
  {
  }

  lemma PopOne(s0: State, s: State, s': State, t: nat, c: nat, stage: nat, i: nat)
    requires SameButQueues(s0, s, t) && s0.stacks[t] != [] && stage < 3
    requires s.stacks[t] == Below(s0.stacks[t]) + [Clear(c, stage)] && Progressed(s0, s, c, stage, [])
    requires ClearEnabled(s, s.stacks[t], ClearOne(i)) && s' == Apply(s, t, ClearMove(s, s.stacks[t], ClearOne(i)))
    ensures Clearing(s0, s', t, c)
  {
    var id := s.queued[i].id;
    PoppedState(s, s', t, i);
    ProgressedPop(s0, s, s', c, stage, i);
    assert s'.stacks[t] == Below(s0.stacks[t]) + [Clear(c, stage), Callback(id, FromQueue)];
  }

  lemma PoppedState(s: State, s': State, t: nat, i: nat)
    requires t < |s.stacks| && ClearEnabled(s, s.stacks[t], ClearOne(i))
    requires s' == Apply(s, t, ClearMove(s, s.stacks[t], ClearOne(i)))
    ensures s' == State(s.ops, s.fabric, s.asked, Taken(s.queued, Some(i)), s.depth,
                        s.stacks[t := s.stacks[t] + [Callback(s.queued[i].id, FromQueue)]], s.ran + [s.queued[i].id],
                        s.done, s.cancelled)
  {
  }

  lemma TakenEmpty(queued: seq<Entry>, i: nat)
    requires i < |queued|
    ensures forall q :: IsEmpty(queued, q) ==> IsEmpty(Taken(queued, Some(i)), q)
  {
  }

  lemma NextQueue(s0: State, s: State, s': State, t: nat, c: nat, stage: nat)
    requires SameButQueues(s0, s, t) && s0.stacks[t] != [] && stage < 3
    requires s.stacks[t] == Below(s0.stacks[t]) + [Clear(c, stage)] && Progressed(s0, s, c, stage, [])
    requires ClearEnabled(s, s.stacks[t], ClearNext) && s' == Apply(s, t, ClearMove(s, s.stacks[t], ClearNext))
    ensures Clearing(s0, s', t, c)
  {
    IdsEmpty(s.queued, ClearQueue(c, stage));
    assert s'.queued == s.queued && s'.ran == s.ran && s'.done == s.done;
    assert Left(s.queued, c, stage + 1) == Left(s.queued, c, stage);
    assert Below(s.stacks[t]) == Below(s0.stacks[t]);
    assert s'.stacks[t] == Below(s0.stacks[t]) + [Clear(c, stage + 1)];
    assert Progressed(s0, s', c, stage + 1, []);
  }

  lemma LastQueue(s0: State, s: State, s': State, t: nat, c: nat, stage: nat)
    requires SameButQueues(s0, s, t) && s0.stacks[t] != [] && stage == 3
    requires s.stacks[t] == Below(s0.stacks[t]) + [Clear(c, stage)] && Progressed(s0, s, c, stage, [])
    requires ClearEnabled(s, s.stacks[t], EndClear) && s' == Apply(s, t, ClearMove(s, s.stacks[t], EndClear))
    ensures Clearing(s0, s', t, c)
  {
    assert s'.queued == s.queued && s'.ran == s.ran && s'.done == s.done;
    assert s'.stacks[t] == Below(s.stacks[t]) == Below(s0.stacks[t]);
    assert Progressed(s0, s', c, 3, []);
  }

  lemma CallbackReturns(s0: State, s: State, s': State, t: nat, c: nat, stage: nat, id: Id)
    requires SameButQueues(s0, s, t) && s0.stacks[t] != [] && stage < 3
    requires s.stacks[t] == Below(s0.stacks[t]) + [Clear(c, stage), Callback(id, FromQueue)]
    requires Progressed(s0, s, c, stage, [id])
    requires s' == Apply(s, t, ReturnMove(s.stacks[t], EndCallback))
    ensures Clearing(s0, s', t, c)
  {
    assert s'.queued == s.queued && s'.ran == s.ran && s'.done == s.done + [id];
    assert s'.done + [] == s'.done;
    assert s'.stacks[t] == Below(s.stacks[t]) == Below(s0.stacks[t]) + [Clear(c, stage)];
    assert Progressed(s0, s', c, stage, []);
  }

  lemma AtClear(s0: State, s: State, s': State, t: nat, c: nat, stage: nat)
    requires SameButQueues(s0, s, t) && s0.stacks[t] != [] && stage <= 3 && ClearStep(s, s', t)
    requires s.stacks[t] == Below(s0.stacks[t]) + [Clear(c, stage)] && Progressed(s0, s, c, stage, [])
    ensures Clearing(s0, s', t, c)
  {
    var a :| ClearEnabled(s, s.stacks[t], a) && s' == Apply(s, t, ClearMove(s, s.stacks[t], a));
    match a
    case ClearOne(i) => PopOne(s0, s, s', t, c, stage, i);
    case ClearNext => NextQueue(s0, s, s', t, c, stage);
    case EndClear => LastQueue(s0, s, s', t, c, stage);
  }

  lemma ClearingStep(s0: State, s: State, s': State, t: nat, c: nat)
    requires Clearing(s0, s, t, c) && ClearStep(s, s', t) && |s.stacks[t]| >= |s0.stacks[t]|
    ensures Clearing(s0, s', t, c)
  {
    var base := Below(s0.stacks[t]);
    if stage: nat :| stage <= 3 && s.stacks[t] == base + [Clear(c, stage)] && Progressed(s0, s, c, stage, []) {
      AtClear(s0, s, s', t, c, stage);
    } else {
      var stage: nat, id: Id :| stage < 3 && s.stacks[t] == base + [Clear(c, stage), Callback(id, FromQueue)]
                                && Progressed(s0, s, c, stage, [id]);
      CallbackReturns(s0, s, s', t, c, stage, id);
    }
  }

  lemma {:induction false} ClearingRun(tr: seq<State>, t: nat, c: nat, j: nat)
    requires ClearCall(tr, t, c) && j < |tr|
    ensures Clearing(tr[0], tr[j], t, c)
    decreases j
  {
    if j == 0 {
      ClearingStarts(tr[0], t, c);
    } else {
      ClearingRun(tr, t, c, j - 1);
      assert ClearStep(tr[j - 1], tr[j - 1 + 1], t);
      ClearingStep(tr[0], tr[j - 1], tr[j], t, c);
    }
  }

  lemma ClearingStarts(s: State, t: nat, c: nat)
    requires t < |s.stacks| && s.stacks[t] != [] && Top(s.stacks[t]) == Clear(c, 0)
    ensures Clearing(s, s, t, c)
  {
    assert s.stacks[t] == Below(s.stacks[t]) + [Clear(c, 0)];
    assert s.stacks[t := s.stacks[t]] == s.stacks;
    assert s.ran[|s.ran|..] == [] && s.done + [] == s.done;
    assert Progressed(s, s, c, 0, []);
  }

  /** A call of `clear_callback_queues` that nobody interferes with runs every callback that was queued for the
      communicator, sends before receives, and then those of the context, each once and in queue order; these queues are
      empty afterwards and nothing else has changed. */
  lemma ClearAlone(tr: seq<State>, t: nat, c: nat)
    requires ClearCall(tr, t, c)
    ensures var s := tr[0];
            var run := Ids(s.queued, SendQ(c)) + Ids(s.queued, RecvQ(c)) + Ids(s.queued, CtxQ);
            tr[|tr| - 1] == s.(queued := Rest(s.queued, c), ran := s.ran + run, done := s.done + run,
                               stacks := s.stacks[t := Below(s.stacks[t])])
  {
    var s, s' := tr[0], tr[|tr| - 1];
    ClearingRun(tr, t, c, |tr| - 1);
    assert s'.stacks[t] == Below(s.stacks[t]) && Progressed(s, s', c, 3, []);
    RestAll(s'.queued, c);
    assert Left(s'.queued, c, 3) == [] && s'.ran + [] == s'.ran && s'.done + [] == s'.done;
  }
}
