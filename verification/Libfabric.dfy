/** Completion dispatch and cancellation in the libfabric backend, for any number of threads and
    communicators over one context.

    Every thread has its own call stack.  User code runs at the bottom and inside callbacks.  The
    fabric is an oracle that reports each posted operation once, as complete or, if somebody asked for
    it, as cancelled.  Each callback queue is the subsequence of `queued` that carries its name; pushes
    go to the end and pops take the first entry. */
module Libfabric {

  type Id = nat

  datatype QName = SendQ(c: nat) | RecvQ(c: nat) | CancelQ(c: nat) | CtxQ | CtxCancelQ
  datatype Entry = Entry(q: QName, id: Id)

  /** `comm`: the communicator the operation was issued on. */
  datatype Op = Op(comm: nat, shared: bool, send: bool)

  /** On whose behalf the fabric is polled: the `user_data` pointer. */
  datatype Site = On(c: nat) | OnContext

  datatype How = InlineOn(c: nat) | InlineShared | FromQueue
  datatype Phase = Polling | Popping | Restoring(found: bool)

  /** `Posting`: the retry loop around fi_tsend, fi_trecv or fi_tinject.  `Sending`: a `send` whose callback
      runs inside it.  `Poll`: completions read and not yet handled.  `Cancelling`: the loop of `cancel_recv`. */
  datatype Frame =
    | Posting(id: Id, c: nat, inject: bool)
    | Sending(c: nat)
    | Poll(site: Site, entries: seq<Id>)
    | Clear(c: nat, stage: nat)
    | Cancelling(site: Site, target: Id, temp: seq<Id>, phase: Phase)
    | Callback(id: Id, how: How)

  datatype State = State(
    ops: seq<Op>, fabric: seq<Id>, asked: set<Id>, queued: seq<Entry>, depth: seq<int>,
    stacks: seq<seq<Frame>>, ran: seq<Id>, done: seq<Id>, cancelled: seq<Id>)

  // ---------- stacks and queues ----------

  ghost function Top(st: seq<Frame>): Frame
    requires st != []
  {
    st[|st| - 1]
  }

  ghost function Below(st: seq<Frame>): seq<Frame>
    requires st != []
  {
    st[..|st| - 1]
  }

  ghost predicate UserTurn(st: seq<Frame>) { st == [] || Top(st).Callback? }

  /** Entry `i` is the head of queue `q`. */
  ghost predicate IsHead(queued: seq<Entry>, i: nat, q: QName)
  {
    i < |queued| && queued[i].q == q && forall j :: 0 <= j < i ==> queued[j].q != q
  }

  ghost predicate IsEmpty(queued: seq<Entry>, q: QName)
  {
    forall j :: 0 <= j < |queued| ==> queued[j].q != q
  }

  ghost function CancelQueue(site: Site): QName { if site.On? then CancelQ(site.c) else CtxCancelQ }

  ghost function ClearQueue(c: nat, stage: nat): QName
  {
    if stage == 0 then SendQ(c) else if stage == 1 then RecvQ(c) else CtxQ
  }

  // ---------- what a step changes ----------

  datatype Opt = None | Some(i: nat)

  /** The effect of a step on the stepping thread's stack and on the shared state: `drop` removes the top
      frame before `push` is added; `takeFabric` and `takeQueued` are positions removed; `enter` and `leave`
      name the communicator whose recursion depth goes up or down. */
  datatype Move = Move(
    drop: bool, push: seq<Frame>, newOp: seq<Op>, ask: set<Id>,
    takeFabric: Opt, addFabric: seq<Id>, takeQueued: Opt, addQueued: seq<Entry>,
    ran: seq<Id>, done: seq<Id>, cancelled: seq<Id>, enter: Opt, leave: Opt)

  ghost const Nothing: Move := Move(false, [], [], {}, None, [], None, [], [], [], [], None, None)

  ghost function Taken<T>(q: seq<T>, o: Opt): seq<T>
  {
    if o.Some? && o.i < |q| then q[..o.i] + q[o.i + 1..] else q
  }

  ghost function Bump(depth: seq<int>, o: Opt, delta: int): seq<int>
  {
    if o.Some? && o.i < |depth| then depth[o.i := depth[o.i] + delta] else depth
  }

  ghost function NewStack(st: seq<Frame>, m: Move): seq<Frame>
  {
    (if m.drop && st != [] then Below(st) else st) + m.push
  }

  ghost function Apply(s: State, t: nat, m: Move): State
    requires t < |s.stacks|
  {
    State(s.ops + m.newOp,
          Taken(s.fabric, m.takeFabric) + m.addFabric,
          s.asked + m.ask,
          Taken(s.queued, m.takeQueued) + m.addQueued,
          Bump(Bump(s.depth, m.enter, 1), m.leave, -1),
          s.stacks[t := NewStack(s.stacks[t], m)],
          s.ran + m.ran, s.done + m.done, s.cancelled + m.cancelled)
  }

  // ---------- steps ----------

  datatype Action =
    // user calls
    | CallPost(op: Op, inject: bool) | CallProgress(c: nat) | CallContextProgress | CallCancel(target: Id)
    // the posting loop
    | Retry | Accept | InjectInline | InjectQueue
    // reading the fabric
    | ReadDone(i: nat) | ReadCancelled(i: nat)
    // handling what was read
    | HandleHere | HandleLater | EndPoll
    // clear_callback_queues
    | ClearOne(i: nat) | ClearNext | EndClear
    // the loop of cancel_recv
    | CancelPoll | CancelTake(i: nat) | CancelEmpty | CancelRestore | CancelAgain | EndCancel
    // returns
    | EndCallback | EndSend

  /** A user calls `send`, `recv`, `shared_recv`, `progress` or `cancel`.  `cancel_recv` goes to the queue
      of the request's own communicator, or of the context for a shared one. */
  ghost predicate CallEnabled(s: State, st: seq<Frame>, a: Action)
  {
    && UserTurn(st)
    && match a
       case CallPost(op, inject) => op.comm < |s.depth| && (inject ==> op.send) && (op.send ==> !op.shared)
       case CallProgress(c) => c < |s.depth|
       case CallContextProgress => true
       case CallCancel(target) => target < |s.ops| && !s.ops[target].send
       case _ => false
  }

  ghost function SiteFor(op: Op): Site { if op.shared then OnContext else On(op.comm) }

  ghost function CallMove(s: State, a: Action): Move
  {
    match a
    case CallPost(op, inject) => Nothing.(newOp := [op], push := [Posting(|s.ops|, op.comm, inject)])
    case CallProgress(c) => Nothing.(push := [Clear(c, 0), Poll(On(c), [])])
    case CallContextProgress => Nothing.(push := [Poll(OnContext, [])])
    case CallCancel(target) =>
      if target < |s.ops| then
        Nothing.(push := [Cancelling(SiteFor(s.ops[target]), target, [], Polling)], ask := {target})
      else Nothing
    case _ => Nothing
  }

  /** The fabric takes the operation, or says try again and the completions are polled first.  A small send
      is injected: it is complete at once and its callback runs here or is queued. */
  ghost predicate PostEnabled(limit: nat, s: State, st: seq<Frame>, a: Action)
  {
    && st != [] && Top(st).Posting? && Top(st).id < |s.ops| && Top(st).c < |s.depth|
    && match a
       case Retry => true
       case Accept => !Top(st).inject
       case InjectInline => Top(st).inject && s.depth[Top(st).c] <= limit
       case InjectQueue => Top(st).inject && s.depth[Top(st).c] > limit
       case _ => false
  }

  ghost function PostMove(s: State, st: seq<Frame>, a: Action): Move
    requires st != [] && Top(st).Posting? && Top(st).id < |s.ops|
  {
    var id, c := Top(st).id, Top(st).c;
    match a
    case Retry => Nothing.(push := [Poll(On(c), [])])
    case Accept => Nothing.(drop := true, addFabric := [id], push := if s.ops[id].shared then [Poll(On(c), [])] else [])
    case InjectInline =>
      Nothing.(drop := true, push := [Sending(c), Callback(id, InlineOn(c))], ran := [id], enter := Some(c))
    case InjectQueue => Nothing.(drop := true, addQueued := [Entry(SendQ(c), id)])
    case _ => Nothing
  }

  /** The poll is made by `cancel_recv`, which looks at receives only. */
  ghost predicate InCancel(st: seq<Frame>) { |st| > 1 && Top(Below(st)).Cancelling? }

  /** Read one completion, or one cancellation somebody asked for, from the fabric. */
  ghost predicate ReadEnabled(s: State, st: seq<Frame>, a: Action)
  {
    && st != [] && Top(st).Poll?
    && match a
       case ReadDone(i) =>
         i < |s.fabric| && (InCancel(st) ==> s.fabric[i] < |s.ops| && !s.ops[s.fabric[i]].send)
       case ReadCancelled(i) =>
         i < |s.fabric| && s.fabric[i] < |s.ops| && s.fabric[i] in s.asked && !s.ops[s.fabric[i]].send
       case _ => false
  }

  ghost function ReadMove(s: State, st: seq<Frame>, a: Action): Move
    requires ReadEnabled(s, st, a)
  {
    match a
    case ReadDone(i) =>
      Nothing.(drop := true, push := [Poll(Top(st).site, Top(st).entries + [s.fabric[i]])], takeFabric := Some(i))
    case ReadCancelled(i) =>
      var id := s.fabric[i];
      Nothing.(takeFabric := Some(i), addQueued := [Entry(CancelQueue(SiteFor(s.ops[id])), id)])
    case _ => Nothing
  }

  /** Handle the next completion that was read: run the callback here, or queue it for its owner.
      For a shared operation the choice hangs on a counter other threads change, and is free here. */
  ghost predicate HandleEnabled(limit: nat, s: State, st: seq<Frame>, a: Action)
  {
    && st != [] && Top(st).Poll?
    && if a.EndPoll? then Top(st).entries == []
       else
         && (a.HandleHere? || a.HandleLater?) && Top(st).entries != [] && Top(st).entries[0] < |s.ops|
         && var op := s.ops[Top(st).entries[0]];
            && op.comm < |s.depth|
            && (!op.shared ==> (a.HandleHere? <==> Top(st).site == On(op.comm) && s.depth[op.comm] <= limit))
  }

  ghost function HandleMove(limit: nat, s: State, st: seq<Frame>, a: Action): Move
    requires HandleEnabled(limit, s, st, a)
  {
    if a.EndPoll? then Nothing.(drop := true) else
      var id := Top(st).entries[0];
      var op := s.ops[id];
      var rest := Poll(Top(st).site, Top(st).entries[1..]);
      if a.HandleHere? then
        Nothing.(drop := true,
                 push := [rest, Callback(id, if op.shared then InlineShared else InlineOn(op.comm))], ran := [id],
                 enter := if op.shared then None else Some(op.comm))
      else
        Nothing.(drop := true, push := [rest],
                 addQueued := [Entry(if op.shared then CtxQ
                                     else if op.send then SendQ(op.comm) else RecvQ(op.comm), id)])
  }

  /** `clear_callback_queues`: run what was queued, queue after queue. */
  ghost predicate ClearEnabled(s: State, st: seq<Frame>, a: Action)
  {
    && st != [] && Top(st).Clear?
    && match a
       case ClearOne(i) => Top(st).stage < 3 && IsHead(s.queued, i, ClearQueue(Top(st).c, Top(st).stage))
       case ClearNext => Top(st).stage < 3 && IsEmpty(s.queued, ClearQueue(Top(st).c, Top(st).stage))
       case EndClear => Top(st).stage >= 3
       case _ => false
  }

  ghost function ClearMove(s: State, st: seq<Frame>, a: Action): Move
    requires ClearEnabled(s, st, a)
  {
    match a
    case ClearOne(i) =>
      var id := s.queued[i].id;
      Nothing.(push := [Callback(id, FromQueue)], takeQueued := Some(i), ran := [id])
    case ClearNext => Nothing.(drop := true, push := [Clear(Top(st).c, Top(st).stage + 1)])
    case _ => Nothing.(drop := true)
  }

  /** The loop of `cancel_recv`: poll, pop the cancel queue until the target turns up, put the others back. */
  ghost predicate CancelEnabled(s: State, st: seq<Frame>, a: Action)
  {
    && st != [] && Top(st).Cancelling?
    && var f := Top(st);
       match a
       case CancelPoll => f.phase.Polling?
       case CancelTake(i) => f.phase.Popping? && IsHead(s.queued, i, CancelQueue(f.site))
       case CancelEmpty => f.phase.Popping? && IsEmpty(s.queued, CancelQueue(f.site))
       case CancelRestore => f.phase.Restoring? && f.temp != []
       case CancelAgain => f.phase == Restoring(false) && f.temp == []
       case EndCancel => f.phase == Restoring(true) && f.temp == []
       case _ => false
  }

  ghost function CancelMove(s: State, st: seq<Frame>, a: Action): Move
    requires CancelEnabled(s, st, a)
  {
    var f := Top(st);
    match a
    case CancelPoll => Nothing.(drop := true, push := [f.(phase := Popping), Poll(f.site, [])])
    case CancelTake(i) =>
      var id := s.queued[i].id;
      if id == f.target then
        Nothing.(drop := true, push := [f.(phase := Restoring(true))], takeQueued := Some(i), cancelled := [id])
      else
        Nothing.(drop := true, push := [f.(temp := f.temp + [id])], takeQueued := Some(i))
    case CancelEmpty => Nothing.(drop := true, push := [f.(phase := Restoring(false))])
    case CancelRestore =>
      var n := |f.temp| - 1;
      Nothing.(drop := true, push := [f.(temp := f.temp[..n])], addQueued := [Entry(CancelQueue(f.site), f.temp[n])])
    case CancelAgain => Nothing.(drop := true, push := [f.(phase := Polling)])
    case _ => Nothing.(drop := true)
  }

  /** A callback returns, or a `send` whose callback has returned. */
  ghost predicate ReturnEnabled(st: seq<Frame>, a: Action)
  {
    st != [] && ((a.EndCallback? && Top(st).Callback?) || (a.EndSend? && Top(st).Sending?))
  }

  ghost function ReturnMove(st: seq<Frame>, a: Action): Move
    requires ReturnEnabled(st, a)
  {
    if a.EndSend? then Nothing.(drop := true)
    else Nothing.(drop := true, done := [Top(st).id],
                  leave := if Top(st).how.InlineOn? then Some(Top(st).how.c) else None)
  }

  datatype Part = Calls | Posts | Reads | Handles | Clears | Cancels | Returns

  /** Thread `t` takes a step whose effect is `m`. */
  ghost predicate Takes(limit: nat, part: Part, s: State, t: nat, a: Action, m: Move)
  {
    && t < |s.stacks|
    && var st := s.stacks[t];
       match part
       case Calls => CallEnabled(s, st, a) && m == CallMove(s, a)
       case Posts => PostEnabled(limit, s, st, a) && m == PostMove(s, st, a)
       case Reads => ReadEnabled(s, st, a) && m == ReadMove(s, st, a)
       case Handles => HandleEnabled(limit, s, st, a) && m == HandleMove(limit, s, st, a)
       case Clears => ClearEnabled(s, st, a) && m == ClearMove(s, st, a)
       case Cancels => CancelEnabled(s, st, a) && m == CancelMove(s, st, a)
       case Returns => ReturnEnabled(st, a) && m == ReturnMove(st, a)
  }

  ghost predicate Next(limit: nat, s: State, s': State)
  {
    exists part, t: nat, a, m :: Takes(limit, part, s, t, a, m) && s' == Apply(s, t, m)
  }

  ghost predicate Init(s: State)
  {
    && s == State([], [], {}, [], s.depth, s.stacks, [], [], [])
    && (forall c :: 0 <= c < |s.depth| ==> s.depth[c] == 0)
    && (forall t :: 0 <= t < |s.stacks| ==> s.stacks[t] == [])
  }

  ghost predicate IsRun(limit: nat, tr: seq<State>)
  {
    |tr| > 0 && forall i :: 0 <= i < |tr| - 1 ==> Next(limit, tr[i], tr[i + 1])
  }

  ghost predicate Reachable(limit: nat, s: State)
  {
    exists tr :: IsRun(limit, tr) && Init(tr[0]) && tr[|tr| - 1] == s
  }

  lemma RunInit(limit: nat, tr: seq<State>)
    requires IsRun(limit, tr) && |tr| > 1
    ensures IsRun(limit, tr[..|tr| - 1]) && Next(limit, tr[|tr| - 2], tr[|tr| - 1])
  {
    var n := |tr| - 2;
    assert Next(limit, tr[n], tr[n + 1]);
  }
}
