/** One MPI communicator driven by one thread, as a machine with an explicit call stack.

    User code runs at the bottom of the stack and inside every callback, and may call `send`,
    `recv`, `shared_recv`, `progress` and `cancel` or drop request handles at any of these points.
    MPI is an oracle: a posted operation may be complete at once or at any later test. */
module Engine {
  import opened RequestQueue

  const SEND := 0
  const RECV := 1
  const SHARED := 2

  /** One request queue and the counter of its request states.  `batch` is what the loop over
      `m_ready_queue` has still to visit; `busy` is `in_progress`. */
  datatype Chan = Chan(queue: seq<Id>, index: map<Id, nat>, batch: seq<Id>, busy: bool, scheduled: int)

  /** A heap-allocated request state.  `refs` is the reference count in its control block,
      `handles` the live handles of the user, `selfRef` the self-reference, `local` the handle
      that `progress` holds around the callback.  `freed` counts calls of `free`.
      `nulled` says that a failed cancel left a null MPI handle. */
  datatype Req = Req(
    kind: nat, refs: int, handles: nat, selfRef: bool, local: bool, freed: nat, ready: bool, nulled: bool)

  /** Who called a callback: `send`/`recv`, `shared_recv`, or the loop over a ready batch. */
  datatype How = Inline | InlineShared | Batched(k: nat)
  datatype Frame = Progress(stage: nat) | Drain(k: nat) | Callback(id: Id, how: How)

  /** `ran` logs every callback invocation when it starts. */
  datatype State = State(
    chans: seq<Chan>,
    depth: int,
    ctxDepth: int,
    stack: seq<Frame>,
    posted: nat,
    reqs: map<Id, Req>,
    ran: seq<Id>,
    done: seq<Id>,
    cancelled: seq<Id>,
    fault: Fault)

  /** Where the code leaves what its contracts cover.  `AllNull`: MPI_Testsome was given null handles only and
      its count, MPI_UNDEFINED, is used as an index.  `WrongEntry`: `cancel` was called for a receive that is
      no longer queued, and works on the entry at the receive's old position.  A run ends there. */
  datatype Fault = NoFault | AllNull | WrongEntry(id: Id)

  datatype Action =
    | PostInline(k: nat)
    | PostQueued(k: nat)
    | CallProgress(stage: nat)
    | CancelQueued(k: nat, id: Id, mpiCancelled: bool)
    | CopyHandle(id: Id)
    | DropHandle(id: Id)
    | VisitNothing
    | VisitMpi(hit: seq<bool>)
    | VisitShared(pos: nat)
    | EndProgress
    | RunNext
    | EndDrain
    | Return
    | TestNulls
    | CancelCollected(id: Id)

  ghost predicate Init(s: State)
  {
    s == State(seq(3, i => Chan([], map[], [], false, 0)), 0, 0, [], 0, map[], [], [], [], NoFault)
  }

  // ---------- steps ----------

  ghost function Top(s: State): Frame
    requires s.stack != []
  {
    s.stack[|s.stack| - 1]
  }

  ghost function Pop(s: State): State
    requires s.stack != []
  {
    s.(stack := s.stack[..|s.stack| - 1])
  }

  ghost function Push(s: State, f: Frame): State
  {
    s.(stack := s.stack + [f])
  }

  /** User code is running. */
  ghost predicate UserTurn(s: State)
  {
    s.stack == [] || Top(s).Callback?
  }

  ghost predicate AtProgress(s: State, stage: nat)
  {
    s.stack != [] && Top(s) == Progress(stage)
  }

  ghost function SetChan(s: State, k: nat, c: Chan): State
    requires k < |s.chans|
  {
    s.(chans := s.chans[k := c])
  }

  /** `unsafe_shared_ptr::destroy` on one handle. */
  ghost function Unref(q: Req): Req
  {
    q.(refs := q.refs - 1, freed := if q.refs - 1 == 0 then q.freed + 1 else q.freed)
  }

  /** `send`, `recv` or `shared_recv` whose MPI request is ready at once. */
  ghost predicate DoPostInline(limit: nat, s: State, s': State, k: nat)
  {
    var how := if k == SHARED then InlineShared else Inline;
    && UserTurn(s) && k < 3
    && (if k == SHARED then s.ctxDepth else s.depth) <= limit
    && s' == Push(s, Callback(s.posted, how)).(
               posted := s.posted + 1,
               ran := s.ran + [s.posted],
               depth := if k == SHARED then s.depth else s.depth + 1,
               ctxDepth := if k == SHARED then s.ctxDepth + 1 else s.ctxDepth)
  }

  /** The same calls when the request has to wait: a request state is made, it takes a
      self-reference, and the returned handle belongs to the user. */
  ghost predicate DoPostQueued(s: State, s': State, k: nat)
  {
    UserTurn(s) && k < 3 == |s.chans| && s' == AfterPost(s, k)
  }

  ghost function AfterPost(s: State, k: nat): State
    requires k < |s.chans|
  {
    var c := s.chans[k];
    SetChan(s, k, c.(queue := c.queue + [s.posted],
                     index := if k == SHARED then c.index else c.index[s.posted := |c.queue|],
                     scheduled := c.scheduled + 1)).(
      posted := s.posted + 1,
      reqs := s.reqs[s.posted := Req(k, 2, 1, true, false, 0, false, false)])
  }

  ghost function WithoutAt(queue: seq<Id>, i: nat): seq<Id>
    requires i < |queue|
  {
    queue[..i] + queue[i + 1..]
  }

  /** The queue of channel `k` after `id`, at position `i`, has been cancelled. */
  ghost function AfterRemoval(c: Chan, k: nat, i: nat): Chan
    requires i < |c.queue|
  {
    if k == SHARED then c.(queue := WithoutAt(c.queue, i))
    else c.(queue := SwapRemove(c.queue, i),
            index := if i + 1 < |c.queue| then c.index[c.queue[|c.queue| - 1] := i] else c.index)
  }

  /** Cancel of a queued receive through a live handle.  The communicator's queue trusts
      `m_index`, the shared queue searches.  A failed cancel nulls the MPI handle; a later one finds it null and
      fails again. */
  ghost predicate DoCancel(s: State, s': State, k: nat, id: Id, mpiCancelled: bool)
  {
    && UserTurn(s) && (k == RECV || k == SHARED) && |s.chans| == 3
    && id in s.chans[k].queue && id in s.reqs && s.reqs[id].handles > 0 && (mpiCancelled ==> !s.reqs[id].nulled)
    && var c := s.chans[k];
       if mpiCancelled then
         exists i: nat :: i < |c.queue|
           && (if k == RECV then id in c.index && c.index[id] == i else c.queue[i] == id)
           && s' == SetChan(s, k, AfterRemoval(c, k, i).(scheduled := c.scheduled - 1)).(
                      cancelled := s.cancelled + [id],
                      reqs := s.reqs[id := Unref(s.reqs[id].(selfRef := false, ready := true))])
       else
         s' == s.(reqs := s.reqs[id := s.reqs[id].(nulled := true)])
  }

  ghost predicate DoCopyHandle(s: State, s': State, id: Id)
  {
    && UserTurn(s) && id in s.reqs && s.reqs[id].handles > 0 && s.reqs[id].kind == SHARED
    && s' == s.(reqs := s.reqs[id := s.reqs[id].(handles := s.reqs[id].handles + 1, refs := s.reqs[id].refs + 1)])
  }

  ghost predicate DoDropHandle(s: State, s': State, id: Id)
  {
    && UserTurn(s) && id in s.reqs && s.reqs[id].handles > 0
    && s' == s.(reqs := s.reqs[id := Unref(s.reqs[id].(handles := s.reqs[id].handles - 1))])
  }

  /** Cancel of a receive that is not ready and no longer queued: it was collected. */
  ghost predicate DoCancelCollected(s: State, s': State, id: Id)
  {
    && UserTurn(s) && |s.chans| == 3
    && id in s.reqs && s.reqs[id].kind == RECV && s.reqs[id].handles > 0 && !s.reqs[id].ready
    && id !in s.chans[RECV].queue
    && s' == s.(fault := WrongEntry(id))
  }

  /** Some request of queue `k` has a handle that is not null. */
  ghost predicate HasLiveHandle(s: State, k: nat)
  {
    k < |s.chans| && exists id :: id in s.chans[k].queue && id in s.reqs && !s.reqs[id].nulled
  }

  /** `progress` may test queue `k`: it is busy, empty or holds a handle that is not null. */
  ghost predicate Testable(s: State, k: nat)
  {
    k < |s.chans| && (s.chans[k].busy || s.chans[k].queue == [] || HasLiveHandle(s, k))
  }

  /** The queue at `stage` is busy, empty, or no request tested complete. */
  ghost predicate DoVisitNothing(s: State, s': State)
  {
    && s.stack != [] && Top(s).Progress? && Top(s).stage < 3 == |s.chans|
    && var st := Top(s).stage;
       && (st == SHARED && !s.chans[st].busy ==>
             forall id :: id in s.chans[st].queue && id in s.reqs ==> !s.reqs[id].nulled)
       && (st < SHARED ==> Testable(s, st))
       && s' == Push(Pop(s), Progress(st + 1))
  }

  /** MPI_Testsome is given null handles only. */
  ghost predicate DoTestNulls(s: State, s': State)
  {
    && s.stack != [] && Top(s).Progress? && Top(s).stage < SHARED && |s.chans| == 3
    && !Testable(s, Top(s).stage)
    && s' == s.(fault := AllNull)
  }

  /** MPI_Testsome completed the marked requests, all with live handles: the batch starts. */
  ghost predicate DoVisitMpi(s: State, s': State, hit: seq<bool>)
  {
    && s.stack != [] && Top(s).Progress? && Top(s).stage < SHARED && |s.chans| == 3
    && var st := Top(s).stage;
       var c := s.chans[st];
       && !c.busy && |hit| == |c.queue|
       && (exists i :: 0 <= i < |hit| && hit[i])
       && (forall i :: 0 <= i < |hit| && hit[i] && c.queue[i] in s.reqs ==> !s.reqs[c.queue[i]].nulled)
       && s' == Push(Push(Pop(SetChan(s, st, AfterCollect(c, hit))), Progress(st + 1)), Drain(st))
  }

  /** The queue after its marked requests were collected into the batch. */
  ghost function AfterCollect(c: Chan, hit: seq<bool>): Chan
    requires |hit| == |c.queue|
  {
    c.(queue := Rejected(c.queue, hit), index := Positions(c.queue, hit, c.index),
       batch := Selected(c.queue, hit), busy := true)
  }

  /** The shared queue is popped up to the first ready request, at `pos`; the others go back.
      A null handle always tests ready (section 3.7.3 of MPI 3.1). */
  ghost predicate DoVisitShared(s: State, s': State, pos: nat)
  {
    && AtProgress(s, SHARED) && |s.chans| == 3
    && var c := s.chans[SHARED];
       && !c.busy && pos < |c.queue|
       && (forall i :: 0 <= i < pos && c.queue[i] in s.reqs ==> !s.reqs[c.queue[i]].nulled)
       && s' == Push(Push(Pop(SetChan(s, SHARED, c.(queue := c.queue[pos + 1..] + c.queue[..pos],
                                                    batch := [c.queue[pos]], busy := true))),
                          Progress(SHARED + 1)), Drain(SHARED))
  }

  ghost predicate DoEndProgress(s: State, s': State)
  {
    AtProgress(s, 3) && s' == Pop(s)
  }

  /** Next element of the batch: the self-reference moves into a local handle, the callback starts. */
  ghost predicate DoRunNext(s: State, s': State)
  {
    && s.stack != [] && Top(s).Drain? && Top(s).k < 3 == |s.chans|
    && var k := Top(s).k;
       s.chans[k].batch != [] && s.chans[k].batch[0] in s.reqs && s' == AfterRunNext(s, k)
  }

  ghost function AfterRunNext(s: State, k: nat): State
    requires k < |s.chans| && s.chans[k].batch != [] && s.chans[k].batch[0] in s.reqs
  {
    var c := s.chans[k];
    var id := c.batch[0];
    Push(SetChan(s, k, c.(batch := c.batch[1..])), Callback(id, Batched(k))).(
      ran := s.ran + [id],
      reqs := s.reqs[id := s.reqs[id].(selfRef := false, local := true)])
  }

  ghost predicate DoEndDrain(s: State, s': State)
  {
    && s.stack != [] && Top(s).Drain? && Top(s).k < 3 == |s.chans|
    && var k := Top(s).k;
       && s.chans[k].batch == []
       && s' == Pop(SetChan(s, k, s.chans[k].(busy := false)))
  }

  /** A callback returns: the depth guard or the request bookkeeping is undone. */
  ghost predicate DoReturn(s: State, s': State)
  {
    && s.stack != [] && Top(s).Callback? && |s.chans| == 3
    && var id := Top(s).id;
       match Top(s).how
       case Inline => s' == Pop(s).(depth := s.depth - 1, done := s.done + [id])
       case InlineShared => s' == Pop(s).(ctxDepth := s.ctxDepth - 1, done := s.done + [id])
       case Batched(k) =>
         && k < 3 && id in s.reqs
         && s' == Pop(SetChan(s, k, s.chans[k].(scheduled := s.chans[k].scheduled - 1))).(
                    done := s.done + [id],
                    reqs := s.reqs[id := Unref(s.reqs[id].(local := false, ready := true))])
  }

  ghost predicate Step(limit: nat, s: State, a: Action, s': State)
  {
    && s.fault == NoFault
    && match a
       case PostInline(k) => DoPostInline(limit, s, s', k)
       case PostQueued(k) => DoPostQueued(s, s', k)
       case CallProgress(stage) => UserTurn(s) && (stage == 0 || stage == SHARED) && s' == Push(s, Progress(stage))
       case CancelQueued(k, id, ok) => DoCancel(s, s', k, id, ok)
       case CopyHandle(id) => DoCopyHandle(s, s', id)
       case DropHandle(id) => DoDropHandle(s, s', id)
       case VisitNothing => DoVisitNothing(s, s')
       case VisitMpi(hit) => DoVisitMpi(s, s', hit)
       case VisitShared(pos) => DoVisitShared(s, s', pos)
       case EndProgress => DoEndProgress(s, s')
       case RunNext => DoRunNext(s, s')
       case EndDrain => DoEndDrain(s, s')
       case Return => DoReturn(s, s')
       case TestNulls => DoTestNulls(s, s')
       case CancelCollected(id) => DoCancelCollected(s, s', id)
  }

  ghost predicate Next(limit: nat, s: State, s': State)
  {
    exists a :: Step(limit, s, a, s')
  }

  ghost predicate IsRun(limit: nat, tr: seq<State>)
  {
    |tr| > 0 && forall i :: 0 <= i < |tr| - 1 ==> Next(limit, tr[i], tr[i + 1])
  }

  ghost predicate Reachable(limit: nat, s: State)
  {
    exists tr :: IsRun(limit, tr) && Init(tr[0]) && tr[|tr| - 1] == s
  }

  /** Some run leads from `s` to `s'`. */
  ghost predicate Reaches(limit: nat, s: State, s': State)
  {
    exists tr :: IsRun(limit, tr) && tr[0] == s && tr[|tr| - 1] == s'
  }

  lemma Stay(limit: nat, s: State)
    ensures Reaches(limit, s, s)
  {
    assert IsRun(limit, [s]) && [s][0] == s;
  }

  lemma Appended(limit: nat, tr: seq<State>, a: Action, s': State)
    requires IsRun(limit, tr) && Step(limit, tr[|tr| - 1], a, s')
    ensures IsRun(limit, tr + [s'])
  {
    var tr' := tr + [s'];
    forall i | 0 <= i < |tr'| - 1 ensures Next(limit, tr'[i], tr'[i + 1]) {
      if i < |tr| - 1 {
        assert Next(limit, tr[i], tr[i + 1]);
      } else {
        assert Step(limit, tr'[i], a, tr'[i + 1]);
      }
    }
  }

  lemma GoOn(limit: nat, s: State, mid: State, a: Action, s': State)
    requires Reaches(limit, s, mid) && Step(limit, mid, a, s')
    ensures Reaches(limit, s, s')
  {
    var tr :| IsRun(limit, tr) && tr[0] == s && tr[|tr| - 1] == mid;
    Appended(limit, tr, a, s');
    assert (tr + [s'])[0] == s && (tr + [s'])[|tr + [s']| - 1] == s';
  }

  lemma Extend(limit: nat, s: State, a: Action, s': State)
    requires Reachable(limit, s) && Step(limit, s, a, s')
    ensures Reachable(limit, s')
  {
    var tr :| IsRun(limit, tr) && Init(tr[0]) && tr[|tr| - 1] == s;
    Appended(limit, tr, a, s');
    assert Init((tr + [s'])[0]) && (tr + [s'])[|tr + [s']| - 1] == s';
  }

  lemma RunInit(limit: nat, tr: seq<State>)
    requires IsRun(limit, tr) && |tr| > 1
    ensures IsRun(limit, tr[..|tr| - 1]) && Next(limit, tr[|tr| - 2], tr[|tr| - 1])
  {
    var n := |tr| - 2;
    assert Next(limit, tr[n], tr[n + 1]);
  }
}
