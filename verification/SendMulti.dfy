/** `send_multi`: one message to several destinations, one user callback when the last send completes. */
module SendMulti {
  import opened Counting

  predicate Holds(b: bool) { b }

  /** What happens next to a `send_multi`: its loop posts another send, which may complete inside the call,
      or an earlier send completes. */
  datatype Event = Post(inline_: bool) | Finish(i: nat)

  /** The shared state of one `send_multi` call (`multi_request_state`) together with what it has done so
      far; `done[i]` says whether posted send `i` has completed. */
  class MultiRequest {
    const n: nat
    var counter: int
    var done: seq<bool>
    var callbacks: nat
    var messagesHanded: nat
    var neighsMoved: bool

    ghost function Completions(): nat
      reads this
    {
      Count(done, Holds)
    }

    /** The counter is `n` minus the completions; the user callback has run, and taken message and
        destination list, exactly when all `n` sends are complete. */
    ghost predicate Valid()
      reads this
    {
      && |done| <= n
      && counter == n - Completions()
      && callbacks == messagesHanded == (if n > 0 && Completions() == n then 1 else 0)
      && (neighsMoved <==> n > 0 && Completions() == n)
    }

    constructor (neighs: nat)
      ensures Valid() && n == neighs && done == []
    {
      n, counter, done := neighs, neighs, [];
      callbacks, messagesHanded, neighsMoved := 0, 0, false;
    }

    /** The callback of send `i`. */
    method Complete(i: nat)
      requires Valid() && i < |done| && !done[i]
      modifies this
      ensures Valid() && done == old(done)[i := true]
      ensures callbacks == old(callbacks) + (if Completions() == n then 1 else 0)
      ensures messagesHanded == old(messagesHanded) + (if Completions() == n then 1 else 0)
    {
      CountUpdate(done, i, true, Holds);
      done := done[i := true];
      counter := counter - 1;
      if counter == 0 {
        callbacks := callbacks + 1;
        messagesHanded := messagesHanded + 1;
        neighsMoved := true;
      }
    }

    /** One iteration of the posting loop.  It reads the next destination, so the list must still be there. */
    method PostNext(inline_: bool)
      requires Valid() && |done| < n
      modifies this
      ensures Valid() && done == old(done) + [inline_]
      ensures !old(neighsMoved)
    {
      CountPush(done, false, Holds);
      var i := |done|;
      done := done + [false];
      if inline_ { Complete(i); }
    }

    /** One event, unless it is not possible. */
    method Do(event: Event)
      requires Valid()
      modifies this
      ensures Valid() && done == AfterEvent(n, old(done), event)
    {
      match event
      case Post(inline_) => if |done| < n { PostNext(inline_); }
      case Finish(i) =>
        if i < |done| {
          if done[i] { assert done[i := true] == done; } else { Complete(i); }
        }
    }

    /** Any schedule of posts and completions; events that are not possible are skipped.  As many sends are posted as
        the loop asks for, up to `n`; each is complete exactly when it completed inside its post or later on; and a
        fresh call runs the user callback exactly when the schedule brings all `n` sends to completion. */
    method Drive(events: seq<Event>)
      requires Valid()
      modifies this
      ensures Valid()
      ensures |done| == if |old(done)| + Posts(events) < n then |old(done)| + Posts(events) else n
      ensures forall i | 0 <= i < |done| :: done[i] <==> CompletedBy(old(done), events, i)
      ensures callbacks == messagesHanded <= 1
      ensures callbacks == 1 <==> n > 0 && |done| == n && forall i :: 0 <= i < n ==> done[i]
      ensures counter == 0 <==> |done| == n && forall i :: 0 <= i < n ==> done[i]
      ensures old(done) == [] ==> (callbacks == 1 <==> n > 0 && BringsAll(events, n))
    {
      ghost var d0 := done;
      NothingYet(n, d0, events);
      for k := 0 to |events|
        invariant Valid() && Driven(n, d0, events[..k], done)
      {
        DriveNext(n, d0, events, k, done);
        Do(events[k]);
      }
      assert events[..|events|] == events;
      CountExtremes(done, Holds);
      if d0 == [] { AllBrought(events, n, done); }
    }
  }

  ghost function IsPost(): Event -> bool { (e: Event) => e.Post? }

  ghost function Posts(events: seq<Event>): nat { Count(events, IsPost()) }

  /** Event `p` posts send `i`, when `first` sends were posted before the schedule. */
  ghost predicate PostsAt(events: seq<Event>, first: nat, p: nat, i: nat)
  {
    p < |events| && events[p].Post? && first + Posts(events[..p]) == i
  }

  /** The schedule completes send `i`: inside its post, or by a `Finish` after it. */
  ghost predicate CompletedBy(d0: seq<bool>, events: seq<Event>, i: nat)
  {
    if i < |d0| then d0[i] || Finish(i) in events
    else exists p: nat :: PostsAt(events, |d0|, p, i) && (events[p].inline_ || Finish(i) in events[p + 1..])
  }

  /** The schedule posts `n` sends and finishes each that does not complete inside its post. */
  ghost predicate BringsAll(events: seq<Event>, n: nat)
  {
    && Posts(events) >= n
    && forall p :: 0 <= p < |events| && events[p] == Post(false) && Posts(events[..p]) < n ==>
         Finish(Posts(events[..p])) in events[p + 1..]
  }

  /** Where the schedule leaves the sends. */
  ghost predicate Driven(n: nat, d0: seq<bool>, events: seq<Event>, done: seq<bool>)
  {
    && |done| == (if |d0| + Posts(events) < n then |d0| + Posts(events) else n)
    && forall i :: 0 <= i < |done| ==> (done[i] <==> CompletedBy(d0, events, i))
  }

  ghost function AfterEvent(n: nat, done: seq<bool>, e: Event): seq<bool>
  {
    match e
    case Post(inline_) => if |done| < n then done + [inline_] else done
    case Finish(i) => if i < |done| then done[i := true] else done
  }

  lemma NothingYet(n: nat, d0: seq<bool>, events: seq<Event>)
    requires |d0| <= n
    ensures Driven(n, d0, events[..0], d0)
  {
  }

  /** A post that lies in the schedule so far lies there still. */
  lemma PostsAtPrefix(events: seq<Event>, first: nat, k: nat, p: nat, i: nat)
    requires k < |events|
    ensures p < k ==> (PostsAt(events[..k + 1], first, p, i) <==> PostsAt(events[..k], first, p, i))
    ensures PostsAt(events[..k + 1], first, k, i) <==> events[k].Post? && first + Posts(events[..k]) == i
    ensures p < k ==> events[..k + 1][p + 1..] == events[..k][p + 1..] + [events[k]]
  {
    assert events[..k + 1][..k] == events[..k];
    if p < k { assert events[..k + 1][..p] == events[..p] && events[..k][..p] == events[..p]; }
  }

  lemma {:induction false} PostsGrow(events: seq<Event>, p: nat, q: nat)
    requires p < q <= |events|
    ensures Posts(events[..p]) + (if events[p].Post? then 1 else 0) <= Posts(events[..q])
    decreases q
  {
    assert events[..q][..q - 1] == events[..q - 1];
    if p < q - 1 { PostsGrow(events, p, q - 1); }
  }

  /** A send is posted once. */
  lemma PostOnce(events: seq<Event>, first: nat, p: nat, q: nat, i: nat)
    requires PostsAt(events, first, p, i) && PostsAt(events, first, q, i)
    ensures p == q
  {
    if p < q { PostsGrow(events, p, q); } else if q < p { PostsGrow(events, q, p); }
  }

  lemma {:induction false} FindPost(events: seq<Event>, first: nat, i: nat) returns (p: nat)
    requires first <= i < first + Posts(events)
    ensures PostsAt(events, first, p, i)
  {
    var n := |events| - 1;
    if i < first + Posts(events[..n]) {
      p := FindPost(events[..n], first, i);
      assert events[..n][..p] == events[..p];
    } else {
      p := n;
    }
  }

  /** What one more event adds to the completed sends. */
  lemma CompletedNext(d0: seq<bool>, events: seq<Event>, k: nat, i: nat)
    requires k < |events|
    ensures CompletedBy(d0, events[..k + 1], i) <==>
              || CompletedBy(d0, events[..k], i)
              || (events[k] == Finish(i) && i < |d0| + Posts(events[..k]))
              || (events[k] == Post(true) && |d0| + Posts(events[..k]) == i)
  {
    var now, next := events[..k], events[..k + 1];
    assert next == now + [events[k]];
    if i >= |d0| {
      if CompletedBy(d0, next, i) { CompletedBefore(d0, events, k, i); }
      if CompletedBy(d0, now, i) {
        var p: nat :| PostsAt(now, |d0|, p, i) && (now[p].inline_ || Finish(i) in now[p + 1..]);
        PostsAtPrefix(events, |d0|, k, p, i);
        assert next[p] == now[p];
      } else if events[k] == Finish(i) && i < |d0| + Posts(now) {
        var p := FindPost(now, |d0|, i);
        PostsAtPrefix(events, |d0|, k, p, i);
      } else if events[k] == Post(true) && |d0| + Posts(now) == i {
        PostsAtPrefix(events, |d0|, k, k, i);
      }
    }
  }

  lemma CompletedBefore(d0: seq<bool>, events: seq<Event>, k: nat, i: nat)
    requires k < |events| && i >= |d0| && CompletedBy(d0, events[..k + 1], i)
    ensures || CompletedBy(d0, events[..k], i)
            || (events[k] == Finish(i) && i < |d0| + Posts(events[..k]))
            || (events[k] == Post(true) && |d0| + Posts(events[..k]) == i)
  {
    var now, next := events[..k], events[..k + 1];
    var p: nat :| PostsAt(next, |d0|, p, i) && (next[p].inline_ || Finish(i) in next[p + 1..]);
    PostsAtPrefix(events, |d0|, k, p, i);
    if p < k {
      assert next[p] == now[p] && next[..p] == events[..p];
      assert PostsAt(now, |d0|, p, i);
      PostsGrow(events, p, k);
    } else {
      assert next[p + 1..] == [];
    }
  }

  lemma DriveNext(n: nat, d0: seq<bool>, events: seq<Event>, k: nat, done: seq<bool>)
    requires k < |events| && |d0| <= n && Driven(n, d0, events[..k], done)
    ensures Driven(n, d0, events[..k + 1], AfterEvent(n, done, events[k]))
  {
    assert events[..k + 1][..k] == events[..k];
    var next := AfterEvent(n, done, events[k]);
    forall i | 0 <= i < |next| ensures next[i] <==> CompletedBy(d0, events[..k + 1], i) {
      CompletedNext(d0, events, k, i);
      if i == |done| && CompletedBy(d0, events[..k], i) { NotYetPosted(d0, events[..k], i); }
    }
  }

  lemma NotYetPosted(d0: seq<bool>, events: seq<Event>, i: nat)
    requires i >= |d0| + Posts(events)
    ensures !CompletedBy(d0, events, i)
  {
    assert events[..|events|] == events;
    forall p: nat ensures !PostsAt(events, |d0|, p, i) {
      if p < |events| { PostsGrow(events, p, |events|); }
    }
  }

  lemma AllBrought(events: seq<Event>, n: nat, done: seq<bool>)
    requires Driven(n, [], events, done)
    ensures (|done| == n && forall i :: 0 <= i < n ==> done[i]) <==> BringsAll(events, n)
  {
    if |done| == n && forall i :: 0 <= i < n ==> done[i] {
      forall p | 0 <= p < |events| && events[p] == Post(false) && Posts(events[..p]) < n
        ensures Finish(Posts(events[..p])) in events[p + 1..]
      {
        var i := Posts(events[..p]);
        assert done[i] && PostsAt(events, 0, p, i);
        var q: nat :| PostsAt(events, 0, q, i) && (events[q].inline_ || Finish(i) in events[q + 1..]);
        PostOnce(events, 0, p, q, i);
      }
    }
    if BringsAll(events, n) {
      forall i | 0 <= i < n ensures done[i] {
        var p := FindPost(events, 0, i);
      }
    }
  }
}
