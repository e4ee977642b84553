/** Searching a cancel queue for one request and putting everything else back. */
module CancelSearch {

  type Id = nat

  // ---------- libfabric: pop into a temporary stack ----------

  ghost function Reversed<T>(q: seq<T>): seq<T>
  {
    if q == [] then [] else [q[|q| - 1]] + Reversed(q[..|q| - 1])
  }

  lemma {:induction false} ReversedConserves<T>(q: seq<T>)
    ensures multiset(Reversed(q)) == multiset(q)
  {
    if q != [] {
      var n := |q| - 1;
      ReversedConserves(q[..n]);
      assert q == q[..n] + [q[n]];
    }
  }

  /** The queue after one search: everything popped before the target goes to the back, last popped first. */
  ghost function AfterSearch(q: seq<Id>, s: Id): seq<Id>
  {
    if s in q then var i := FirstIndex(q, s); q[i + 1..] + Reversed(q[..i]) else Reversed(q)
  }

  ghost function FirstIndex(q: seq<Id>, s: Id): (i: nat)
    requires s in q
    ensures i < |q| && q[i] == s && s !in q[..i]
  {
    if q[0] == s then 0 else
      var i := FirstIndex(q[1..], s);
      assert q[..i + 1] == [q[0]] + q[1..][..i];
      i + 1
  }

  lemma AfterSearchConserves(q: seq<Id>, s: Id)
    ensures multiset(q) == multiset(AfterSearch(q, s)) + (if s in q then multiset{s} else multiset{})
  {
    if s in q {
      var i := FirstIndex(q, s);
      ReversedConserves(q[..i]);
      assert q == q[..i] + [s] + q[i + 1..];
    } else {
      ReversedConserves(q);
    }
  }

  /** What others push from push `i` up to push `j`, in order. */
  ghost function Between(pushes: seq<seq<Id>>, i: nat, j: nat): seq<Id>
    requires i <= j <= |pushes|
  {
    if i == j then [] else Between(pushes, i, j - 1) + pushes[j - 1]
  }

  /** Everything that others push, in order. */
  ghost function Arrived(pushes: seq<seq<Id>>): seq<Id> { Between(pushes, 0, |pushes|) }

  lemma {:induction false} BetweenJoin(pushes: seq<seq<Id>>, i: nat, j: nat, k: nat)
    requires i <= j <= k <= |pushes|
    ensures Between(pushes, i, k) == Between(pushes, i, j) + Between(pushes, j, k)
    decreases k
  {
    if j < k {
      BetweenJoin(pushes, i, j, k - 1);
      ConcatAssociative(Between(pushes, i, j), Between(pushes, j, k - 1), pushes[k - 1]);
    }
  }

  /** One poll of `cancel_recv`: what the poll itself brings in, and what other threads push during the search, pop
      by pop. */
  datatype Poll = Poll(polled: seq<Id>, pushed: seq<seq<Id>>)

  /** `m_recv_cb_cancel` of a libfabric communicator or context. */
  class FabricCancelQueue {
    var queue: seq<Id>

    constructor (initial: seq<Id>)
      ensures queue == initial
    {
      queue := initial;
    }

    /** Pop until the target turns up or a pop finds nothing, keeping the others on a temporary stack.  Before each
        pop other threads may push more. */
    method PopUntil(s: Id, pushes: seq<seq<Id>>) returns (found: bool, temp: seq<Id>, used: nat)
      modifies this
      ensures used <= |pushes| && s !in temp
      ensures found ==> old(queue) + Between(pushes, 0, used) == temp + [s] + queue
      ensures !found ==> old(queue) + Between(pushes, 0, used) == temp && queue == []
    {
      ghost var q0 := queue;
      found, temp, used := false, [], 0;
      var more := true;
      assert q0 + Between(pushes, 0, 0) == temp + queue;
      while !found && more
        invariant used <= |pushes| && s !in temp
        invariant !found ==> q0 + Between(pushes, 0, used) == temp + queue
        invariant found ==> q0 + Between(pushes, 0, used) == temp + [s] + queue
        invariant !more ==> queue == []
        decreases !found && more, |pushes| - used, |queue|
      {
        if used < |pushes| {
          Regroup(q0, Between(pushes, 0, used), temp, queue, pushes[used]);
          queue := queue + pushes[used];
          used := used + 1;
        }
        if queue == [] {
          more := false;
        } else {
          var x := queue[0];
          assert temp + queue == temp + [x] + queue[1..];
          queue := queue[1..];
          if x == s { found := true; } else { temp := temp + [x]; }
        }
      }
    }

    /** Push a temporary stack back, top first, while other threads push as well. */
    method PushBack(stack: seq<Id>, pushes: seq<seq<Id>>, start: nat) returns (end: nat)
      requires start <= |pushes|
      modifies this
      ensures end == PutBackEnd(|stack|, pushes, start)
      ensures queue == PutBack(old(queue), Reversed(stack), pushes, start)
      ensures multiset(queue) == multiset(old(queue)) + multiset(stack) + multiset(Between(pushes, start, end))
      ensures start == |pushes| ==> queue == old(queue) + Reversed(stack)
    {
      ghost var kept := queue;
      var temp := stack;
      end := start;
      while temp != []
        invariant start <= end <= |pushes| && PutBackEnd(|temp|, pushes, end) == PutBackEnd(|stack|, pushes, start)
        invariant PutBack(queue, Reversed(temp), pushes, end) == PutBack(kept, Reversed(stack), pushes, start)
        decreases |temp|
      {
        var n := |temp| - 1;
        assert Reversed(temp)[1..] == Reversed(temp[..n]);
        if end < |pushes| {
          queue := queue + pushes[end] + [temp[n]];
          end := end + 1;
        } else {
          queue := queue + [temp[n]];
        }
        temp := temp[..n];
      }
      PutBackStack(kept, stack, pushes, start);
    }

    /** One pass of the search, with what other threads push in the meantime: everything is conserved but the target
        when it is found, a target that was queued when the pass started is found, and undisturbed the new order is
        exactly `AfterSearch`. */
    method Search(s: Id, pushes: seq<seq<Id>>) returns (found: bool)
      modifies this
      ensures multiset(old(queue)) + multiset(Arrived(pushes)) == multiset(queue) + Target(s, found)
      ensures s in old(queue) ==> found
      ensures found ==> s in old(queue) || s in Arrived(pushes)
      ensures pushes == [] ==> queue == AfterSearch(old(queue), s)
    {
      ghost var q0 := queue;
      var temp, used, end;
      found, temp, used := PopUntil(s, pushes);
      ghost var rest := queue;
      end := PushBack(temp, pushes, used);
      queue := AppendFrom(queue, pushes, end);
      PassConserves(q0, s, found, temp, rest, Between(pushes, 0, used));
      SearchConserves(q0, s, found, temp, rest, queue, pushes, used, end);
      if pushes == [] { SearchOrder(q0, s, found, temp, rest); }
    }

    /** `cancel_recv` over a finite number of polls.  When the fabric takes the cancellation, each poll may bring in
        cancelled requests, then the queue is searched while others push.  Running out of polls stands for a loop
        that still waits. */
    method CancelRecv(s: Id, accepted: bool, polls: seq<Poll>) returns (found: bool, used: nat)
      modifies this
      ensures !accepted ==> !found && used == 0 && queue == old(queue)
      ensures used <= |polls|
      ensures Seen(multiset(old(queue)), polls, used) == multiset(queue) + Target(s, found)
      ensures found ==> used > 0 && s in Seen(multiset(old(queue)), polls, used)
      ensures found && used > 1 ==> s !in AtSearch(multiset(old(queue)), polls, used - 2)
      ensures accepted && !found ==> used == |polls|
      ensures !found && used > 0 ==> s !in AtSearch(multiset(old(queue)), polls, used - 1)
    {
      found, used := false, 0;
      ghost var q0 := multiset(queue);
      if !accepted { return; }
      while !found && used < |polls|
        invariant Polled(q0, polls, used, multiset(queue), s, found)
        decreases !found, |polls| - used
      {
        ghost var before := multiset(queue);
        found := PollOnce(s, polls[used]);
        PolledStep(q0, polls, used, before, multiset(queue), s, found);
        used := used + 1;
      }
    }

    /** One poll and the search that follows it. */
    method PollOnce(s: Id, poll: Poll) returns (found: bool)
      modifies this
      ensures multiset(old(queue)) + multiset(poll.polled) + multiset(Arrived(poll.pushed))
           == multiset(queue) + Target(s, found)
      ensures s in multiset(old(queue)) + multiset(poll.polled) ==> found
      ensures found ==> s in multiset(old(queue)) + multiset(poll.polled) + multiset(Arrived(poll.pushed))
    {
      queue := queue + poll.polled;
      found := Search(s, poll.pushed);
    }
  }

  /** What the others still push, after the search. */
  method AppendFrom(queue: seq<Id>, pushes: seq<seq<Id>>, start: nat) returns (q: seq<Id>)
    requires start <= |pushes|
    ensures queue <= q && multiset(q) == multiset(queue) + multiset(Between(pushes, start, |pushes|))
    ensures start == |pushes| ==> q == queue
  {
    q := queue;
    for i := start to |pushes|
      invariant queue <= q && multiset(q) == multiset(queue) + multiset(Between(pushes, start, i))
      invariant i == start ==> q == queue
    {
      q := q + pushes[i];
    }
  }

  lemma Regroup(a: seq<Id>, b: seq<Id>, c: seq<Id>, d: seq<Id>, x: seq<Id>)
    requires a + b == c + d
    ensures a + (b + x) == c + (d + x)
  {
    assert a + (b + x) == (a + b) + x && c + (d + x) == (c + d) + x;
  }

  lemma Shuffle(a: multiset<Id>, b: multiset<Id>, c: multiset<Id>)
    ensures (a + c) + b == a + (b + c)
  {
  }

  lemma ConcatAssociative<T>(a: seq<T>, b: seq<T>, c: seq<T>)
    ensures (a + b) + c == a + (b + c)
  {
  }

  /** The queue once `out` has been put back, when others push before each entry as long as they have something. */
  ghost function PutBack(queue: seq<Id>, out: seq<Id>, pushes: seq<seq<Id>>, start: nat): seq<Id>
    requires start <= |pushes|
    decreases |out|
  {
    if out == [] then queue
    else if start < |pushes| then PutBack(queue + pushes[start] + [out[0]], out[1..], pushes, start + 1)
    else PutBack(queue + [out[0]], out[1..], pushes, start)
  }

  /** How many of the pushes have come when `n` entries have been put back. */
  ghost function PutBackEnd(n: nat, pushes: seq<seq<Id>>, start: nat): nat
    requires start <= |pushes|
  {
    if start + n <= |pushes| then start + n else |pushes|
  }

  lemma {:induction false} PutBackConserves(queue: seq<Id>, out: seq<Id>, pushes: seq<seq<Id>>, start: nat)
    requires start <= |pushes|
    ensures multiset(PutBack(queue, out, pushes, start))
         == multiset(queue) + multiset(out) + multiset(Between(pushes, start, PutBackEnd(|out|, pushes, start)))
    decreases |out|
  {
    if out != [] {
      HeadConserves(out);
      if start < |pushes| {
        var end := PutBackEnd(|out|, pushes, start);
        PutBackConserves(queue + pushes[start] + [out[0]], out[1..], pushes, start + 1);
        BetweenFirst(pushes, start, end);
        TwoAppended(queue, pushes[start], out[0]);
        Exchange(multiset(queue), multiset(pushes[start]), multiset{out[0]}, multiset(out[1..]),
                 multiset(Between(pushes, start + 1, end)));
      } else {
        PutBackConserves(queue + [out[0]], out[1..], pushes, start);
        assert multiset(queue + [out[0]]) == multiset(queue) + multiset{out[0]};
      }
    }
  }

  lemma HeadConserves(out: seq<Id>)
    requires out != []
    ensures multiset(out) == multiset{out[0]} + multiset(out[1..])
  {
    assert out == [out[0]] + out[1..];
  }

  lemma TwoAppended(queue: seq<Id>, x: seq<Id>, z: Id)
    ensures multiset(queue + x + [z]) == multiset(queue) + multiset(x) + multiset{z}
  {
  }

  lemma BetweenFirst(pushes: seq<seq<Id>>, i: nat, k: nat)
    requires i < k <= |pushes|
    ensures multiset(Between(pushes, i, k)) == multiset(pushes[i]) + multiset(Between(pushes, i + 1, k))
  {
    BetweenJoin(pushes, i, i + 1, k);
    assert Between(pushes, i, i + 1) == Between(pushes, i, i) + pushes[i] == pushes[i];
  }

  lemma Exchange(a: multiset<Id>, b: multiset<Id>, c: multiset<Id>, d: multiset<Id>, e: multiset<Id>)
    ensures (a + b + c) + d + e == a + (c + d) + (b + e)
  {
  }

  /** Undisturbed, the entries follow what is there. */
  lemma {:induction false} PutBackAlone(queue: seq<Id>, out: seq<Id>, pushes: seq<seq<Id>>)
    ensures PutBack(queue, out, pushes, |pushes|) == queue + out
    decreases |out|
  {
    if out == [] {
      assert queue + out == queue;
    } else {
      PutBackAlone(queue + [out[0]], out[1..], pushes);
      assert queue + out == (queue + [out[0]]) + out[1..];
    }
  }

  /** The same for a stack, which goes back top first. */
  lemma PutBackStack(queue: seq<Id>, stack: seq<Id>, pushes: seq<seq<Id>>, start: nat)
    requires start <= |pushes|
    ensures multiset(PutBack(queue, Reversed(stack), pushes, start))
         == multiset(queue) + multiset(stack) + multiset(Between(pushes, start, PutBackEnd(|stack|, pushes, start)))
    ensures start == |pushes| ==> PutBack(queue, Reversed(stack), pushes, start) == queue + Reversed(stack)
  {
    ReversedConserves(stack);
    PutBackConserves(queue, Reversed(stack), pushes, start);
    if start == |pushes| { PutBackAlone(queue, Reversed(stack), pushes); }
  }

  lemma SearchConserves(q0: seq<Id>, s: Id, found: bool, temp: seq<Id>, rest: seq<Id>, queue: seq<Id>,
                        pushes: seq<seq<Id>>, i: nat, j: nat)
    requires i <= j <= |pushes|
    requires multiset(q0) + multiset(Between(pushes, 0, i)) == multiset(temp) + multiset(rest) + Target(s, found)
    requires multiset(queue) == multiset(rest) + multiset(temp) + multiset(Between(pushes, i, j))
                                + multiset(Between(pushes, j, |pushes|))
    ensures multiset(q0) + multiset(Arrived(pushes)) == multiset(queue) + Target(s, found)
    ensures forall x :: x in Between(pushes, 0, i) ==> x in Arrived(pushes)
  {
    BetweenJoin(pushes, 0, i, j);
    BetweenJoin(pushes, 0, j, |pushes|);
    var a, b, c := Between(pushes, 0, i), Between(pushes, i, j), Between(pushes, j, |pushes|);
    assert multiset(a + b + c) == multiset(a) + multiset(b) + multiset(c);
    Balance(multiset(q0), multiset(a), multiset(b), multiset(c), multiset(temp), multiset(rest), Target(s, found));
  }

  lemma Balance(q0: multiset<Id>, a: multiset<Id>, b: multiset<Id>, c: multiset<Id>,
                temp: multiset<Id>, rest: multiset<Id>, target: multiset<Id>)
    requires q0 + a == temp + rest + target
    ensures q0 + (a + b + c) == (rest + temp + b + c) + target
  {
    forall x ensures (q0 + (a + b + c))[x] == ((rest + temp + b + c) + target)[x] {
      assert (q0 + a)[x] == (temp + rest + target)[x];
    }
  }

  ghost function Target(s: Id, found: bool): multiset<Id> { if found then multiset{s} else multiset{} }

  /** Everything that was in the queue, came in with the first `k` polls or was pushed during their searches. */
  ghost function Seen(q0: multiset<Id>, polls: seq<Poll>, k: nat): multiset<Id>
    requires k <= |polls|
  {
    if k == 0 then q0
    else Seen(q0, polls, k - 1) + multiset(polls[k - 1].polled) + multiset(Arrived(polls[k - 1].pushed))
  }

  /** What is in the queue when search `k` starts, as long as nothing was found. */
  ghost function AtSearch(q0: multiset<Id>, polls: seq<Poll>, k: nat): multiset<Id>
    requires k < |polls|
  {
    Seen(q0, polls, k) + multiset(polls[k].polled)
  }

  /** The state of `cancel_recv` after `used` polls. */
  ghost predicate Polled(q0: multiset<Id>, polls: seq<Poll>, used: nat, now: multiset<Id>, s: Id, found: bool)
  {
    && used <= |polls| && Seen(q0, polls, used) == now + Target(s, found)
    && (!found && used > 0 ==> s !in AtSearch(q0, polls, used - 1))
    && (found ==> used > 0 && s in Seen(q0, polls, used))
    && (found && used > 1 ==> s !in AtSearch(q0, polls, used - 2))
  }

  lemma PolledStep(q0: multiset<Id>, polls: seq<Poll>, used: nat, before: multiset<Id>, now: multiset<Id>, s: Id,
                   found: bool)
    requires Polled(q0, polls, used, before, s, false) && used < |polls|
    requires var poll := polls[used];
             && before + multiset(poll.polled) + multiset(Arrived(poll.pushed)) == now + Target(s, found)
             && (s in before + multiset(poll.polled) ==> found)
             && (found ==> s in before + multiset(poll.polled) + multiset(Arrived(poll.pushed)))
    ensures Polled(q0, polls, used + 1, now, s, found)
  {
    assert Seen(q0, polls, used) == before;
  }

  lemma PassConserves(q0: seq<Id>, s: Id, found: bool, temp: seq<Id>, rest: seq<Id>, arrived: seq<Id>)
    requires s !in temp
    requires if found then q0 + arrived == temp + [s] + rest else q0 + arrived == temp && rest == []
    ensures multiset(q0) + multiset(arrived) == multiset(temp) + multiset(rest) + Target(s, found)
    ensures s in q0 ==> found
    ensures found ==> s in q0 || s in arrived
  {
    var all := q0 + arrived;
    assert multiset(all) == multiset(q0) + multiset(arrived);
    if found {
      assert multiset(temp + [s] + rest) == multiset(temp) + multiset{s} + multiset(rest);
      assert all[|temp|] == s;
    } else {
      assert s in q0 ==> s in all;
    }
  }

  lemma SearchOrder(q0: seq<Id>, s: Id, found: bool, temp: seq<Id>, rest: seq<Id>)
    requires s !in temp && (found ==> q0 == temp + [s] + rest) && (!found ==> q0 == temp && rest == [])
    ensures rest + Reversed(temp) == AfterSearch(q0, s)
  {
    if found {
      assert q0[..|temp|] == temp && q0[|temp| + 1..] == rest && q0[|temp|] == s;
      FirstIndexUnique(q0, s, |temp|);
    }
  }

  lemma {:induction false} FirstIndexUnique(q: seq<Id>, s: Id, i: nat)
    requires i < |q| && q[i] == s && s !in q[..i]
    ensures FirstIndex(q, s) == i
    decreases i
  {
    if i > 0 {
      assert q[0] in q[..i];
      assert forall x :: x in q[1..][..i - 1] ==> x in q[..i];
      FirstIndexUnique(q[1..], s, i - 1);
    }
  }

  // ---------- UCX: consume all, push back all others ----------

  ghost function Others(q: seq<Id>, s: Id): seq<Id>
  {
    if q == [] then [] else
      var n := |q| - 1;
      Others(q[..n], s) + (if q[n] == s then [] else [q[n]])
  }

  /** Nothing but the target is lost. */
  lemma {:induction false} OthersConserve(q: seq<Id>, s: Id)
    ensures multiset(Others(q, s)) == multiset(q)[s := 0]
  {
    if q != [] {
      var n := |q| - 1;
      OthersConserve(q[..n], s);
      assert q == q[..n] + [q[n]];
      assert multiset(q) == multiset(q[..n]) + multiset{q[n]};
    }
  }

  /** Some `x` stands before some `y`. */
  ghost predicate Precedes(q: seq<Id>, x: Id, y: Id)
  {
    exists i, j :: 0 <= i < j < |q| && q[i] == x && q[j] == y
  }

  lemma PrecedesAppend(q: seq<Id>, z: Id, x: Id, y: Id)
    ensures Precedes(q + [z], x, y) <==> Precedes(q, x, y) || (x in q && y == z)
  {
    var qz := q + [z];
    if Precedes(q, x, y) {
      var i, j :| 0 <= i < j < |q| && q[i] == x && q[j] == y;
      assert qz[i] == x && qz[j] == y;
    }
    if x in q && y == z {
      var i :| 0 <= i < |q| && q[i] == x;
      assert qz[i] == x && qz[|q|] == y;
    }
  }

  /** The others keep their order: one request stands before another after the search exactly when it did before. */
  lemma {:induction false} OthersKeepOrder(q: seq<Id>, s: Id, x: Id, y: Id)
    requires x != s && y != s
    ensures Precedes(Others(q, s), x, y) <==> Precedes(q, x, y)
    ensures x in Others(q, s) <==> x in q
  {
    if q != [] {
      var n := |q| - 1;
      OthersKeepOrder(q[..n], s, x, y);
      assert q == q[..n] + [q[n]];
      PrecedesAppend(q[..n], q[n], x, y);
      if q[n] == s {
        assert Others(q, s) == Others(q[..n], s);
      } else {
        PrecedesAppend(Others(q[..n], s), q[n], x, y);
      }
    }
  }

  lemma OthersAppend(q: seq<Id>, r: Id, s: Id)
    ensures Others(q + [r], s) == Others(q, s) + (if r == s then [] else [r])
  {
    assert (q + [r])[..|q|] == q;
  }

  lemma {:induction false} OthersAbsent(q: seq<Id>, s: Id)
    requires s !in q
    ensures Others(q, s) == q
  {
    if q != [] { OthersAbsent(q[..|q| - 1], s); }
  }

  /** `part` is a subsequence of `queue`. */
  ghost predicate Within(part: seq<Id>, queue: seq<Id>)
    decreases |queue|
  {
    || part == []
    || (&& queue != []
        && var p, q := |part| - 1, |queue| - 1;
           (part[p] == queue[q] && Within(part[..p], queue[..q])) || Within(part, queue[..q]))
  }

  lemma PrecedesPrefix(q: seq<Id>, longer: seq<Id>, x: Id, y: Id)
    requires Precedes(q, x, y) && q <= longer
    ensures Precedes(longer, x, y)
  {
    var i, j :| 0 <= i < j < |q| && q[i] == x && q[j] == y;
    assert longer[i] == x && longer[j] == y;
  }

  lemma {:induction false} WithinMore(part: seq<Id>, queue: seq<Id>, longer: seq<Id>)
    requires Within(part, queue) && queue <= longer
    ensures Within(part, longer)
    decreases |longer|
  {
    if longer != queue { WithinMore(part, queue, longer[..|longer| - 1]); }
  }

  lemma {:induction false} WithinNext(part: seq<Id>, queue: seq<Id>, z: Id)
    requires Within(part, queue)
    ensures Within(part + [z], queue + [z])
  {
    assert (part + [z])[..|part|] == part && (queue + [z])[..|queue|] == queue;
  }

  lemma {:induction false} WithinMember(part: seq<Id>, queue: seq<Id>, x: Id)
    requires Within(part, queue) && x in part
    ensures x in queue
    decreases |queue|
  {
    var p, q := |part| - 1, |queue| - 1;
    if Within(part, queue[..q]) {
      WithinMember(part, queue[..q], x);
    } else if x != part[p] {
      WithinMember(part[..p], queue[..q], x);
    }
  }

  lemma {:induction false} WithinKeepsOrder(part: seq<Id>, queue: seq<Id>, x: Id, y: Id)
    requires Within(part, queue) && Precedes(part, x, y)
    ensures Precedes(queue, x, y)
    decreases |queue|
  {
    var p, q := |part| - 1, |queue| - 1;
    if Within(part, queue[..q]) {
      WithinKeepsOrder(part, queue[..q], x, y);
      PrecedesPrefix(queue[..q], queue, x, y);
    } else {
      assert part == part[..p] + [part[p]] && queue == queue[..q] + [queue[q]];
      PrecedesAppend(part[..p], part[p], x, y);
      PrecedesAppend(queue[..q], queue[q], x, y);
      if Precedes(part[..p], x, y) {
        WithinKeepsOrder(part[..p], queue[..q], x, y);
      } else {
        WithinMember(part[..p], queue[..q], x);
      }
    }
  }

  /** Every old entry but the target stands in its old order among what is put back. */
  lemma OldOrderKept(q: seq<Id>, arrived: seq<Id>, s: Id, queue: seq<Id>)
    requires Within(Others(q + arrived, s), queue)
    ensures forall x, y | x != s && y != s && Precedes(q, x, y) :: Precedes(queue, x, y)
  {
    forall x, y | x != s && y != s && Precedes(q, x, y) ensures Precedes(queue, x, y) {
      PrecedesPrefix(q, q + arrived, x, y);
      OthersKeepOrder(q + arrived, s, x, y);
      WithinKeepsOrder(Others(q + arrived, s), queue, x, y);
    }
  }

  /** When the target turns up at most once, it is all that is missing. */
  lemma OthersLoseTarget(q: seq<Id>, s: Id, later: multiset<Id>)
    requires (multiset(q) + later)[s] <= 1
    ensures multiset(q) + later == multiset(Others(q, s)) + later + Target(s, s in q)
  {
    OthersConserve(q, s);
    assert s in q <==> multiset(q)[s] > 0;
    var others := multiset(Others(q, s));
    assert multiset(q) == others + Target(s, s in q) by {
      forall x ensures multiset(q)[x] == (others + Target(s, s in q))[x] {
      }
    }
    Shuffle(others, later, Target(s, s in q));
  }

  /** Of all that was `seen`, `consumed` has been taken off the queue, and its entries other than the target kept. */
  ghost predicate Consuming(seen: seq<Id>, consumed: seq<Id>, queue: seq<Id>, vec: seq<Id>, s: Id, found: bool)
  {
    seen == consumed + queue && vec == Others(consumed, s) && (found <==> s in consumed)
  }

  lemma ConsumeArrival(q0: seq<Id>, pushes: seq<seq<Id>>, k: nat, consumed: seq<Id>, queue: seq<Id>, vec: seq<Id>,
                       s: Id, found: bool)
    requires k < |pushes| && Consuming(q0 + Between(pushes, 0, k), consumed, queue, vec, s, found)
    ensures Consuming(q0 + Between(pushes, 0, k + 1), consumed, queue + pushes[k], vec, s, found)
  {
    Regroup(q0, Between(pushes, 0, k), consumed, queue, pushes[k]);
  }

  lemma ConsumeNext(seen: seq<Id>, consumed: seq<Id>, queue: seq<Id>, vec: seq<Id>, s: Id, found: bool)
    requires Consuming(seen, consumed, queue, vec, s, found) && queue != []
    ensures Consuming(seen, consumed + [queue[0]], queue[1..], if queue[0] == s then vec else vec + [queue[0]], s,
                      found || queue[0] == s)
  {
    OthersAppend(consumed, queue[0], s);
    assert consumed + queue == (consumed + [queue[0]]) + queue[1..];
  }

  lemma ConsumeDone(seen: seq<Id>, consumed: seq<Id>, vec: seq<Id>, s: Id, found: bool)
    requires Consuming(seen, consumed, [], vec, s, found)
    ensures vec == Others(seen, s) && (found <==> s in seen)
  {
    assert consumed + [] == consumed;
  }

  /** What is put back keeps its order. */
  lemma PutBackKeepsOrder(queue: seq<Id>, out: seq<Id>, pushes: seq<seq<Id>>, start: nat)
    requires start <= |pushes|
    ensures Within(out, PutBack(queue, out, pushes, start))
  {
    PutBackWithin([], queue, out, pushes, start);
    assert [] + out == out;
  }

  lemma {:induction false} PutBackWithin(part: seq<Id>, queue: seq<Id>, out: seq<Id>, pushes: seq<seq<Id>>, start: nat)
    requires start <= |pushes| && Within(part, queue)
    ensures Within(part + out, PutBack(queue, out, pushes, start))
    decreases |out|
  {
    if out == [] {
      assert part + out == part;
    } else {
      assert part + out == (part + [out[0]]) + out[1..];
      if start < |pushes| {
        WithinMore(part, queue, queue + pushes[start]);
        WithinNext(part, queue + pushes[start], out[0]);
        PutBackWithin(part + [out[0]], queue + pushes[start] + [out[0]], out[1..], pushes, start + 1);
      } else {
        WithinNext(part, queue, out[0]);
        PutBackWithin(part + [out[0]], queue + [out[0]], out[1..], pushes, start);
      }
    }
  }

  /** `m_cancel_recv_req_queue` of a UCX communicator. */
  class UcxCancelQueue {
    var queue: seq<Id>
    var vec: seq<Id>

    constructor (initial: seq<Id>)
      ensures queue == initial && vec == []
    {
      queue, vec := initial, [];
    }

    /** Consume until the queue is found empty; before each pop the receive callbacks of other threads may push. */
    method ConsumeAll(s: Id, pushes: seq<seq<Id>>) returns (found: bool, used: nat)
      modifies this
      ensures used <= |pushes| && queue == []
      ensures vec == Others(old(queue) + Between(pushes, 0, used), s)
      ensures found <==> s in old(queue) + Between(pushes, 0, used)
    {
      ghost var q0 := queue;
      found, used, vec := false, 0, [];
      ghost var consumed: seq<Id> := [];
      var more := true;
      assert q0 + Between(pushes, 0, 0) == consumed + queue;
      while more
        invariant used <= |pushes| && Consuming(q0 + Between(pushes, 0, used), consumed, queue, vec, s, found)
        invariant !more ==> queue == []
        decreases more, |pushes| - used, |queue|
      {
        if used < |pushes| {
          ConsumeArrival(q0, pushes, used, consumed, queue, vec, s, found);
          queue := queue + pushes[used];
          used := used + 1;
        }
        if queue == [] {
          more := false;
        } else {
          ConsumeNext(q0 + Between(pushes, 0, used), consumed, queue, vec, s, found);
          var r := queue[0];
          queue, consumed := queue[1..], consumed + [r];
          if r == s { found := true; } else { vec := vec + [r]; }
        }
      }
      ConsumeDone(q0 + Between(pushes, 0, used), consumed, vec, s, found);
    }

    /** Push the others back, in order, while the receive callbacks of other threads push as well. */
    method Restore(pushes: seq<seq<Id>>, start: nat) returns (end: nat)
      requires start <= |pushes|
      modifies `queue
      ensures end == PutBackEnd(|vec|, pushes, start)
      ensures queue == PutBack(old(queue), vec, pushes, start)
      ensures multiset(queue) == multiset(old(queue)) + multiset(vec) + multiset(Between(pushes, start, end))
      ensures Within(vec, queue)
    {
      ghost var kept := queue;
      end := start;
      for k := 0 to |vec|
        invariant end == PutBackEnd(k, pushes, start)
        invariant PutBack(queue, vec[k..], pushes, end) == PutBack(kept, vec, pushes, start)
      {
        assert vec[k..][1..] == vec[k + 1..];
        if end < |pushes| {
          queue := queue + pushes[end] + [vec[k]];
          end := end + 1;
        } else {
          queue := queue + [vec[k]];
        }
      }
      PutBackConserves(kept, vec, pushes, start);
      PutBackKeepsOrder(kept, vec, pushes, start);
    }

    /** The search of `cancel_recv`, after the worker has been progressed.  `used` counts the pushes of others that
        came while the queue was consumed; the rest came later.  Only the target is lost, a target that was queued is
        found, and the old entries keep their order. */
    method CancelRecv(s: Id, pushes: seq<seq<Id>>) returns (found: bool, used: nat)
      modifies this
      ensures used <= |pushes| && (found <==> s in old(queue) + Between(pushes, 0, used))
      ensures multiset(queue) == multiset(Others(old(queue) + Between(pushes, 0, used), s))
                                 + multiset(Between(pushes, used, |pushes|))
      ensures (multiset(old(queue)) + multiset(Arrived(pushes)))[s] <= 1 ==>
                multiset(old(queue)) + multiset(Arrived(pushes)) == multiset(queue) + Target(s, found)
      ensures forall x, y | x != s && y != s && Precedes(old(queue), x, y) :: Precedes(queue, x, y)
      ensures pushes == [] ==> queue == Others(old(queue), s)
    {
      ghost var q0 := queue;
      found, used := ConsumeAll(s, pushes);
      var end := Restore(pushes, used);
      ghost var before := queue;
      queue := AppendFrom(queue, pushes, end);
      UcxDone(q0, s, found, vec, before, queue, pushes, used, end);
    }
  }

  lemma UcxDone(q0: seq<Id>, s: Id, found: bool, vec: seq<Id>, before: seq<Id>, queue: seq<Id>,
                pushes: seq<seq<Id>>, i: nat, j: nat)
    requires i <= j <= |pushes| && vec == Others(q0 + Between(pushes, 0, i), s)
    requires found <==> s in q0 + Between(pushes, 0, i)
    requires before == PutBack([], vec, pushes, i) && Within(vec, before)
    requires multiset(before) == multiset([]) + multiset(vec) + multiset(Between(pushes, i, j))
    requires before <= queue && (j == |pushes| ==> queue == before)
    requires multiset(queue) == multiset(before) + multiset(Between(pushes, j, |pushes|))
    ensures multiset(queue) == multiset(Others(q0 + Between(pushes, 0, i), s)) + multiset(Between(pushes, i, |pushes|))
    ensures (multiset(q0) + multiset(Arrived(pushes)))[s] <= 1 ==>
              multiset(q0) + multiset(Arrived(pushes)) == multiset(queue) + Target(s, found)
    ensures forall x, y | x != s && y != s && Precedes(q0, x, y) :: Precedes(queue, x, y)
    ensures pushes == [] ==> queue == Others(q0, s)
  {
    WithinMore(vec, before, queue);
    OldOrderKept(q0, Between(pushes, 0, i), s, queue);
    UcxConserves(q0, s, found, vec, before, queue, pushes, i, j);
    if pushes == [] {
      PutBackAlone([], vec, pushes);
      assert q0 + [] == q0;
    }
  }

  lemma UcxConserves(q0: seq<Id>, s: Id, found: bool, vec: seq<Id>, before: seq<Id>, queue: seq<Id>,
                     pushes: seq<seq<Id>>, i: nat, j: nat)
    requires i <= j <= |pushes| && vec == Others(q0 + Between(pushes, 0, i), s)
    requires found <==> s in q0 + Between(pushes, 0, i)
    requires multiset(before) == multiset([]) + multiset(vec) + multiset(Between(pushes, i, j))
    requires multiset(queue) == multiset(before) + multiset(Between(pushes, j, |pushes|))
    ensures multiset(queue) == multiset(vec) + multiset(Between(pushes, i, |pushes|))
    ensures (multiset(q0) + multiset(Arrived(pushes)))[s] <= 1 ==>
              multiset(q0) + multiset(Arrived(pushes)) == multiset(queue) + Target(s, found)
  {
    var seen, later := q0 + Between(pushes, 0, i), Between(pushes, i, |pushes|);
    BetweenJoin(pushes, i, j, |pushes|);
    assert multiset(later) == multiset(Between(pushes, i, j)) + multiset(Between(pushes, j, |pushes|));
    BetweenJoin(pushes, 0, i, |pushes|);
    AllPushed(q0, Between(pushes, 0, i), later, Arrived(pushes));
    if (multiset(q0) + multiset(Arrived(pushes)))[s] <= 1 {
      OthersLoseTarget(seen, s, multiset(later));
    }
  }

  lemma AllPushed(q0: seq<Id>, a: seq<Id>, b: seq<Id>, all: seq<Id>)
    requires all == a + b
    ensures multiset(q0) + multiset(all) == multiset(q0 + a) + multiset(b)
  {
    assert multiset(all) == multiset(a) + multiset(b);
    assert multiset(q0 + a) == multiset(q0) + multiset(a);
  }
}
