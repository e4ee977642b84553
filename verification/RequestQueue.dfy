/** The request queues of the MPI and NCCL backends.

    A queue keeps raw pointers to request states; each MPI request state remembers its
    position in `m_index`.  Here a request is a number and `index` maps it to its `m_index`. */
module RequestQueue {

  type Id = nat

  // ---------- the reference: a stable partition ----------

  /** The elements of `s` at the marked positions, in order. */
  ghost function Selected<T>(s: seq<T>, hit: seq<bool>): seq<T>
    requires |s| == |hit|
  {
    if s == [] then [] else
      var n := |s| - 1;
      Selected(s[..n], hit[..n]) + (if hit[n] then [s[n]] else [])
  }

  /** The elements of `s` at the unmarked positions, in order. */
  ghost function Rejected<T>(s: seq<T>, hit: seq<bool>): seq<T>
    requires |s| == |hit|
  {
    if s == [] then [] else
      var n := |s| - 1;
      Rejected(s[..n], hit[..n]) + (if hit[n] then [] else [s[n]])
  }

  /** How many of the first `i` positions are marked. */
  ghost function HitsBefore(hit: seq<bool>, i: nat): nat
    requires i <= |hit|
  {
    if i == 0 then 0 else HitsBefore(hit, i - 1) + (if hit[i - 1] then 1 else 0)
  }

  lemma {:induction false} HitsBeforePrefix(hit: seq<bool>, n: nat, i: nat)
    requires i <= n <= |hit|
    ensures HitsBefore(hit[..n], i) == HitsBefore(hit, i)
  {
    if i > 0 { HitsBeforePrefix(hit, n, i - 1); }
  }

  /** Element `i` lands in its class after exactly the earlier elements of that class. */
  ghost predicate LandsInOrder<T>(s: seq<T>, hit: seq<bool>, i: nat)
    requires i < |s| == |hit|
  {
    && HitsBefore(hit, i) <= i
    && if hit[i]
       then HitsBefore(hit, i) < |Selected(s, hit)| && Selected(s, hit)[HitsBefore(hit, i)] == s[i]
       else i - HitsBefore(hit, i) < |Rejected(s, hit)| && Rejected(s, hit)[i - HitsBefore(hit, i)] == s[i]
  }

  /** The split is a stable partition: element `i` lands after exactly the earlier elements of
      its own class, and the classes have the sizes the marks give them. */
  lemma {:induction false} PartitionIsStable<T>(s: seq<T>, hit: seq<bool>)
    requires |s| == |hit|
    ensures |Selected(s, hit)| == HitsBefore(hit, |s|) <= |s|
    ensures |Rejected(s, hit)| == |s| - HitsBefore(hit, |s|)
    ensures forall i :: 0 <= i < |s| ==> LandsInOrder(s, hit, i)
  {
    PartitionSizes(s, hit);
    SelectedSize(s, hit);
    forall i | 0 <= i < |s|
      ensures LandsInOrder(s, hit, i)
    {
      PartitionAt(s, hit, i);
    }
  }

  lemma {:induction false} SelectedSize<T>(s: seq<T>, hit: seq<bool>)
    requires |s| == |hit|
    ensures |Selected(s, hit)| == HitsBefore(hit, |s|) <= |s|
  {
    if s != [] {
      var n := |s| - 1;
      SelectedSize(s[..n], hit[..n]);
      HitsBeforePrefix(hit, n, n);
    }
  }

  lemma {:induction false} PartitionAt<T>(s: seq<T>, hit: seq<bool>, i: nat)
    requires i < |s| == |hit|
    ensures LandsInOrder(s, hit, i)
    decreases |s|
  {
    var n := |s| - 1;
    HitsBeforePrefix(hit, n, i);
    if i < n {
      PartitionAt(s[..n], hit[..n], i);
    } else {
      SelectedSize(s[..n], hit[..n]);
      PartitionSizes(s[..n], hit[..n]);
    }
  }

  lemma {:induction false} PartitionSizes<T>(s: seq<T>, hit: seq<bool>)
    requires |s| == |hit|
    ensures |Selected(s, hit)| + |Rejected(s, hit)| == |s|
  {
    if s != [] {
      var n := |s| - 1;
      PartitionSizes(s[..n], hit[..n]);
    }
  }

  lemma MultisetPush<T>(s: seq<T>, x: T)
    ensures multiset(s + [x]) == multiset(s) + multiset{x}
  {
  }

  /** The partition loses nothing and invents nothing. */
  lemma {:induction false} PartitionConserves<T>(s: seq<T>, hit: seq<bool>)
    requires |s| == |hit|
    ensures multiset(s) == multiset(Selected(s, hit)) + multiset(Rejected(s, hit))
  {
    if s != [] {
      var n := |s| - 1;
      PartitionConserves(s[..n], hit[..n]);
      var taken, kept := Selected(s[..n], hit[..n]), Rejected(s[..n], hit[..n]);
      assert s == s[..n] + [s[n]];
      MultisetPush(s[..n], s[n]);
      if hit[n] {
        assert Rejected(s, hit) == kept;
        MultisetPush(taken, s[n]);
      } else {
        assert Selected(s, hit) == taken;
        MultisetPush(kept, s[n]);
      }
    }
  }

  /** Scanning one more element. */
  lemma PartitionStep<T>(s: seq<T>, hit: seq<bool>, i: nat)
    requires i < |s| == |hit|
    ensures Selected(s[..i + 1], hit[..i + 1]) == Selected(s[..i], hit[..i]) + (if hit[i] then [s[i]] else [])
    ensures Rejected(s[..i + 1], hit[..i + 1]) == Rejected(s[..i], hit[..i]) + (if hit[i] then [] else [s[i]])
  {
    assert s[..i + 1][..i] == s[..i] && hit[..i + 1][..i] == hit[..i];
  }

  // ---------- swap-remove ----------

  ghost function SwapRemove<T>(s: seq<T>, i: nat): seq<T>
    requires i < |s|
  {
    if i + 1 < |s| then s[i := s[|s| - 1]][..|s| - 1] else s[..|s| - 1]
  }

  lemma SwapRemoveConserves<T>(s: seq<T>, i: nat)
    requires i < |s|
    ensures multiset(s) == multiset(SwapRemove(s, i)) + multiset{s[i]}
  {
    var n := |s| - 1;
    assert s == s[..n] + [s[n]];
    if i < n {
      var pre := s[..n];
      assert SwapRemove(s, i) == pre[i := s[n]];
      assert multiset(pre[i := s[n]]) == multiset(pre) - multiset{pre[i]} + multiset{s[n]};
    }
  }

  // ---------- MPI_Testsome indices ----------

  /** What MPI_Testsome gives back: indices of completed requests, or MPI_UNDEFINED when it was given
      null handles only (section 3.7.5 of MPI 3.1). */
  datatype Report = Undefined | Indices(idx: seq<nat>)

  /** Indices as MPI reports them: in range, each at most once, in any order. */
  predicate Distinct(n: nat, idx: seq<nat>)
  {
    && (forall k :: 0 <= k < |idx| ==> idx[k] < n)
    && (forall k, l :: 0 <= k < l < |idx| ==> idx[k] != idx[l])
  }

  /** Some queued request has a handle that is not null. */
  predicate HasLive(queue: seq<Id>, nulled: set<Id>)
  {
    exists e :: e in queue && e !in nulled
  }

  /** A report MPI can give for a queue whose null handles are known; null handles never complete. */
  predicate ReportFor(queue: seq<Id>, nulled: set<Id>, report: Report)
  {
    match report
    case Undefined => !HasLive(queue, nulled)
    case Indices(idx) =>
      && HasLive(queue, nulled) && Distinct(|queue|, idx)
      && (forall k :: 0 <= k < |idx| ==> queue[idx[k]] !in nulled)
  }

  ghost predicate Ascending(idx: seq<nat>)
  {
    forall k, l :: 0 <= k < l < |idx| ==> idx[k] < idx[l]
  }

  /** The length of the longest strictly ascending prefix. */
  ghost function AscendingPrefix(idx: seq<nat>): (m: nat)
    ensures m <= |idx| && Ascending(idx[..m])
    ensures idx != [] ==> m > 0
    ensures m < |idx| ==> m > 0 && idx[m] <= idx[m - 1]
  {
    if |idx| <= 1 then |idx| else
      var n := |idx| - 1;
      var m := AscendingPrefix(idx[..n]);
      assert idx[..n][..m] == idx[..m];
      if m < n then m
      else if idx[n] > idx[n - 1] then
        assert idx[..n][..n] == idx[..n];
        n + 1
      else n
  }

  /** `m` marks off an ascending prefix that cannot be made longer. */
  ghost predicate IsAscendingPrefix(idx: seq<nat>, m: nat)
  {
    m <= |idx| && Ascending(idx[..m]) && (m < |idx| ==> m > 0 && idx[m] <= idx[m - 1])
  }

  lemma PrefixFullIffAscending(idx: seq<nat>)
    ensures AscendingPrefix(idx) == |idx| <==> Ascending(idx)
  {
    var m := AscendingPrefix(idx);
    if m == |idx| { assert idx[..m] == idx; }
  }

  ghost function Marks(n: nat, idx: seq<nat>): (hit: seq<bool>)
    ensures |hit| == n && forall i :: 0 <= i < n ==> (hit[i] <==> i in idx)
  {
    seq(n, i requires 0 <= i < n => i in idx)
  }

  /** The marks the scan acts on: the ascending prefix of what was reported. */
  ghost function Taken(n: nat, idx: seq<nat>): (hit: seq<bool>)
    ensures |hit| == n
  {
    Marks(n, idx[..AscendingPrefix(idx)])
  }

  /** Request by request, `ready` is what stood at the first reported positions. */
  ghost predicate CollectedAt(queue: seq<Id>, idx: seq<nat>, ready: seq<Id>)
  {
    |ready| <= |idx| && forall k :: 0 <= k < |ready| ==> idx[k] < |queue| && ready[k] == queue[idx[k]]
  }

  /** What stood at none of the first `m` reported positions is still there. */
  ghost predicate KeptElsewhere(queue: seq<Id>, idx: seq<nat>, m: nat, kept: seq<Id>)
  {
    m <= |idx| && forall i :: 0 <= i < |queue| && i !in idx[..m] ==> queue[i] in kept
  }

  /** The marks before position `i` are the reported positions below `i`. */
  lemma {:induction false} MarksBefore(n: nat, idx: seq<nat>, i: nat, k: nat)
    requires Ascending(idx) && i <= n && k <= |idx|
    requires forall x :: 0 <= x < k ==> idx[x] < i
    requires forall x :: k <= x < |idx| ==> idx[x] >= i
    ensures HitsBefore(Marks(n, idx), i) == k
    decreases i
  {
    if i > 0 {
      if k > 0 && idx[k - 1] == i - 1 {
        MarksBefore(n, idx, i - 1, k - 1);
      } else {
        assert forall x :: 0 <= x < k - 1 ==> idx[x] < idx[k - 1];
        MarksBefore(n, idx, i - 1, k);
      }
    }
  }

  lemma CollectedOne(queue: seq<Id>, idx: seq<nat>, k: nat)
    requires Ascending(idx) && k < |idx| && idx[k] < |queue|
    ensures var taken := Selected(queue, Marks(|queue|, idx)); k < |taken| && taken[k] == queue[idx[k]]
  {
    var hit := Marks(|queue|, idx);
    MarksBefore(|queue|, idx, idx[k], k);
    PartitionAt(queue, hit, idx[k]);
    assert hit[idx[k]];
  }

  lemma KeptOne(queue: seq<Id>, idx: seq<nat>, i: nat)
    requires i < |queue| && i !in idx
    ensures queue[i] in Rejected(queue, Marks(|queue|, idx))
  {
    PartitionAt(queue, Marks(|queue|, idx), i);
  }

  /** The scan collects what was reported, up to where the report stops ascending, and keeps everything else. */
  lemma TakenAsReported(queue: seq<Id>, idx: seq<nat>, m: nat)
    requires Distinct(|queue|, idx) && IsAscendingPrefix(idx, m)
    requires |Selected(queue, Marks(|queue|, idx[..m]))| == m
    ensures CollectedAt(queue, idx, Selected(queue, Marks(|queue|, idx[..m])))
    ensures KeptElsewhere(queue, idx, m, Rejected(queue, Marks(|queue|, idx[..m])))
  {
    var part := idx[..m];
    forall k | 0 <= k < m
      ensures idx[k] < |queue| && Selected(queue, Marks(|queue|, part))[k] == queue[idx[k]]
    {
      assert part[k] == idx[k];
      CollectedOne(queue, part, k);
    }
    forall i | 0 <= i < |queue| && i !in part ensures queue[i] in Rejected(queue, Marks(|queue|, part)) {
      KeptOne(queue, part, i);
    }
  }

  // ---------- positions ----------

  ghost predicate IndexOk(queue: seq<Id>, index: map<Id, nat>)
  {
    forall i :: 0 <= i < |queue| ==> queue[i] in index && index[queue[i]] == i
  }

  /** The positions after compaction: a request that moves up gets its new position written, one that
      stays put and one that is collected keep the position they had. */
  ghost function Positions(queue: seq<Id>, hit: seq<bool>, index: map<Id, nat>): map<Id, nat>
    requires |queue| == |hit|
  {
    if queue == [] then index else
      var n := |queue| - 1;
      var before := Positions(queue[..n], hit[..n], index);
      var j := |Rejected(queue[..n], hit[..n])|;
      if hit[n] || n <= j then before else before[queue[n] := j]
  }

  /** Scanning one more element. */
  lemma PositionsStep(queue: seq<Id>, hit: seq<bool>, index: map<Id, nat>, i: nat)
    requires i < |queue| == |hit|
    ensures var before, j := Positions(queue[..i], hit[..i], index), |Rejected(queue[..i], hit[..i])|;
            Positions(queue[..i + 1], hit[..i + 1], index)
            == if hit[i] || i <= j then before else before[queue[i] := j]
  {
    assert queue[..i + 1][..i] == queue[..i] && hit[..i + 1][..i] == hit[..i];
  }

  /** Compaction writes no position of a request that is not in the queue. */
  lemma {:induction false} PositionsElsewhere(queue: seq<Id>, hit: seq<bool>, index: map<Id, nat>, e: Id)
    requires |queue| == |hit| && e !in queue
    ensures e in Positions(queue, hit, index) <==> e in index
    ensures e in index ==> Positions(queue, hit, index)[e] == index[e]
  {
    if queue != [] {
      PositionsElsewhere(queue[..|queue| - 1], hit[..|queue| - 1], index, e);
    }
  }

  /** Compaction writes no position of a collected request either: it keeps its old, stale one. */
  lemma {:induction false} PositionsStale(queue: seq<Id>, hit: seq<bool>, index: map<Id, nat>, i: nat)
    requires |queue| == |hit| && i < |queue| && hit[i] && IndexOk(queue, index)
    ensures queue[i] in Positions(queue, hit, index) && Positions(queue, hit, index)[queue[i]] == i
    decreases |queue|
  {
    var n := |queue| - 1;
    PrefixOk(queue, index, n);
    if i < n {
      PositionsStale(queue[..n], hit[..n], index, i);
      assert index[queue[n]] == n && index[queue[i]] == i;
    } else {
      LastApart(queue, index);
      PositionsElsewhere(queue[..n], hit[..n], index, queue[n]);
    }
  }

  lemma PrefixOk(queue: seq<Id>, index: map<Id, nat>, n: nat)
    requires IndexOk(queue, index) && n <= |queue|
    ensures IndexOk(queue[..n], index)
  {
  }

  lemma LastApart(queue: seq<Id>, index: map<Id, nat>)
    requires IndexOk(queue, index) && queue != []
    ensures queue[|queue| - 1] !in queue[..|queue| - 1]
  {
    var n := |queue| - 1;
    forall i | 0 <= i < n ensures queue[i] != queue[n] {
      assert index[queue[i]] == i;
    }
  }

  lemma {:induction false} RejectedMember<T>(s: seq<T>, hit: seq<bool>, x: T)
    requires |s| == |hit| && x in Rejected(s, hit)
    ensures x in s
  {
    var n := |s| - 1;
    assert s == s[..n] + [s[n]];
    if x in Rejected(s[..n], hit[..n]) {
      RejectedMember(s[..n], hit[..n], x);
    }
  }

  lemma RejectedMembers<T>(s: seq<T>, hit: seq<bool>)
    requires |s| == |hit|
    ensures forall x :: x in Rejected(s, hit) ==> x in s
  {
    forall x | x in Rejected(s, hit) ensures x in s {
      RejectedMember(s, hit, x);
    }
  }

  lemma SwapRemoveMembers<T>(s: seq<T>, i: nat)
    requires i < |s|
    ensures forall x :: x in SwapRemove(s, i) ==> x in s
  {
  }

  /** Where every request knew its position before, every kept one knows its new position after. */
  lemma {:induction false} PositionsRight(queue: seq<Id>, hit: seq<bool>, index: map<Id, nat>)
    requires |queue| == |hit| && IndexOk(queue, index)
    ensures IndexOk(Rejected(queue, hit), Positions(queue, hit, index))
  {
    if queue != [] {
      var n := |queue| - 1;
      PrefixOk(queue, index, n);
      PositionsRight(queue[..n], hit[..n], index);
      KeepOneMore(queue, hit, index);
    }
  }

  lemma KeepOneMore(queue: seq<Id>, hit: seq<bool>, index: map<Id, nat>)
    requires |queue| == |hit| && queue != [] && IndexOk(queue, index)
    requires var n := |queue| - 1; IndexOk(Rejected(queue[..n], hit[..n]), Positions(queue[..n], hit[..n], index))
    ensures IndexOk(Rejected(queue, hit), Positions(queue, hit, index))
  {
    var n := |queue| - 1;
    var kept, before := Rejected(queue[..n], hit[..n]), Positions(queue[..n], hit[..n], index);
    LastApart(queue, index);
    PositionsElsewhere(queue[..n], hit[..n], index, queue[n]);
    PartitionSizes(queue[..n], hit[..n]);
    RejectedMembers(queue[..n], hit[..n]);
    if !hit[n] {
      AppendOk(kept, before, queue[n]);
    }
  }

  lemma AppendOk(kept: seq<Id>, before: map<Id, nat>, e: Id)
    requires IndexOk(kept, before) && e !in kept
    ensures IndexOk(kept + [e], before[e := |kept|])
    ensures e in before && before[e] == |kept| ==> IndexOk(kept + [e], before)
  {
  }

  // ---------- the MPI queue ----------

  /** What a call of `progress` came to: nothing collected, a batch to run, or a write outside `indices`. */
  datatype Outcome = Nothing | Batch | Fault

  /** What a call of `cancel` came to: refused by MPI, an entry removed, or an index outside the queue. */
  datatype CancelOutcome = Refused | Removed | OutOfRange

  datatype Event = Post | Test(report: Report) | EndOfBatch | CancelOf(e: Id, mpiCancelled: bool)

  /** `request_queue` of the MPI backend.  `nulled` are the requests whose handle a failed cancel nulled. */
  class MpiQueue {
    var queue: seq<Id>
    var ready: seq<Id>
    var index: map<Id, nat>
    var inProgress: bool
    var nulled: set<Id>

    /** Every queued request knows its position; in particular none is queued twice. */
    ghost predicate Valid()
      reads this
    {
      IndexOk(queue, index)
    }

    constructor ()
      ensures Valid() && queue == [] && ready == [] && !inProgress && index == map[] && nulled == {}
    {
      queue, ready, index, inProgress, nulled := [], [], map[], false, {};
    }

    method Enqueue(e: Id)
      requires Valid() && e !in queue
      modifies this
      ensures Valid() && queue == old(queue) + [e]
      ensures ready == old(ready) && inProgress == old(inProgress) && nulled == old(nulled)
      ensures index == old(index)[e := |old(queue)|]
    {
      index := index[e := |queue|];
      queue := queue + [e];
    }

    /** The part of `progress` before the callbacks: test, then compact in place.  The test is made only when
        the queue is neither busy nor empty, and `report` is what it gives.  The loop collects the ascending
        prefix of the reported indices; the queue keeps everything else in order.  The call goes wrong exactly
        when the queue holds null handles only. */
    method Collect(report: Report) returns (outcome: Outcome)
      requires Valid() && (!inProgress && queue != [] ==> ReportFor(queue, nulled, report))
      modifies this
      ensures Valid() && nulled == old(nulled)
      ensures outcome == Fault <==> !old(inProgress) && old(queue) != [] && !HasLive(old(queue), nulled)
      ensures outcome == Batch <==> !old(inProgress) && old(queue) != [] && report.Indices? && report.idx != []
      ensures outcome != Batch ==> queue == old(queue) && index == old(index)
      ensures outcome != Batch ==> ready == if old(inProgress) || old(queue) == [] then old(ready) else []
      ensures inProgress == (old(inProgress) || outcome != Nothing)
      ensures outcome == Batch ==>
        var hit := Taken(|old(queue)|, report.idx);
        && ready == Selected(old(queue), hit) && queue == Rejected(old(queue), hit)
        && index == Positions(old(queue), hit, old(index))
        && (|ready| == |report.idx| <==> Ascending(report.idx))
      ensures outcome == Batch ==>
        && IsAscendingPrefix(report.idx, |ready|)
        && (forall k | 0 <= k < |ready| :: ready[k] == old(queue)[report.idx[k]])
        && (forall i | 0 <= i < |old(queue)| && i !in report.idx[..|ready|] :: old(queue)[i] in queue)
    {
      if inProgress { return Nothing; }
      inProgress := true;
      var qs := |queue|;
      if qs == 0 {
        inProgress := false;
        return Nothing;
      }
      ready := [];
      if report.Undefined? { return Fault; }
      var idx := report.idx;
      if |idx| == 0 {
        inProgress := false;
        return Nothing;
      }
      ghost var m := AscendingPrefix(idx);
      ghost var q0 := queue;
      Compact(idx, m, Marks(qs, idx[..m]));
      PrefixFullIffAscending(idx);
      TakenAsReported(q0, idx, m);
      outcome := Batch;
    }

    /** The scan over `m_queue`: `k` runs through the reported indices, closed off by a sentinel,
        and `j` is the next free position. */
    method Compact(idx: seq<nat>, ghost m: nat, ghost hit: seq<bool>)
      requires Valid() && Distinct(|queue|, idx) && ready == []
      requires IsAscendingPrefix(idx, m) && hit == Marks(|queue|, idx[..m])
      modifies `queue, `ready, `index
      ensures Valid() && |ready| == m
      ensures ready == Selected(old(queue), hit) && queue == Rejected(old(queue), hit)
      ensures index == Positions(old(queue), hit, old(index))
    {
      var qs := |queue|;
      var indices := idx + [qs];
      ghost var q0, index0 := queue, index;
      ScanStart(q0, idx, m, hit, index0);
      var k, j := 0, 0;
      for i := 0 to qs
        invariant Scanned(q0, idx, m, hit, queue, ready, i, k, j) && Placed(q0, hit, index0, index, i)
      {
        var e := queue[i];
        if i == indices[k] {
          ScanHit(q0, idx, m, hit, queue, ready, i, k, j);
          PlaceHit(q0, idx, m, hit, queue, ready, index0, index, i, k, j);
          ready := ready + [e];
          k := k + 1;
        } else if i > j {
          ScanMove(q0, idx, m, hit, queue, ready, i, k, j);
          PlaceMove(q0, idx, m, hit, queue, ready, index0, index, i, k, j);
          index := index[e := j];
          queue := queue[j := e];
          j := j + 1;
        } else {
          ScanKeep(q0, idx, m, hit, queue, ready, i, k, j);
          PlaceKeep(q0, idx, m, hit, queue, ready, index0, index, i, k, j);
          j := j + 1;
        }
      }
      ScanEnd(q0, idx, m, hit, queue, ready, k, j);
      PlaceEnd(q0, hit, index0, index);
      queue := queue[..|queue| - |ready|];
    }

    /** The end of `progress`, after the callbacks of the batch. */
    method EndBatch()
      requires Valid() && inProgress
      modifies `inProgress
      ensures Valid() && !inProgress
    {
      inProgress := false;
    }

    /** Cancel a request that was enqueued at some time; `mpiCancelled` is the verdict on the entry at the position
        the request remembers.  The entry removed is the request's own exactly when the request is still queued. */
    method Cancel(e: Id, mpiCancelled: bool) returns (outcome: CancelOutcome)
      requires Valid() && e in index && (mpiCancelled && index[e] < |queue| ==> queue[index[e]] !in nulled)
      modifies this
      ensures Valid() && ready == old(ready) && inProgress == old(inProgress)
      ensures outcome == OutOfRange <==> old(index)[e] >= |old(queue)|
      ensures outcome == Removed <==> mpiCancelled && old(index)[e] < |old(queue)|
      ensures outcome != Removed ==> queue == old(queue) && index == old(index)
      ensures outcome == Removed ==> queue == SwapRemove(old(queue), old(index)[e])
      ensures outcome == Removed ==> index == IndexAfterCancel(old(queue), old(index), e)
      ensures outcome == Removed ==>
        (multiset(old(queue)) == multiset(queue) + multiset{e} <==> e in old(queue))
      ensures nulled == if outcome == Refused then old(nulled) + {old(queue)[old(index)[e]]} else old(nulled)
      ensures forall x | x in old(index) :: x in index
    {
      var i := index[e];
      if i >= |queue| { return OutOfRange; }
      if mpiCancelled {
        CancelExact(queue, index, e);
        if i + 1 < |queue| {
          queue := queue[i := queue[|queue| - 1]];
          index := index[queue[i] := i];
        }
        queue := queue[..|queue| - 1];
        outcome := Removed;
      } else {
        nulled := nulled + {queue[i]};
        outcome := Refused;
      }
    }

    /** The queue as a value, with the number of requests posted so far and whether a call went wrong. */
    ghost function Now(posted: nat, faulted: bool): Snapshot
      reads this
    {
      Snapshot(queue, ready, index, inProgress, nulled, posted, faulted)
    }

    /** One event, as `After` has it. */
    method Do(event: Event, posted: nat) returns (faulted: bool, posted': nat)
      requires Valid() && (forall e | e in queue :: e < posted)
      modifies this
      ensures Valid() && (forall e | e in queue :: e < posted')
      ensures Now(posted', faulted) == After(old(Now(posted, false)), event)
    {
      faulted, posted' := false, posted;
      ghost var before := queue;
      match event
      case Post =>
        Enqueue(posted);
        posted' := posted + 1;
      case Test(report) =>
        if !inProgress && queue != [] && ReportFor(queue, nulled, report) {
          var outcome := Collect(report);
          faulted := outcome == Fault;
          if outcome == Batch { RejectedMembers(before, Taken(|before|, report.idx)); }
        }
      case EndOfBatch => if inProgress { EndBatch(); }
      case CancelOf(e, mpiCancelled) =>
        if e in index && (mpiCancelled && index[e] < |queue| ==> queue[index[e]] !in nulled) {
          ghost var i := index[e];
          var outcome := Cancel(e, mpiCancelled);
          faulted := outcome == OutOfRange;
          if outcome == Removed { SwapRemoveMembers(before, i); }
        }
    }

    /** Any sequence of posts, progress calls, ends of batches and cancels, up to the first fault: the queue goes
        through exactly the states of `AfterAll`, and every queued request knows its position throughout.  Requests
        are numbered as they are posted; events that are not possible are skipped. */
    method Drive(events: seq<Event>) returns (faulted: bool, posted: nat)
      requires Valid() && queue == [] && index == map[]
      modifies this
      ensures Valid() && (forall e | e in queue :: e < posted)
      ensures forall i | 0 <= i < |queue| :: queue[i] in index && index[queue[i]] == i
      ensures Now(posted, faulted) == AfterAll(old(Now(0, false)), events)
    {
      faulted, posted := false, 0;
      for k := 0 to |events|
        invariant Valid() && (forall e | e in queue :: e < posted)
        invariant Now(posted, faulted) == AfterAll(old(Now(0, false)), events[..k])
      {
        assert events[..k + 1][..k] == events[..k];
        if !faulted { faulted, posted := Do(events[k], posted); }
      }
      assert events[..|events|] == events;
    }
  }

  datatype Snapshot = Snapshot(
    queue: seq<Id>, ready: seq<Id>, index: map<Id, nat>, inProgress: bool, nulled: set<Id>, posted: nat, faulted: bool)

  /** What a test that is made does to the queue. */
  ghost function AfterTest(s: Snapshot, report: Report): Snapshot
  {
    match report
    case Undefined => s.(ready := [], inProgress := true, faulted := true)
    case Indices(idx) =>
      var hit := Taken(|s.queue|, idx);
      if idx == [] then s.(ready := []) else
      s.(queue := Rejected(s.queue, hit), ready := Selected(s.queue, hit), index := Positions(s.queue, hit, s.index),
         inProgress := true)
  }

  ghost function AfterCancelOf(s: Snapshot, e: Id, mpiCancelled: bool): Snapshot
    requires e in s.index
  {
    var i := s.index[e];
    if i >= |s.queue| then s.(faulted := true)
    else if !mpiCancelled then s.(nulled := s.nulled + {s.queue[i]})
    else if s.queue[i] in s.nulled then s
    else s.(queue := SwapRemove(s.queue, i), index := IndexAfterCancel(s.queue, s.index, e))
  }

  ghost function After(s: Snapshot, event: Event): Snapshot
  {
    if s.faulted then s else
      match event
      case Post => s.(queue := s.queue + [s.posted], index := s.index[s.posted := |s.queue|], posted := s.posted + 1)
      case Test(report) =>
        if s.inProgress || s.queue == [] || !ReportFor(s.queue, s.nulled, report) then s else AfterTest(s, report)
      case EndOfBatch => s.(inProgress := false)
      case CancelOf(e, mpiCancelled) => if e in s.index then AfterCancelOf(s, e, mpiCancelled) else s
  }

  ghost function AfterAll(s: Snapshot, events: seq<Event>): Snapshot
  {
    if events == [] then s else
      var n := |events| - 1;
      After(AfterAll(s, events[..n]), events[n])
  }

  /** The state of the scan before element `i`: the first `i` elements are split, the split-off
      remainder fills the first `j` positions, everything from `i` on is untouched. */
  ghost predicate Scanned(q0: seq<Id>, idx: seq<nat>, m: nat, hit: seq<bool>, queue: seq<Id>, ready: seq<Id>,
                          i: nat, k: nat, j: nat)
  {
    && IsAscendingPrefix(idx, m) && hit == Marks(|q0|, idx[..m])
    && i <= |q0| == |queue| && k <= m && j + k == i && |ready| == k
    && (forall x :: 0 <= x < k ==> idx[x] < i)
    && (forall x :: k <= x < m ==> idx[x] >= i)
    && ready == Selected(q0[..i], hit[..i])
    && queue[..j] == Rejected(q0[..i], hit[..i])
    && queue[i..] == q0[i..]
  }

  /** The scan position meets the next reported index exactly at the marked positions. */
  lemma MarkIsNext(idx: seq<nat>, m: nat, i: nat, k: nat, qs: nat)
    requires Distinct(qs, idx) && IsAscendingPrefix(idx, m) && i < qs && k <= m
    requires forall x :: 0 <= x < k ==> idx[x] < i
    requires forall x :: k <= x < m ==> idx[x] >= i
    ensures k < |idx| && i == idx[k] ==> k < m
    ensures Marks(qs, idx[..m])[i] <==> (idx + [qs])[k] == i
    ensures k < m ==> forall x :: k < x < m ==> idx[x] > idx[k]
  {
    if k == m < |idx| { assert idx[m] <= idx[m - 1]; }
    assert forall x :: 0 <= x < m ==> idx[..m][x] == idx[x];
  }

  /** What every branch of the loop body needs about element `i`. */
  lemma ScanNext(q0: seq<Id>, idx: seq<nat>, m: nat, hit: seq<bool>, queue: seq<Id>, ready: seq<Id>,
                 i: nat, k: nat, j: nat)
    requires Scanned(q0, idx, m, hit, queue, ready, i, k, j) && Distinct(|q0|, idx) && i < |q0|
    ensures queue[i] == q0[i] && queue[i + 1..] == q0[i + 1..]
    ensures Selected(q0[..i + 1], hit[..i + 1]) == ready + (if hit[i] then [q0[i]] else [])
    ensures Rejected(q0[..i + 1], hit[..i + 1]) == queue[..j] + (if hit[i] then [] else [q0[i]])
    ensures hit[i] <==> (idx + [|q0|])[k] == i
    ensures |Rejected(q0[..i], hit[..i])| == j
  {
    PartitionStep(q0, hit, i);
    MarkIsNext(idx, m, i, k, |q0|);
    assert queue[i] == queue[i..][0] == q0[i];
    assert queue[i + 1..] == queue[i..][1..] == q0[i + 1..];
  }

  lemma ScanHit(q0: seq<Id>, idx: seq<nat>, m: nat, hit: seq<bool>, queue: seq<Id>, ready: seq<Id>,
                i: nat, k: nat, j: nat)
    requires Scanned(q0, idx, m, hit, queue, ready, i, k, j) && Distinct(|q0|, idx) && i < |q0|
    requires (idx + [|q0|])[k] == i
    ensures Scanned(q0, idx, m, hit, queue, ready + [queue[i]], i + 1, k + 1, j)
  {
    ScanNext(q0, idx, m, hit, queue, ready, i, k, j);
    MarkIsNext(idx, m, i, k, |q0|);
  }

  lemma ScanMove(q0: seq<Id>, idx: seq<nat>, m: nat, hit: seq<bool>, queue: seq<Id>, ready: seq<Id>,
                 i: nat, k: nat, j: nat)
    requires Scanned(q0, idx, m, hit, queue, ready, i, k, j) && Distinct(|q0|, idx) && i < |q0|
    requires (idx + [|q0|])[k] != i && i > j
    ensures Scanned(q0, idx, m, hit, queue[j := queue[i]], ready, i + 1, k, j + 1)
  {
    ScanNext(q0, idx, m, hit, queue, ready, i, k, j);
    MarkIsNext(idx, m, i, k, |q0|);
    TailKept(q0, queue, i, j);
  }

  lemma ScanKeep(q0: seq<Id>, idx: seq<nat>, m: nat, hit: seq<bool>, queue: seq<Id>, ready: seq<Id>,
                 i: nat, k: nat, j: nat)
    requires Scanned(q0, idx, m, hit, queue, ready, i, k, j) && Distinct(|q0|, idx) && i < |q0|
    requires (idx + [|q0|])[k] != i && i <= j
    ensures Scanned(q0, idx, m, hit, queue, ready, i + 1, k, j + 1)
  {
    ScanNext(q0, idx, m, hit, queue, ready, i, k, j);
    MarkIsNext(idx, m, i, k, |q0|);
    TailKept(q0, queue, i, j);
  }

  /** The positions after the first `i` elements. */
  ghost predicate Placed(q0: seq<Id>, hit: seq<bool>, index0: map<Id, nat>, index: map<Id, nat>, i: nat)
  {
    i <= |q0| == |hit| && index == Positions(q0[..i], hit[..i], index0)
  }

  lemma PlaceHit(q0: seq<Id>, idx: seq<nat>, m: nat, hit: seq<bool>, queue: seq<Id>, ready: seq<Id>,
                 index0: map<Id, nat>, index: map<Id, nat>, i: nat, k: nat, j: nat)
    requires Scanned(q0, idx, m, hit, queue, ready, i, k, j) && Distinct(|q0|, idx) && i < |q0|
    requires Placed(q0, hit, index0, index, i) && (idx + [|q0|])[k] == i
    ensures Placed(q0, hit, index0, index, i + 1)
  {
    ScanNext(q0, idx, m, hit, queue, ready, i, k, j);
    PositionsStep(q0, hit, index0, i);
  }

  lemma PlaceMove(q0: seq<Id>, idx: seq<nat>, m: nat, hit: seq<bool>, queue: seq<Id>, ready: seq<Id>,
                  index0: map<Id, nat>, index: map<Id, nat>, i: nat, k: nat, j: nat)
    requires Scanned(q0, idx, m, hit, queue, ready, i, k, j) && Distinct(|q0|, idx) && i < |q0|
    requires Placed(q0, hit, index0, index, i) && (idx + [|q0|])[k] != i && i > j
    ensures Placed(q0, hit, index0, index[queue[i] := j], i + 1)
  {
    ScanNext(q0, idx, m, hit, queue, ready, i, k, j);
    PositionsStep(q0, hit, index0, i);
  }

  lemma PlaceKeep(q0: seq<Id>, idx: seq<nat>, m: nat, hit: seq<bool>, queue: seq<Id>, ready: seq<Id>,
                  index0: map<Id, nat>, index: map<Id, nat>, i: nat, k: nat, j: nat)
    requires Scanned(q0, idx, m, hit, queue, ready, i, k, j) && Distinct(|q0|, idx) && i < |q0|
    requires Placed(q0, hit, index0, index, i) && (idx + [|q0|])[k] != i && i <= j
    ensures Placed(q0, hit, index0, index, i + 1)
  {
    ScanNext(q0, idx, m, hit, queue, ready, i, k, j);
    PositionsStep(q0, hit, index0, i);
  }

  lemma PlaceEnd(q0: seq<Id>, hit: seq<bool>, index0: map<Id, nat>, index: map<Id, nat>)
    requires Placed(q0, hit, index0, index, |q0|) && IndexOk(q0, index0)
    ensures index == Positions(q0, hit, index0) && IndexOk(Rejected(q0, hit), index)
  {
    assert q0[..|q0|] == q0 && hit[..|q0|] == hit;
    PositionsRight(q0, hit, index0);
  }

  lemma ScanStart(q0: seq<Id>, idx: seq<nat>, m: nat, hit: seq<bool>, index: map<Id, nat>)
    requires IsAscendingPrefix(idx, m) && hit == Marks(|q0|, idx[..m]) && IndexOk(q0, index)
    ensures Scanned(q0, idx, m, hit, q0, [], 0, 0, 0) && Placed(q0, hit, index, index, 0)
  {
  }

  lemma ScanEnd(q0: seq<Id>, idx: seq<nat>, m: nat, hit: seq<bool>, queue: seq<Id>, ready: seq<Id>, k: nat, j: nat)
    requires Scanned(q0, idx, m, hit, queue, ready, |q0|, k, j) && Distinct(|q0|, idx)
    ensures k == m == |ready|
    ensures ready == Selected(q0, hit)
    ensures queue[..|queue| - |ready|] == Rejected(q0, hit)
  {
    var next := if k < |idx| then idx[k] else |q0|;
    assert q0[..|q0|] == q0;
    assert hit[..|q0|] == hit;
  }

  /** Moving element `i` up to position `j` adds it to the kept part and leaves the rest of the scan untouched. */
  lemma TailKept(q0: seq<Id>, queue: seq<Id>, i: nat, j: nat)
    requires j <= i < |q0| == |queue| && queue[i..] == q0[i..]
    ensures queue[i] == q0[i] && queue[i + 1..] == q0[i + 1..]
    ensures queue[j := queue[i]][i + 1..] == q0[i + 1..]
    ensures queue[j := queue[i]][..j + 1] == queue[..j] + [q0[i]]
    ensures i == j ==> queue[j := queue[i]] == queue
  {
    assert queue[i] == queue[i..][0] == q0[i];
    assert queue[i + 1..] == queue[i..][1..] == q0[i + 1..];
  }

  /** Reported out of order, a completed request is left in the queue: of two requests reported as 1 and 0, only the
      second is collected. */
  lemma OutOfOrderLosesOne()
    ensures var queue := [8, 9];
            && ReportFor(queue, {}, Indices([1, 0]))
            && Selected(queue, Taken(2, [1, 0])) == [9] && Rejected(queue, Taken(2, [1, 0])) == [8]
  {
    var queue := [8, 9];
    assert 8 in queue;
    var hit := Taken(2, [1, 0]);
    assert AscendingPrefix([1, 0]) == 1 && [1, 0][..1] == [1];
    assert hit == [false, true];
    PartitionStep(queue, hit, 0);
    PartitionStep(queue, hit, 1);
    assert queue[..2] == queue && hit[..2] == hit && queue[..0] == [] && hit[..0] == [];
  }

  // ---------- when cancel hits the wrong request ----------

  /** What a successful `cancel(e)` leaves in the queue, whatever `e` is: it removes the entry at
      the position `e` remembers. */
  ghost function AfterCancel(queue: seq<Id>, index: map<Id, nat>, e: Id): seq<Id>
    requires e in index && index[e] < |queue|
  {
    SwapRemove(queue, index[e])
  }

  /** The positions after a successful `cancel(e)`: the last entry, when it fills the gap, gets its new one. */
  ghost function IndexAfterCancel(queue: seq<Id>, index: map<Id, nat>, e: Id): map<Id, nat>
    requires e in index && index[e] < |queue|
  {
    if index[e] + 1 < |queue| then index[queue[|queue| - 1] := index[e]] else index
  }

  /** `cancel(e)` finds an entry at the remembered position and removes `e` and nothing else exactly when `e` is
      still queued.  A request that has moved to the ready batch is not ready yet either, so `recv_request::cancel`
      lets it through. */
  lemma CancelExact(queue: seq<Id>, index: map<Id, nat>, e: Id)
    requires IndexOk(queue, index) && e in index
    ensures (index[e] < |queue| && multiset(queue) == multiset(AfterCancel(queue, index, e)) + multiset{e})
            <==> e in queue
  {
    if index[e] < |queue| {
      SwapRemoveConserves(queue, index[e]);
      if e !in queue {
        assert multiset(queue)[e] == 0;
      }
    }
  }

  // ---------- the NCCL queue ----------

  /** `request_queue` of the NCCL backend: the same partition, driven by polling each request. */
  class NcclQueue {
    var queue: seq<Id>
    var ready: seq<Id>
    var inProgress: bool

    constructor ()
      ensures queue == [] && ready == [] && !inProgress
    {
      queue, ready, inProgress := [], [], false;
    }

    method Enqueue(e: Id)
      modifies this
      ensures queue == old(queue) + [e] && ready == old(ready) && inProgress == old(inProgress)
    {
      queue := queue + [e];
    }

    /** The end of `progress`, after the callbacks of the batch. */
    method EndBatch()
      requires inProgress
      modifies `inProgress
      ensures !inProgress
    {
      inProgress := false;
    }

    /** The compaction of `progress`; `done[i]` is the poll result of the i-th request. */
    method Collect(done: seq<bool>) returns (taken: bool)
      requires |done| == |queue|
      modifies this
      ensures taken <==> !old(inProgress) && old(queue) != []
      ensures !taken ==> queue == old(queue) && ready == old(ready) && inProgress == old(inProgress)
      ensures taken ==> inProgress && ready == Selected(old(queue), done) && queue == Rejected(old(queue), done)
    {
      if inProgress { return false; }
      inProgress := true;
      var qs := |queue|;
      if qs == 0 {
        inProgress := false;
        return false;
      }
      ready := [];
      ghost var q0 := queue;
      var numNotReady := 0;
      for i := 0 to qs
        invariant numNotReady <= i && |queue| == qs
        invariant ready == Selected(q0[..i], done[..i])
        invariant queue[..numNotReady] == Rejected(q0[..i], done[..i])
        invariant queue[i..] == q0[i..]
        invariant inProgress
      {
        var req := queue[i];
        TailKept(q0, queue, i, numNotReady);
        PartitionStep(q0, done, i);
        if done[i] {
          ready := ready + [req];
        } else {
          if numNotReady != i {
            queue := queue[numNotReady := req];
          }
          numNotReady := numNotReady + 1;
        }
      }
      assert q0[..qs] == q0 && done[..qs] == done;
      queue := queue[..numNotReady];
      taken := true;
    }
  }
}
