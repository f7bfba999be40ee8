/**
 The consecutive-ack rule: a checkpoint advances only through the longest run of
 acknowledged batches counted from the oldest one still tracked.
 */
module BatchTracking {
  import opened Common

  datatype BatchStatus = Pending | Acked | Failed

  datatype TrackedBatch = TrackedBatch(
    sequence: nat,
    startOffset: nat,
    endOffset: nat,
    inode: nat,
    bufferFirst: nat,
    bufferLast: nat,
    status: BatchStatus)

  datatype SafeCheckpoint = SafeCheckpoint(offset: nat, inode: nat, ackedBufferSequences: seq<nat>)

  /** The tracker's value: the ordered map's entries in key order, and the next key. */
  datatype Tracker = Tracker(batches: seq<TrackedBatch>, nextSequence: nat)

  const EmptyTracker := Tracker([], 1)

  /** Keys are positive, strictly increasing and below the next key to hand out. */
  ghost predicate WellFormed(t: Tracker) {
    && 1 <= t.nextSequence
    && (forall i :: 0 <= i < |t.batches| ==> 1 <= t.batches[i].sequence < t.nextSequence)
    && (forall i, j :: 0 <= i < j < |t.batches| ==> t.batches[i].sequence < t.batches[j].sequence)
  }

  function Tracked(t: Tracker, start: nat, end: nat, inode: nat, first: nat, last: nat): (r: Tracker) {
    Tracker(t.batches + [TrackedBatch(t.nextSequence, start, end, inode, first, last, Pending)], t.nextSequence + 1)
  }

  /** Set the status stored under `key`; an unknown key changes nothing. */
  function WithStatus(batches: seq<TrackedBatch>, key: nat, status: BatchStatus): (r: seq<TrackedBatch>)
    ensures |r| == |batches|
    ensures forall i :: 0 <= i < |r| ==>
              r[i] == if batches[i].sequence == key then batches[i].(status := status) else batches[i]
  {
    seq(|batches|, i requires 0 <= i < |batches| =>
      if batches[i].sequence == key then batches[i].(status := status) else batches[i])
  }

  /** Length of the longest prefix in which every batch is acked. */
  function AckedPrefix(batches: seq<TrackedBatch>): (n: nat)
    ensures n <= |batches|
    ensures forall i :: 0 <= i < n ==> batches[i].status == Acked
    ensures n < |batches| ==> batches[n].status != Acked
  {
    if batches == [] || batches[0].status != Acked then 0 else 1 + AckedPrefix(batches[1..])
  }

  /** The buffer sequences `first..=last` of one batch. */
  function BufferRange(b: TrackedBatch): (r: seq<nat>)
    ensures |r| == if b.bufferFirst <= b.bufferLast then b.bufferLast - b.bufferFirst + 1 else 0
    ensures forall i :: 0 <= i < |r| ==> r[i] == b.bufferFirst + i
  {
    if b.bufferFirst <= b.bufferLast then
      seq(b.bufferLast - b.bufferFirst + 1, i requires 0 <= i => b.bufferFirst + i)
    else []
  }

  function BufferRanges(batches: seq<TrackedBatch>): seq<nat> {
    if batches == [] then []
    else BufferRanges(batches[..|batches| - 1]) + BufferRange(batches[|batches| - 1])
  }

  /** What the consecutive-ack rule allows to be checkpointed. */
  function Safe(t: Tracker): (r: Option<SafeCheckpoint>)
    ensures r.Some? <==> t.batches != [] && t.batches[0].status == Acked
  {
    var n := AckedPrefix(t.batches);
    if n == 0 then None
    else
      var last := t.batches[n - 1];
      Some(SafeCheckpoint(last.endOffset, last.inode, BufferRanges(t.batches[..n])))
  }

  function Drained(t: Tracker): Tracker {
    t.(batches := t.batches[AckedPrefix(t.batches)..])
  }

  /** Index of the oldest pending batch, or the number of batches when none is pending. */
  function OldestPending(batches: seq<TrackedBatch>): (n: nat)
    ensures n <= |batches|
    ensures forall i :: 0 <= i < n ==> batches[i].status != Pending
    ensures n < |batches| ==> batches[n].status == Pending
  {
    if batches == [] || batches[0].status == Pending then 0 else 1 + OldestPending(batches[1..])
  }

  /** Acknowledge the oldest pending batch, if any. */
  function AckOldest(t: Tracker): Tracker {
    var n := OldestPending(t.batches);
    if n == |t.batches| then t
    else t.(batches := WithStatus(t.batches, t.batches[n].sequence, Acked))
  }

  function AckOldestTimes(t: Tracker, times: nat): Tracker
    decreases times
  {
    if times == 0 then t else AckOldestTimes(AckOldest(t), times - 1)
  }

  /** The batches no ack has reached yet, in key order. */
  function PendingOf(batches: seq<TrackedBatch>): (r: seq<TrackedBatch>)
    ensures forall i :: 0 <= i < |r| ==> r[i].status == Pending && r[i] in batches
  {
    if batches == [] then []
    else (if batches[0].status == Pending then [batches[0]] else []) + PendingOf(batches[1..])
  }

  /** The batch tracker object. */
  class BatchTracker {
    var batches: seq<TrackedBatch>
    var nextSequence: nat

    ghost function Model(): Tracker
      reads this
    {
      Tracker(batches, nextSequence)
    }

    ghost predicate Valid()
      reads this
    {
      WellFormed(Model())
    }

    constructor ()
      ensures Valid() && Model() == EmptyTracker
    {
      batches := [];
      nextSequence := 1;
    }

    /** Appending is the ordered map's insert: the new key exceeds every key present. */
    method Track(start: nat, end: nat, inode: nat, first: nat, last: nat) returns (key: nat)
      requires Valid()
      modifies this
      ensures Valid() && key == old(nextSequence)
      ensures Model() == Tracked(old(Model()), start, end, inode, first, last)
    {
      key := nextSequence;
      nextSequence := nextSequence + 1;
      batches := batches + [TrackedBatch(key, start, end, inode, first, last, Pending)];
    }

    /** The safe prefix grows if the batch is the one that ends it, and stays as it is otherwise. */
    method Ack(key: nat)
      requires Valid()
      modifies this`batches
      ensures Valid()
      ensures batches == WithStatus(old(batches), key, Acked)
      ensures
        var n := AckedPrefix(old(batches));
        if n < |batches| && batches[n].sequence == key then AckedPrefix(batches) > n else AckedPrefix(batches) == n
    {
      AckMovesPrefix(Model(), key);
      batches := WithStatus(batches, key, Acked);
    }

    /** The safe prefix ends at the failed batch if it was in it, and stays as it is otherwise. */
    method Fail(key: nat)
      requires Valid()
      modifies this`batches
      ensures Valid()
      ensures batches == WithStatus(old(batches), key, Failed)
      ensures AckedPrefix(batches) <= AckedPrefix(old(batches))
      ensures
        var m, n := AckedPrefix(batches), AckedPrefix(old(batches));
        m < n <==> exists i :: 0 <= i < n && batches[i].sequence == key
      ensures
        var m := AckedPrefix(batches);
        m < AckedPrefix(old(batches)) ==> batches[m].sequence == key
    {
      FailCutsPrefix(Model(), key);
      batches := WithStatus(batches, key, Failed);
    }

    method ComputeSafeCheckpoint() returns (r: Option<SafeCheckpoint>)
      requires Valid()
      ensures r == Safe(Model())
    {
      r := None;
      var i := 0;
      while i < |batches| && batches[i].status == Acked
        invariant 0 <= i <= |batches|
        invariant forall j :: 0 <= j < i ==> batches[j].status == Acked
        invariant r.None? <==> i == 0
        invariant i > 0 ==> r == Some(SafeCheckpoint(batches[i - 1].endOffset, batches[i - 1].inode,
          BufferRanges(batches[..i])))
      {
        var earlier := if r.Some? then r.value.ackedBufferSequences else [];
        assert batches[..i + 1][..i] == batches[..i];
        r := Some(SafeCheckpoint(batches[i].endOffset, batches[i].inode, earlier + BufferRange(batches[i])));
        i := i + 1;
      }
      AckedPrefixIs(batches, i);
    }

    method DrainAcked() returns (drained: nat)
      requires Valid()
      modifies this`batches
      ensures Valid()
      ensures drained == AckedPrefix(old(batches))
      ensures Model() == Drained(old(Model()))
    {
      ghost var before := batches;
      drained := 0;
      while batches != [] && batches[0].status == Acked
        invariant drained <= |before| && batches == before[drained..]
        invariant forall j :: 0 <= j < drained ==> before[j].status == Acked
        invariant Valid()
        decreases |batches|
      {
        batches := batches[1..];
        drained := drained + 1;
      }
      AckedPrefixIs(before, drained);
    }

    method OldestPendingSequence() returns (r: Option<nat>)
      requires Valid()
      ensures r == if OldestPending(batches) == |batches| then None
                   else Some(batches[OldestPending(batches)].sequence)
    {
      var i := 0;
      while i < |batches| && batches[i].status != Pending
        invariant 0 <= i <= |batches|
        invariant forall j :: 0 <= j < i ==> batches[j].status != Pending
      {
        i := i + 1;
      }
      OldestPendingIs(batches, i);
      r := if i == |batches| then None else Some(batches[i].sequence);
    }

    /** Acknowledge as many of the oldest pending batches as entries were handled. */
    method AckHandled(handled: nat)
      requires Valid()
      modifies this`batches
      ensures Valid() && Model() == AckOldestTimes(old(Model()), handled)
    {
      ghost var start := Model();
      var i := 0;
      while i < handled
        invariant 0 <= i <= handled && Valid()
        invariant AckOldestTimes(Model(), handled - i) == AckOldestTimes(start, handled)
      {
        var oldest := OldestPendingSequence();
        if oldest.Some? {
          Ack(oldest.value);
        }
        i := i + 1;
      }
    }
  }

  /** An all-acked prefix followed by something else is the longest one. */
  lemma {:induction false} AckedPrefixIs(batches: seq<TrackedBatch>, n: nat)
    requires n <= |batches|
    requires forall i :: 0 <= i < n ==> batches[i].status == Acked
    requires n < |batches| ==> batches[n].status != Acked
    ensures AckedPrefix(batches) == n
  {
    if n > 0 {
      AckedPrefixIs(batches[1..], n - 1);
    }
  }

  lemma {:induction false} AckMovesPrefix(t: Tracker, key: nat)
    requires WellFormed(t)
    ensures
      var acked, n := WithStatus(t.batches, key, Acked), AckedPrefix(t.batches);
      if n < |t.batches| && t.batches[n].sequence == key then AckedPrefix(acked) > n else AckedPrefix(acked) == n
  {
    var acked, n := WithStatus(t.batches, key, Acked), AckedPrefix(t.batches);
    if n < |t.batches| && t.batches[n].sequence == key {
      assert forall i :: 0 <= i <= n ==> acked[i].status == Acked;
    } else {
      AckedPrefixIs(acked, n);
    }
  }

  lemma {:induction false} FailCutsPrefix(t: Tracker, key: nat)
    requires WellFormed(t)
    ensures
      var failed, n := WithStatus(t.batches, key, Failed), AckedPrefix(t.batches);
      var m := AckedPrefix(failed);
      && m <= n && (m < n <==> exists i :: 0 <= i < n && failed[i].sequence == key)
      && (m < n ==> failed[m].sequence == key)
  {
    var failed, n := WithStatus(t.batches, key, Failed), AckedPrefix(t.batches);
    if i :| 0 <= i < n && t.batches[i].sequence == key {
      assert failed[i].sequence == key;
      AckedPrefixIs(failed, i);
    } else {
      AckedPrefixIs(failed, n);
    }
  }

  lemma {:induction false} OldestPendingIs(batches: seq<TrackedBatch>, n: nat)
    requires n <= |batches|
    requires forall i :: 0 <= i < n ==> batches[i].status != Pending
    requires n < |batches| ==> batches[n].status == Pending
    ensures OldestPending(batches) == n
  {
    if n > 0 {
      OldestPendingIs(batches[1..], n - 1);
    }
  }

  // ---------------------------------------------------------------- whole runs

  datatype TrackerOp =
    | TrackOp(start: nat, end: nat, inode: nat, first: nat, last: nat)
    | AckOp(key: nat)
    | FailOp(key: nat)
    | DrainOp

  /** A tracker together with everything it was ever given and everything it let go. */
  datatype History = History(tracker: Tracker, drained: seq<TrackedBatch>, everTracked: seq<TrackedBatch>)

  const NewHistory := History(EmptyTracker, [], [])

  function Apply(h: History, op: TrackerOp): History {
    match op
    case TrackOp(start, end, inode, first, last) =>
      var t := Tracked(h.tracker, start, end, inode, first, last);
      h.(tracker := t, everTracked := h.everTracked + [t.batches[|t.batches| - 1]])
    case AckOp(key) => h.(tracker := h.tracker.(batches := WithStatus(h.tracker.batches, key, Acked)))
    case FailOp(key) => h.(tracker := h.tracker.(batches := WithStatus(h.tracker.batches, key, Failed)))
    case DrainOp =>
      var n := AckedPrefix(h.tracker.batches);
      h.(tracker := Drained(h.tracker), drained := h.drained + h.tracker.batches[..n])
  }

  function ApplyAll(h: History, ops: seq<TrackerOp>): History {
    if ops == [] then h else Apply(ApplyAll(h, ops[..|ops| - 1]), ops[|ops| - 1])
  }

  /** Everything about a batch but its delivery status. */
  function Identity(b: TrackedBatch): TrackedBatch {
    b.(status := Pending)
  }

  /** `released` and `live`, put end to end, are `all` up to delivery status. */
  ghost predicate Partition(released: seq<TrackedBatch>, live: seq<TrackedBatch>, all: seq<TrackedBatch>) {
    && |released| + |live| == |all|
    && (forall i :: 0 <= i < |released| ==> Identity(released[i]) == all[i])
    && (forall i :: 0 <= i < |live| ==> Identity(live[i]) == all[|released| + i])
  }

  ghost predicate Consistent(h: History) {
    && Partition(h.drained, h.tracker.batches, h.everTracked)
    && h.tracker.nextSequence == |h.everTracked| + 1
    && (forall i :: 0 <= i < |h.everTracked| ==>
          h.everTracked[i].sequence == i + 1 && h.everTracked[i].status == Pending)
    && (forall i :: 0 <= i < |h.drained| ==> h.drained[i].status == Acked)
  }

  lemma {:induction false} TrackKeepsConsistent(h: History, op: TrackerOp)
    requires Consistent(h) && op.TrackOp?
    ensures Consistent(Apply(h, op))
  {
    var r := Apply(h, op);
    forall i | 0 <= i < |r.tracker.batches|
      ensures Identity(r.tracker.batches[i]) == r.everTracked[|r.drained| + i]
    {
      if i < |h.tracker.batches| {
        assert Identity(h.tracker.batches[i]) == h.everTracked[|h.drained| + i];
      }
    }
  }

  lemma {:induction false} StatusKeepsConsistent(h: History, key: nat, status: BatchStatus)
    requires Consistent(h)
    ensures Consistent(h.(tracker := h.tracker.(batches := WithStatus(h.tracker.batches, key, status))))
  {
    var after := WithStatus(h.tracker.batches, key, status);
    forall i | 0 <= i < |after|
      ensures Identity(after[i]) == h.everTracked[|h.drained| + i]
    {
      assert Identity(h.tracker.batches[i]) == h.everTracked[|h.drained| + i];
    }
  }

  lemma {:induction false} DrainKeepsConsistent(h: History)
    requires Consistent(h)
    ensures Consistent(Apply(h, DrainOp))
  {
    hide AckedPrefix;
    var r := Apply(h, DrainOp);
    var n := AckedPrefix(h.tracker.batches);
    forall i | 0 <= i < |r.tracker.batches|
      ensures Identity(r.tracker.batches[i]) == r.everTracked[|r.drained| + i]
    {
      assert Identity(h.tracker.batches[n + i]) == h.everTracked[|h.drained| + (n + i)];
    }
    forall i | |h.drained| <= i < |r.drained|
      ensures Identity(r.drained[i]) == r.everTracked[i] && r.drained[i].status == Acked
    {
      var k := i - |h.drained|;
      assert r.drained[i] == h.tracker.batches[k];
      assert Identity(h.tracker.batches[k]) == h.everTracked[|h.drained| + k];
    }
  }

  lemma {:induction false} ApplyKeepsConsistent(h: History, op: TrackerOp)
    requires Consistent(h)
    ensures Consistent(Apply(h, op))
  {
    hide Consistent;
    match op
    case TrackOp(_, _, _, _, _) => TrackKeepsConsistent(h, op);
    case AckOp(key) => StatusKeepsConsistent(h, key, Acked);
    case FailOp(key) => StatusKeepsConsistent(h, key, Failed);
    case DrainOp => DrainKeepsConsistent(h);
  }

  /**
   Over every run, what was drained followed by what is still tracked is everything ever
   tracked, in order, under keys 1, 2, 3 and so on; and only acked batches were drained.
   */
  lemma {:induction false} EveryRunIsConsistent(ops: seq<TrackerOp>)
    ensures Consistent(ApplyAll(NewHistory, ops))
  {
    if ops != [] {
      EveryRunIsConsistent(ops[..|ops| - 1]);
      ApplyKeepsConsistent(ApplyAll(NewHistory, ops[..|ops| - 1]), ops[|ops| - 1]);
    }
  }

  /**
   Everything tracked up to and including batch `upTo` has been acked, drained batches included,
   and the batch tracked next, if any, has not.
   */
  ghost predicate AckedExactlyTo(h: History, upTo: nat) {
    var seen := h.drained + h.tracker.batches;
    && |h.drained| < upTo <= |seen| == |h.everTracked|
    && (forall i :: 0 <= i < upTo ==> seen[i].status == Acked && Identity(seen[i]) == h.everTracked[i])
    && (upTo < |seen| ==> seen[upTo].status != Acked)
  }

  lemma {:induction false} PrefixAckedExactly(h: History)
    requires Consistent(h) && AckedPrefix(h.tracker.batches) > 0
    ensures AckedExactlyTo(h, |h.drained| + AckedPrefix(h.tracker.batches))
  {
    var n := AckedPrefix(h.tracker.batches);
    var seen := h.drained + h.tracker.batches;
    forall i | 0 <= i < |h.drained| + n
      ensures seen[i].status == Acked && Identity(seen[i]) == h.everTracked[i]
    {
      if i >= |h.drained| {
        assert seen[i] == h.tracker.batches[i - |h.drained|];
        assert Identity(h.tracker.batches[i - |h.drained|]) == h.everTracked[|h.drained| + (i - |h.drained|)];
      }
    }
  }

  /**
   Over every run, a checkpoint offered by the rule is the end of some batch such that this
   batch and every batch tracked before it, drained ones included, have been acked; and the
   batch tracked next, if any, has not. The buffer sequences it releases are those of the
   acked batches not drained before.
   */
  lemma {:induction false} SafeCheckpointIsConsecutive(ops: seq<TrackerOp>) returns (upTo: nat)
    requires Safe(ApplyAll(NewHistory, ops).tracker).Some?
    ensures AckedExactlyTo(ApplyAll(NewHistory, ops), upTo)
    ensures
      var h := ApplyAll(NewHistory, ops);
      && Safe(h.tracker).value.offset == h.everTracked[upTo - 1].endOffset
      && Safe(h.tracker).value.ackedBufferSequences == BufferRanges(h.everTracked[|h.drained|..upTo])
  {
    EveryRunIsConsistent(ops);
    var h := ApplyAll(NewHistory, ops);
    upTo := SafeOf(h);
  }

  lemma {:induction false} SafeOf(h: History) returns (upTo: nat)
    requires Consistent(h) && Safe(h.tracker).Some?
    ensures AckedExactlyTo(h, upTo)
    ensures Safe(h.tracker).value.offset == h.everTracked[upTo - 1].endOffset
    ensures Safe(h.tracker).value.ackedBufferSequences == BufferRanges(h.everTracked[|h.drained|..upTo])
  {
    hide BufferRanges;
    var n := AckedPrefix(h.tracker.batches);
    PrefixAckedExactly(h);
    upTo := |h.drained| + n;
    var a := h.tracker.batches[..n];
    var b := h.everTracked[|h.drained|..upTo];
    forall i | 0 <= i < n
      ensures Identity(a[i]) == b[i]
    {
      assert Identity(h.tracker.batches[i]) == h.everTracked[|h.drained| + i];
    }
    RangesIgnoreStatus(a, b);
    assert Identity(a[n - 1]) == b[n - 1];
  }

  lemma {:induction false} RangesIgnoreStatus(a: seq<TrackedBatch>, b: seq<TrackedBatch>)
    requires |a| == |b|
    requires forall i :: 0 <= i < |a| ==> Identity(a[i]) == b[i]
    ensures BufferRanges(a) == BufferRanges(b)
  {
    if a != [] {
      var n := |a| - 1;
      RangesIgnoreStatus(a[..n], b[..n]);
      assert Identity(a[n]) == b[n];
      assert BufferRange(a[n]) == BufferRange(b[n]);
    }
  }
}
