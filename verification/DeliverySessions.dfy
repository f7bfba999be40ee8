/**
 What acknowledging by count guarantees within one session, and exactly when it does:
 the session must start on an empty queue, and events must leave in file order.
 */
module DeliverySessions {
  import opened Common
  import opened BatchTracking
  import opened EntryAssembly
  import opened StreamAssembly
  import opened StreamAssemblyRuns
  import opened SpillFiles
  import opened DeliveryProtocol
  import opened DeliverySafety

  /** A session as it begins: nothing tracked, nothing held, nothing stored yet. */
  ghost predicate SessionStart(s: Core) {
    && s.tracker == EmptyTracker && s.slots == InitialSlots && s.log == [] && s.origin == s.position
    && !s.blocked && !s.closing && s.onDisk.active.None?
  }

  /** No line comes back from the overflow store. */
  ghost predicate NoReplay(steps: seq<Step>) {
    forall i :: 0 <= i < |steps| ==> BringsNothingBack(steps[i])
  }

  predicate BringsNothingBack(step: Step) {
    step.DrainAndReplay? ==> step.accepted == 0
  }

  lemma {:induction false} NoStoreNoReplay(u: Setup, trace: seq<Core>, steps: seq<Step>)
    requires IsRun(u, trace, steps) && !u.overflow
    ensures NoReplay(steps)
  {
    forall i | 0 <= i < |steps|
      ensures BringsNothingBack(steps[i])
    {
      assert Enabled(u, trace[i], steps[i]);
    }
  }

  ghost predicate IsSession(u: Setup, trace: seq<Core>, steps: seq<Step>) {
    IsRun(u, trace, steps) && SessionStart(trace[0]) && forall i :: 0 <= i < |steps| ==> !steps[i].Restart?
  }

  // ------------------------------------------------------- the tracker mirrors the log

  /** A batch describes the stored group of the given rank. */
  ghost predicate Describes(b: TrackedBatch, g: Emission, rank: nat, acked: bool)
    requires g.lines != []
  {
    && b.sequence == rank + 1 && b.startOffset == FirstStart(g) && b.endOffset == LastEnd(g)
    && b.bufferFirst == b.bufferLast && b.status == if acked then Acked else Pending
  }

  /** One batch for each live group, ranked from `first`; the first `acked` of them are acked. */
  ghost predicate Tidy(t: Tracker, live: seq<Emission>, first: nat, acked: nat) {
    && acked <= |live| == |t.batches| && t.nextSequence == first + |live| + 1 && AllNonempty(live)
    && forall i :: 0 <= i < |live| ==> Describes(t.batches[i], live[i], first + i, i < acked)
  }

  /** Queue entry `j` is the live group `acked + j`, under its batch's buffer sequence. */
  ghost predicate Paired(queue: seq<Entry>, t: Tracker, live: seq<Emission>, acked: nat) {
    && acked <= |live| == |t.batches| && |queue| == |live| - acked
    && forall j :: 0 <= j < |queue| ==>
         queue[j].group == live[acked + j] && queue[j].sequence == t.batches[acked + j].bufferFirst
  }

  lemma {:induction false} TrackOne(t: Tracker, live: seq<Emission>, first: nat, acked: nat, queue: seq<Entry>,
      g: Emission, inode: nat, id: nat)
    requires Tidy(t, live, first, acked) && g.lines != []
    ensures
      var r := Tracked(t, FirstStart(g), LastEnd(g), inode, id, id);
      && Tidy(r, live + [g], first, acked)
      && (Paired(queue, t, live, acked) ==> Paired(queue + [Entry(id, g)], r, live + [g], acked))
  {
  }

  lemma {:induction false} TrackMany(t: Tracker, live: seq<Emission>, first: nat, acked: nat, queue: seq<Entry>,
      groups: seq<Emission>, inode: nat, base: nat)
    requires Tidy(t, live, first, acked) && AllNonempty(groups)
    ensures
      var r := TrackGroups(t, inode, groups, base);
      && Tidy(r, live + groups, first, acked)
      && (Paired(queue, t, live, acked) ==> Paired(queue + Entries(groups, base), r, live + groups, acked))
  {
    if groups == [] {
      assert live + groups == live;
      assert queue + Entries(groups, base) == queue;
    } else {
      var n := |groups| - 1;
      var front := groups[..n];
      TrackMany(t, live, first, acked, queue, front, inode, base);
      TrackOne(TrackGroups(t, inode, front, base), live + front, first, acked, queue + Entries(front, base), groups[n],
        inode, base + 1 + n);
      assert live + groups == (live + front) + [groups[n]];
      assert queue + Entries(groups, base) == (queue + Entries(front, base)) + [Entry(base + 1 + n, groups[n])];
    }
  }

  lemma {:induction false} AckOne(t: Tracker, live: seq<Emission>, first: nat, acked: nat)
    requires Tidy(t, live, first, acked) && acked < |live|
    ensures Tidy(AckOldest(t), live, first, acked + 1)
  {
    assert forall i :: 0 <= i < |live| ==> Describes(t.batches[i], live[i], first + i, i < acked);
    OldestPendingIs(t.batches, acked);
    var r := AckOldest(t);
    forall i | 0 <= i < |live|
      ensures Describes(r.batches[i], live[i], first + i, i < acked + 1)
    {
      assert Describes(t.batches[i], live[i], first + i, i < acked);
      assert Describes(t.batches[acked], live[acked], first + acked, false);
    }
  }

  lemma {:induction false} AckNone(t: Tracker, live: seq<Emission>, first: nat)
    requires Tidy(t, live, first, |live|)
    ensures AckOldest(t) == t
  {
    assert forall i :: 0 <= i < |live| ==> Describes(t.batches[i], live[i], first + i, true);
    OldestPendingIs(t.batches, |live|);
  }

  lemma {:induction false} AckMany(t: Tracker, live: seq<Emission>, first: nat, acked: nat, times: nat)
    requires Tidy(t, live, first, acked)
    ensures Tidy(AckOldestTimes(t, times), live, first, Min(acked + times, |live|))
    decreases times
  {
    if times > 0 {
      if acked < |live| {
        AckOne(t, live, first, acked);
        AckMany(AckOldest(t), live, first, acked + 1, times - 1);
      } else {
        AckNone(t, live, first);
        AckMany(t, live, first, acked, times - 1);
      }
    }
  }

  lemma {:induction false} TidyAckedPrefix(t: Tracker, live: seq<Emission>, first: nat, acked: nat)
    requires Tidy(t, live, first, acked)
    ensures AckedPrefix(t.batches) == acked
  {
    assert forall i :: 0 <= i < |live| ==> Describes(t.batches[i], live[i], first + i, i < acked);
    AckedPrefixIs(t.batches, acked);
  }

  lemma {:induction false} LetAckedGo(t: Tracker, live: seq<Emission>, first: nat, acked: nat, queue: seq<Entry>)
    requires Tidy(t, live, first, acked)
    ensures Tidy(Drained(t), live[acked..], first + acked, 0)
    ensures Paired(queue, t, live, acked) ==> Paired(queue, Drained(t), live[acked..], 0)
  {
    TidyAckedPrefix(t, live, first, acked);
    var r := Drained(t);
    forall i | 0 <= i < |r.batches|
      ensures Describes(r.batches[i], live[acked..][i], first + acked + i, false)
    {
      assert Describes(t.batches[acked + i], live[acked + i], first + (acked + i), false);
    }
  }

  // ------------------------------------------------------------------ along a session

  /** The first `gone` groups of the session's log have left the tracker, the next `acked` are acked. */
  ghost predicate InStep(s: Core, gone: nat, acked: nat) {
    gone <= |s.log| && AllNonempty(s.log) && Tidy(s.tracker, s.log[gone..], gone, acked)
  }

  /**
   The queue holds, in order and under the tracked buffer sequences, exactly the groups not yet
   acknowledged; and the groups acknowledged are what this session settled.
   */
  ghost predicate QueueIsPending(s: Core, gone: nat, acked: nat, before: set<Held>) {
    && InStep(s, gone, acked)
    && Paired(s.queue, s.tracker, s.log[gone..], acked)
    && s.settled == before + LinesIn(s.log[..gone + acked])
  }

  lemma {:induction false} StoreKeepsInStep(u: Setup, s: Core, gone: nat, acked: nat, groups: seq<Emission>,
      outcome: StoreOutcome)
    requires AllNonempty(groups) && InStep(s, gone, acked)
    ensures InStep(Store(u, s, groups, outcome), gone, acked)
  {
    if groups != [] && outcome.Stored? {
      TrackMany(s.tracker, s.log[gone..], gone, acked, s.queue, groups, u.inode, s.lastSequence);
      assert (s.log + groups)[gone..] == s.log[gone..] + groups;
    }
  }

  lemma {:induction false} StoreKeepsPending(u: Setup, s: Core, gone: nat, acked: nat, groups: seq<Emission>,
      outcome: StoreOutcome, before: set<Held>)
    requires AllNonempty(groups) && QueueIsPending(s, gone, acked, before)
    ensures QueueIsPending(Store(u, s, groups, outcome), gone, acked, before)
  {
    StoreKeepsInStep(u, s, gone, acked, groups, outcome);
    if groups != [] && outcome.Stored? {
      TrackMany(s.tracker, s.log[gone..], gone, acked, s.queue, groups, u.inode, s.lastSequence);
      assert (s.log + groups)[gone..] == s.log[gone..] + groups;
      assert (s.log + groups)[..gone + acked] == s.log[..gone + acked];
    }
  }

  lemma {:induction false} LinesInSplit(log: seq<Emission>, m: nat, n: nat)
    requires m <= n <= |log|
    ensures LinesIn(log[..n]) == LinesIn(log[..m]) + LinesIn(log[m..n])
  {
    forall h | h in LinesIn(log[..n])
      ensures h in LinesIn(log[..m]) + LinesIn(log[m..n])
    {
      var i :| 0 <= i < n && h in log[..n][i].lines;
      if i < m {
        assert log[..m][i] == log[i];
      } else {
        assert log[m..n][i - m] == log[i];
      }
    }
    forall h | h in LinesIn(log[..m])
      ensures h in LinesIn(log[..n])
    {
      var i :| 0 <= i < m && h in log[..m][i].lines;
      assert log[..n][i] == log[i];
    }
    forall h | h in LinesIn(log[m..n])
      ensures h in LinesIn(log[..n])
    {
      var i :| 0 <= i < n - m && h in log[m..n][i].lines;
      assert log[..n][m + i] == log[m..n][i];
    }
  }

  lemma {:induction false} SameLines(queue: seq<Entry>, groups: seq<Emission>)
    requires |queue| == |groups| && forall i :: 0 <= i < |queue| ==> queue[i].group == groups[i]
    ensures EntryLines(queue) == LinesIn(groups)
  {
    assert forall h :: h in EntryLines(queue) <==> h in LinesIn(groups);
  }

  lemma {:induction false} PairedDrain(queue: seq<Entry>, t: Tracker, t': Tracker, live: seq<Emission>, acked: nat,
      n: nat)
    requires Paired(queue, t, live, acked) && n <= |queue| && |t'.batches| == |t.batches|
    requires forall i :: 0 <= i < |t.batches| ==> Identity(t'.batches[i]) == Identity(t.batches[i])
    ensures Paired(queue[n..], t', live, acked + n)
  {
    forall j | 0 <= j < |queue[n..]|
      ensures queue[n..][j].group == live[acked + n + j]
        && queue[n..][j].sequence == t'.batches[acked + n + j].bufferFirst
    {
      assert queue[n..][j] == queue[n + j];
      assert Identity(t'.batches[acked + (n + j)]).bufferFirst == Identity(t.batches[acked + (n + j)]).bufferFirst;
    }
  }

  lemma {:induction false} DrainedLines(s: Core, gone: nat, acked: nat, n: nat)
    requires gone <= |s.log| && Paired(s.queue, s.tracker, s.log[gone..], acked) && n <= |s.queue|
    ensures LinesIn(s.log[..gone + acked + n]) == LinesIn(s.log[..gone + acked]) + EntryLines(s.queue[..n])
  {
    hide LinesIn, EntryLines;
    var from := gone + acked;
    LinesInSplit(s.log, from, from + n);
    var taken := s.log[from..from + n];
    forall i | 0 <= i < n
      ensures s.queue[..n][i].group == taken[i]
    {
      assert s.queue[i].group == s.log[gone..][acked + i];
    }
    SameLines(s.queue[..n], taken);
  }

  lemma {:induction false} DrainKeepsInStep(s: Core, gone: nat, acked: nat, handled: nat, release: bool)
    requires handled <= |s.queue| && InStep(s, gone, acked)
    ensures InStep(AfterDrain(s, handled, release), gone, Min(acked + handled, |s.log| - gone))
  {
    AckMany(s.tracker, s.log[gone..], gone, acked, handled);
  }

  lemma {:induction false} DrainKeepsPending(s: Core, gone: nat, acked: nat, handled: nat, release: bool,
      before: set<Held>)
    requires handled <= |s.queue| && QueueIsPending(s, gone, acked, before)
    ensures acked + handled <= |s.log| - gone
    ensures QueueIsPending(AfterDrain(s, handled, release), gone, acked + handled, before)
  {
    var r := AfterDrain(s, handled, release);
    DrainKeepsInStep(s, gone, acked, handled, release);
    assert Paired(r.queue, r.tracker, r.log[gone..], acked + handled) by {
      AckingKeepsOffsets(s.tracker, handled);
      PairedDrain(s.queue, s.tracker, r.tracker, s.log[gone..], acked, handled);
    }
    assert r.settled == before + LinesIn(r.log[..gone + (acked + handled)]) by {
      DrainedLines(s, gone, acked, handled);
      UnionAssociates(before, LinesIn(s.log[..gone + acked]), EntryLines(s.queue[..handled]));
    }
  }

  lemma {:induction false} UnionAssociates<T>(a: set<T>, b: set<T>, c: set<T>)
    ensures (a + b) + c == a + (b + c)
  {
  }

  lemma {:induction false} SaveKeepsInStep(u: Setup, s: Core, gone: nat, acked: nat)
    requires InStep(s, gone, acked) && CheckpointOffset(u, s).Some?
    ensures InStep(AfterSave(u, s, true), gone + acked, 0)
  {
    LetAckedGo(s.tracker, s.log[gone..], gone, acked, s.queue);
    assert s.log[gone..][acked..] == s.log[gone + acked..];
  }

  lemma {:induction false} SaveKeepsPending(u: Setup, s: Core, gone: nat, acked: nat, before: set<Held>)
    requires QueueIsPending(s, gone, acked, before) && CheckpointOffset(u, s).Some?
    ensures QueueIsPending(AfterSave(u, s, true), gone + acked, 0, before)
  {
    SaveKeepsInStep(u, s, gone, acked);
    LetAckedGo(s.tracker, s.log[gone..], gone, acked, s.queue);
    assert s.log[gone..][acked..] == s.log[gone + acked..];
  }

  predicate Stores(step: Step) {
    step.Read? || step.IdleCheck? || step.FlushAll?
  }

  /** The groups a storing step hands to the durable buffer, with the state just before it does. */
  ghost function Handed(u: Setup, s: Core, step: Step): (Core, seq<Emission>)
    requires Enabled(u, s, step)
  {
    match step
    case Read(count, times, _) =>
      var p := Taken(u, s.slots, Arrivals(u, s.position, times));
      (AfterTaking(s, p, count), p.emissions)
    case IdleCheck(now, _) =>
      var p := Collect(u.assembly.value, s.slots, OnTimeout(now));
      (AfterTaking(s, p, 0), p.emissions)
    case FlushAll(_) =>
      var p := Collect(u.assembly.value, s.slots, OnFlush);
      (AfterTaking(s.(closing := true), p, 0), p.emissions)
    case _ => (s, [])
  }

  lemma {:induction false} StoringStep(u: Setup, s: Core, step: Step)
    requires Enabled(u, s, step) && Stores(step)
    ensures
      var h := Handed(u, s, step);
      && AllNonempty(h.1) && Next(u, s, step) == Store(u, h.0, h.1, step.outcome)
      && h.0 == s.(position := h.0.position, slots := h.0.slots, closing := h.0.closing)
  {
  }

  lemma {:induction false} StoringKeepsInStep(u: Setup, s: Core, gone: nat, acked: nat, step: Step)
    requires Enabled(u, s, step) && Stores(step) && InStep(s, gone, acked)
    ensures InStep(Next(u, s, step), gone, acked)
  {
    StoringStep(u, s, step);
    var h := Handed(u, s, step);
    StoreKeepsInStep(u, h.0, gone, acked, h.1, step.outcome);
  }

  lemma {:induction false} StoringKeepsPending(u: Setup, s: Core, gone: nat, acked: nat, step: Step, before: set<Held>)
    requires Enabled(u, s, step) && Stores(step) && QueueIsPending(s, gone, acked, before)
    ensures QueueIsPending(Next(u, s, step), gone, acked, before)
  {
    StoringStep(u, s, step);
    var h := Handed(u, s, step);
    StoreKeepsPending(u, h.0, gone, acked, h.1, step.outcome, before);
  }

  lemma {:induction false} ReplayKeepsInStep(s: Core, gone: nat, acked: nat, accepted: nat)
    requires InStep(s, gone, acked) && accepted <= |Returned(s.onDisk, REPLAY_BATCH)|
    ensures InStep(AfterReplay(s, accepted), gone, acked)
  {
  }

  /** A replay that brings nothing back only changes the overflow store's files. */
  lemma {:induction false} ReplayOfNothing(s: Core)
    ensures AfterReplay(s, 0) == s.(onDisk := Replayed(s.onDisk, REPLAY_BATCH))
  {
    hide Returned, Replayed;
    assert s.queue + Entries(Untagged(Returned(s.onDisk, REPLAY_BATCH)[..0]), s.lastSequence) == s.queue;
  }

  lemma {:induction false} FilesPlayNoPart(s: Core, gone: nat, acked: nat, before: set<Held>, files: Files<Emission>)
    ensures QueueIsPending(s, gone, acked, before) <==> QueueIsPending(s.(onDisk := files), gone, acked, before)
  {
  }

  lemma {:induction false} StepKeepsPending(u: Setup, s: Core, gone: nat, acked: nat, step: Step, before: set<Held>)
      returns (gone': nat, acked': nat)
    requires Enabled(u, s, step) && !step.Restart? && BringsNothingBack(step) && QueueIsPending(s, gone, acked, before)
    ensures QueueIsPending(Next(u, s, step), gone', acked', before)
  {
    hide QueueIsPending;
    gone', acked' := gone, acked;
    match step {
      case Drain(handled, release) =>
        DrainKeepsPending(s, gone, acked, handled, release, before);
        acked' := acked + handled;
      case DrainAndReplay(handled, release, _) =>
        DrainKeepsPending(s, gone, acked, handled, release, before);
        acked' := acked + handled;
        var d := AfterDrain(s, handled, release);
        ReplayOfNothing(d);
        FilesPlayNoPart(d, gone, acked', before, Replayed(d.onDisk, REPLAY_BATCH));
      case Tend(op) => FilesPlayNoPart(s, gone, acked, before, Tended(s.onDisk, op));
      case SaveCheckpoint(saved) =>
        if saved && CheckpointOffset(u, s).Some? {
          SaveKeepsPending(u, s, gone, acked, before);
          gone', acked' := gone + acked, 0;
        }
      case _ => StoringKeepsPending(u, s, gone, acked, step, before);
    }
  }

  lemma {:induction false} SessionPending(u: Setup, trace: seq<Core>, steps: seq<Step>, i: nat)
      returns (gone: nat, acked: nat)
    requires IsSession(u, trace, steps) && NoReplay(steps) && i < |trace| && trace[0].queue == []
    ensures QueueIsPending(trace[i], gone, acked, trace[0].settled)
  {
    if i == 0 {
      gone, acked := 0, 0;
      assert LinesIn(trace[0].log[..0]) == {};
    } else {
      gone, acked := SessionPending(u, trace, steps, i - 1);
      gone, acked := StepKeepsPending(u, trace[i - 1], gone, acked, steps[i - 1], trace[0].settled);
    }
  }

  lemma {:induction false} AllPending(batches: seq<TrackedBatch>)
    requires forall i :: 0 <= i < |batches| ==> batches[i].status == Pending
    ensures PendingOf(batches) == batches
  {
    if batches != [] {
      AllPending(batches[1..]);
      assert batches == [batches[0]] + batches[1..];
    }
  }

  lemma {:induction false} PendingIsSuffix(batches: seq<TrackedBatch>, acked: nat)
    requires acked <= |batches|
    requires forall i :: 0 <= i < |batches| ==> batches[i].status == if i < acked then Acked else Pending
    ensures PendingOf(batches) == batches[acked..]
  {
    if acked == 0 {
      AllPending(batches);
    } else {
      var rest := batches[1..];
      assert forall i :: 0 <= i < |rest| ==> rest[i] == batches[i + 1];
      PendingIsSuffix(rest, acked - 1);
    }
  }

  /**
   In a session started on an empty queue and with nothing replayed into it, the pending batches
   match the live queue entries one for one and in order: same buffer sequence, same byte range.
   */
  lemma {:induction false} PendingMatchesQueue(u: Setup, trace: seq<Core>, steps: seq<Step>, i: nat)
    requires IsSession(u, trace, steps) && NoReplay(steps) && trace[0].queue == [] && i < |trace|
    ensures
      var s := trace[i];
      var pending := PendingOf(s.tracker.batches);
      && |pending| == |s.queue|
      && forall j :: 0 <= j < |pending| ==>
           && pending[j].bufferFirst == pending[j].bufferLast == s.queue[j].sequence
           && s.queue[j].group.lines != []
           && pending[j].startOffset == FirstStart(s.queue[j].group)
           && pending[j].endOffset == LastEnd(s.queue[j].group)
  {
    var gone, acked := SessionPending(u, trace, steps, i);
    var s := trace[i];
    var live := s.log[gone..];
    assert forall x :: 0 <= x < |live| ==> Describes(s.tracker.batches[x], live[x], gone + x, x < acked);
    PendingIsSuffix(s.tracker.batches, acked);
    forall j | 0 <= j < |s.queue|
      ensures Describes(s.tracker.batches[acked..][j], live[acked + j], gone + (acked + j), false)
    {
      assert Describes(s.tracker.batches[acked + j], live[acked + j], gone + (acked + j), false);
    }
  }
}
