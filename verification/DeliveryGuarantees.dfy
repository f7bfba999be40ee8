/**
 The strong form of the delivery guarantee, and exactly when a session has it: everything below
 the checkpoint has left the agent, and the checkpoint never moves back.
 */
module DeliveryGuarantees {
  import opened Common
  import opened LogFiles
  import opened BatchTracking
  import opened EntryAssembly
  import opened StreamAssembly
  import opened StreamAssemblyRuns
  import opened SpillFiles
  import opened DeliveryProtocol
  import opened DeliverySafety
  import opened DeliverySessions
  import opened DeliveryOrder

  // ---------------------------------------------------- accounting within one session

  /** The state as if this session's stored groups were all still queued and nothing came before. */
  ghost function View(u: Setup, s: Core): Core
    requires s.origin <= |u.file|
  {
    s.(queue := Entries(s.log, 0), lastSequence := |s.log|, checkpoint := None, tracker := EmptyTracker,
       settled := {}, skipped := set k | 0 <= k < s.origin :: Line(u, k))
  }

  lemma {:induction false} EntriesAppend(a: seq<Emission>, b: seq<Emission>)
    ensures Entries(a + b, 0) == Entries(a, 0) + Entries(b, |a|)
  {
  }

  lemma {:induction false} ViewStores(u: Setup, s: Core, groups: seq<Emission>, outcome: StoreOutcome)
    requires AllNonempty(groups) && s.origin <= |u.file|
    ensures View(u, Store(u, s, groups, outcome)) == Store(u, View(u, s), groups, outcome).(tracker := EmptyTracker)
  {
    EntriesAppend(s.log, groups);
  }

  lemma {:induction false} ViewSteps(u: Setup, s: Core, step: Step)
    requires Enabled(u, s, step) && Stores(step) && s.origin <= |u.file|
    ensures Enabled(u, View(u, s), step)
    ensures View(u, Next(u, s, step)) == Next(u, View(u, s), step).(tracker := EmptyTracker)
  {
    hide Store;
    StoringStep(u, s, step);
    StoringStep(u, View(u, s), step);
    var h := Handed(u, s, step);
    var v := Handed(u, View(u, s), step);
    assert v.1 == h.1 && v.0 == View(u, h.0);
    ViewStores(u, h.0, h.1, step.outcome);
  }

  lemma {:induction false} InvWithoutTracker(u: Setup, s: Core)
    requires Inv(u, s)
    ensures Inv(u, s.(tracker := EmptyTracker))
  {
    var r := s.(tracker := EmptyTracker);
    assert forall k :: 0 <= k < |u.file| ==> Covered(u, s, k) == Covered(u, r, k);
  }

  lemma {:induction false} StepKeepsView(u: Setup, s: Core, step: Step)
    requires Proper(u) && Enabled(u, s, step) && !step.Restart? && s.origin <= |u.file| && Inv(u, View(u, s))
    ensures Next(u, s, step).origin == s.origin && Inv(u, View(u, Next(u, s, step)))
  {
    hide Inv;
    if Stores(step) {
      StoringStep(u, s, step);
      ViewSteps(u, s, step);
      StepKeepsInv(u, View(u, s), step);
      InvWithoutTracker(u, Next(u, View(u, s), step));
    } else {
      hide Tended, Returned, Replayed;
      var r := Next(u, s, step);
      InvIgnores(u, View(u, s), View(u, r));
    }
  }

  lemma {:induction false} SessionView(u: Setup, trace: seq<Core>, steps: seq<Step>, i: nat)
    requires Proper(u) && IsSession(u, trace, steps) && i < |trace| && trace[0].position <= |u.file|
    ensures trace[i].origin == trace[0].origin && Inv(u, View(u, trace[i]))
  {
    if i == 0 {
      var s := View(u, trace[0]);
      assert forall st :: HeldBy(InitialSlots, st) == [];
      assert forall k :: 0 <= k < s.position ==> Line(u, k) in s.skipped;
    } else {
      SessionView(u, trace, steps, i - 1);
      StepKeepsView(u, trace[i - 1], steps[i - 1]);
    }
  }

  /** A line read in this session is stored, held back or blank, or the buffer refused it. */
  lemma {:induction false} StoredOrHeld(u: Setup, s: Core, k: nat)
    requires Proper(u) && s.origin <= k < s.position <= |u.file| && Inv(u, View(u, s))
    ensures Line(u, k) in LinesIn(s.log) || BlankSkipped(u, k) || NotStored(s, Line(u, k)) || HeldBack(u, s, k)
  {
    var v := View(u, s);
    assert Covered(u, v, k) || HeldBack(u, v, k);
    SameLines(v.queue, s.log);
    if Line(u, k) in v.skipped {
      var j :| 0 <= j < s.origin && Line(u, k) == Line(u, j);
      StartsOrder(u.file, j, k);
    }
  }

  // ------------------------------------------------------- delivered below the checkpoint

  /** Every line of this session below the checkpoint was settled, is blank, or was refused by the buffer. */
  ghost predicate DeliveredBelow(u: Setup, s: Core, offset: nat) {
    forall k :: s.origin <= k < LinesBelow(u.file, offset) ==>
      Line(u, k) in s.settled || BlankSkipped(u, k) || NotStored(s, Line(u, k))
  }

  ghost predicate CheckpointDelivered(u: Setup, s: Core) {
    s.checkpoint.Some? ==> DeliveredBelow(u, s, s.checkpoint.value)
  }

  /** What a state of a session is known to satisfy. */
  ghost predicate SessionInv(u: Setup, s: Core) {
    && Inv(u, s) && Inv(u, View(u, s)) && FollowsStreams(u, s) && AllNonempty(s.log)
    && (u.assembly.None? ==> FollowsFile(u, s))
  }

  lemma {:induction false} StoreKeepsNonempty(u: Setup, s: Core, groups: seq<Emission>, outcome: StoreOutcome)
    requires AllNonempty(groups) && AllNonempty(s.log)
    ensures AllNonempty(Store(u, s, groups, outcome).log)
  {
  }

  lemma {:induction false} StepKeepsNonempty(u: Setup, s: Core, step: Step)
    requires Enabled(u, s, step) && AllNonempty(s.log)
    ensures AllNonempty(Next(u, s, step).log)
  {
    if Stores(step) {
      StoringStep(u, s, step);
      var h := Handed(u, s, step);
      StoreKeepsNonempty(u, h.0, h.1, step.outcome);
    }
  }

  lemma {:induction false} StepKeepsSessionInv(u: Setup, s: Core, step: Step)
    requires Proper(u) && Enabled(u, s, step) && !step.Restart? && SessionInv(u, s)
    ensures SessionInv(u, Next(u, s, step))
  {
    hide Inv, FollowsStreams, FollowsFile, View, Next;
    assert s.origin <= s.position <= |u.file| by {
      Positions(u, s);
    }
    StepKeepsInv(u, s, step);
    StepKeepsView(u, s, step);
    StepFollows(u, s, step);
    StepKeepsNonempty(u, s, step);
    Positions(u, Next(u, s, step));
    if u.assembly.None? {
      assert KeepsFileOrder(u);
      StepFollowsFile(u, s, step);
    }
  }

  lemma {:induction false} Positions(u: Setup, s: Core)
    requires Inv(u, s)
    ensures s.origin <= s.position <= |u.file|
  {
  }

  lemma {:induction false} SessionStarts(u: Setup, s: Core)
    requires Proper(u) && SessionStart(s) && Inv(u, s)
    ensures SessionInv(u, s)
  {
    SessionView(u, [s], [], 0);
    assert forall st :: HeldBy(InitialSlots, st) == [];
    assert forall st :: EmittedBy(s.log, st) + HeldBy(s.slots, st) == [];
  }

  lemma {:induction false} SessionKeepsInv(u: Setup, trace: seq<Core>, steps: seq<Step>, i: nat)
    requires Proper(u) && IsSession(u, trace, steps) && Inv(u, trace[0]) && i < |trace|
    ensures SessionInv(u, trace[i])
  {
    hide SessionInv, Inv, Next, Enabled;
    if i == 0 {
      SessionStarts(u, trace[0]);
    } else {
      SessionKeepsInv(u, trace, steps, i - 1);
      StepKeepsSessionInv(u, trace[i - 1], steps[i - 1]);
    }
  }

  /** The log of a session that keeps file order ascends along the file. */
  lemma {:induction false} LogFollowsFile(u: Setup, s: Core)
    requires SessionInv(u, s) && KeepsFileOrder(u)
    ensures s.position <= |u.file| && FollowsFile(u, s)
  {
    if u.assembly.Some? {
      OneStreamFollowsFile(u, s);
    }
  }

  /** In a log that follows the file, a group ends before any line of a later group starts. */
  lemma {:induction false} GroupEndsBeforeLater(u: Setup, s: Core, i: nat, j: nat, h: Held)
    requires Proper(u) && s.position <= |u.file| && FollowsFile(u, s) && AllNonempty(s.log)
    requires i < j < |s.log| && h in s.log[j].lines
    ensures LastEnd(s.log[i]) <= h.ctx.start
  {
    var last := s.log[i].lines[|s.log[i].lines| - 1];
    LogLinesMembers(s.log, i);
    LogLinesMembers(s.log, j);
    EarlierGroupsFirst(s.log, i, j, last, h);
    LinesDoNotOverlap(u, s.position, last, h);
  }

  lemma {:induction false} LinesDoNotOverlap(u: Setup, n: nat, a: Held, b: Held)
    requires Proper(u) && n <= |u.file| && AmongFirst(u, n, a) && AmongFirst(u, n, b) && a.ctx.start < b.ctx.start
    ensures a.ctx.end <= b.ctx.start
  {
    var j :| 0 <= j < n && a == Line(u, j);
    var k :| 0 <= k < n && b == Line(u, k);
    StartsOrder(u.file, j, k);
    StartsOrder(u.file, j + 1, k);
  }

  /** The offset offered comes from the last acknowledged group. */
  lemma {:induction false} OfferedFromAcked(u: Setup, s: Core, gone: nat, acked: nat)
    requires InStep(s, gone, acked) && CheckpointOffset(u, s).Some?
    ensures acked > 0 && gone + acked <= |s.log|
    ensures Safe(s.tracker).value.offset == LastEnd(s.log[gone + acked - 1])
    ensures CheckpointOffset(u, s).value <= LastEnd(s.log[gone + acked - 1])
  {
    TidyAckedPrefix(s.tracker, s.log[gone..], gone, acked);
    assert Describes(s.tracker.batches[acked - 1], s.log[gone..][acked - 1], gone + (acked - 1), true);
  }

  /** The line stored in some group: which one. */
  lemma {:induction false} GroupOf(log: seq<Emission>, h: Held) returns (x: nat)
    requires h in LinesIn(log)
    ensures x < |log| && h in log[x].lines
  {
    x :| 0 <= x < |log| && h in log[x].lines;
  }

  /** A line stored below an offset that the first `m` groups reach is in one of them. */
  lemma {:induction false} StoredBelow(u: Setup, s: Core, m: nat, offset: nat, h: Held)
    requires Proper(u) && s.position <= |u.file| && FollowsFile(u, s) && AllNonempty(s.log)
    requires 0 < m <= |s.log| && offset <= LastEnd(s.log[m - 1]) && h in LinesIn(s.log) && h.ctx.start < offset
    ensures h in LinesIn(s.log[..m])
  {
    var x := GroupOf(s.log, h);
    if x >= m {
      GroupEndsBeforeLater(u, s, m - 1, x, h);
      assert false;
    }
    assert s.log[..m][x] == s.log[x];
  }

  /** A line of the session below the offered offset is stored, blank or was refused. */
  lemma {:induction false} StoredBelowOffered(u: Setup, s: Core, k: nat)
    requires Proper(u) && SessionInv(u, s) && CheckpointOffset(u, s).Some?
    requires s.origin <= k < LinesBelow(u.file, CheckpointOffset(u, s).value)
    ensures Line(u, k) in LinesIn(s.log) || BlankSkipped(u, k) || NotStored(s, Line(u, k))
    ensures StartOf(u.file, k) < CheckpointOffset(u, s).value && k < s.position
  {
    var offset := CheckpointOffset(u, s).value;
    OfferedOffset(u, s);
    StartsOrder(u.file, k, LinesBelow(u.file, offset));
    StartsOrder(u.file, k, s.position);
    StoredOrHeld(u, s, k);
  }

  lemma {:induction false} SaveDelivers(u: Setup, s: Core, gone: nat, acked: nat, before: set<Held>, k: nat)
    requires Proper(u) && KeepsFileOrder(u) && SessionInv(u, s) && QueueIsPending(s, gone, acked, before)
    requires CheckpointOffset(u, s).Some? && s.origin <= k < LinesBelow(u.file, CheckpointOffset(u, s).value)
    ensures Line(u, k) in s.settled || BlankSkipped(u, k) || NotStored(s, Line(u, k))
  {
    StoredBelowOffered(u, s, k);
    OfferedFromAcked(u, s, gone, acked);
    LogFollowsFile(u, s);
    hide Inv, CheckpointOffset, FollowsStreams, FollowsFile, LinesIn, View, InStep, Paired, BlankSkipped;
    if Line(u, k) in LinesIn(s.log) {
      StoredBelow(u, s, gone + acked, CheckpointOffset(u, s).value, Line(u, k));
    }
  }

  lemma {:induction false} StepDelivers(u: Setup, s: Core, step: Step, gone: nat, acked: nat, before: set<Held>)
    requires Proper(u) && KeepsFileOrder(u) && Enabled(u, s, step) && !step.Restart? && BringsNothingBack(step)
    requires SessionInv(u, s) && QueueIsPending(s, gone, acked, before) && CheckpointDelivered(u, s)
    ensures CheckpointDelivered(u, Next(u, s, step))
  {
    hide SessionInv, QueueIsPending;
    var r := Next(u, s, step);
    if step.SaveCheckpoint? {
      if step.saved && CheckpointOffset(u, s).Some? {
        forall k | s.origin <= k < LinesBelow(u.file, CheckpointOffset(u, s).value)
          ensures Line(u, k) in r.settled || BlankSkipped(u, k) || NotStored(r, Line(u, k))
        {
          SaveDelivers(u, s, gone, acked, before, k);
        }
      }
    } else {
      if Stores(step) {
        StoringStep(u, s, step);
        var h := Handed(u, s, step);
        StoreAccounts(u, h.0, h.1, step.outcome);
        hide Store;
        StoreLeaves(u, h.0, h.1, step.outcome);
      }
      assert r.checkpoint == s.checkpoint && r.origin == s.origin && s.settled <= r.settled;
      assert forall h :: NotStored(s, h) ==> NotStored(r, h);
    }
  }

  /**
   In a session started on an empty queue and with nothing replayed into it, without aggregation or
   with a single stream, every line of the session below the checkpoint has been delivered,
   adjudicated or dropped as oversized, or is a skipped blank, or was handed to the overflow store
   or lost to a failed append.
   */
  lemma {:induction false} EmptyStartDelivers(u: Setup, trace: seq<Core>, steps: seq<Step>, i: nat)
    requires Proper(u) && KeepsFileOrder(u) && IsSession(u, trace, steps) && NoReplay(steps) && Inv(u, trace[0])
      && i < |trace|
    requires trace[0].queue == [] && CheckpointDelivered(u, trace[0])
    ensures CheckpointDelivered(u, trace[i])
  {
    hide CheckpointDelivered, Inv, Next, Enabled, SessionInv, QueueIsPending;
    if i > 0 {
      EmptyStartDelivers(u, trace, steps, i - 1);
      SessionKeepsInv(u, trace, steps, i - 1);
      var gone, acked := SessionPending(u, trace, steps, i - 1);
      StepDelivers(u, trace[i - 1], steps[i - 1], gone, acked, trace[0].settled);
    }
  }
}
