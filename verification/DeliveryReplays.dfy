/**
 What comes back from the overflow store has no batch of its own, so acknowledging by count takes it
 for something else. Exactly when that goes wrong: lines left over in finished files when a session
 starts, or a file finished while it runs.
 */
module DeliveryReplays {
  import opened Common
  import opened LogFiles
  import opened BatchTracking
  import opened StreamAssembly
  import opened StreamAssemblyRuns
  import opened SpillFiles
  import opened DeliveryProtocol
  import opened DeliverySafety
  import opened DeliverySessions
  import opened DeliveryOrder
  import opened DeliveryGuarantees
  import opened DeliveryBreaks
  import opened DeliveryLosses

  // ------------------------------------------------------ what the overflow store may hold

  lemma {:induction false} StepKeepsOnlySpilled(u: Setup, s: Core, step: Step)
    requires Enabled(u, s, step) && OnlySpilled(s)
    ensures OnlySpilled(Next(u, s, step))
  {
    if Stores(step) {
      StoringStep(u, s, step);
      var h := Handed(u, s, step);
      StoreKeepsOnlySpilled(u, h.0, h.1, step.outcome);
    } else if step.DrainAndReplay? {
      ReplayedWithin(s.onDisk, REPLAY_BATCH, s.spilled);
    } else if step.Tend? {
      TendedWithin(s.onDisk, step.op, s.spilled);
    } else if step.Restart? {
      AbandonedRecords(s.onDisk);
    }
    hide Within, Records, Written, Abandoned, Replayed, Tended, Returned, Handed;
  }

  /** In every run from a first start the overflow store holds only lines it was given. */
  lemma {:induction false} RunsKeepOnlySpilled(u: Setup, at: nat, trace: seq<Core>, steps: seq<Step>, i: nat)
    requires at <= |u.file| && IsRun(u, trace, steps) && trace[0] == Opened(u, at) && i < |trace|
    ensures OnlySpilled(trace[i])
  {
    if i > 0 {
      hide OnlySpilled, Enabled, Possible, Next;
      RunsKeepOnlySpilled(u, at, trace, steps, i - 1);
      StepKeepsOnlySpilled(u, trace[i - 1], steps[i - 1]);
    }
  }

  // ------------------------------------------------------- sessions that bring nothing back

  predicate Finishes(op: Upkeep) {
    op.Rotate? || op.Reset?
  }

  /** No reopen, and unless allowed no append finds the buffer full and no overflow file is finished. */
  ghost predicate Allowed(steps: seq<Step>, spills: bool, rotations: bool) {
    forall i :: 0 <= i < |steps| ==> IsAllowed(steps[i], spills, rotations)
  }

  predicate IsAllowed(step: Step, spills: bool, rotations: bool) {
    && !step.Restart? && (Stores(step) && step.outcome.NoRoom? ==> spills)
    && (step.Tend? && Finishes(step.op) ==> rotations)
  }

  lemma {:induction false} StepAddsNoRecord(u: Setup, s: Core, step: Step)
    requires Enabled(u, s, step) && IsAllowed(step, false, true) && Within(s.onDisk, [])
    ensures Within(Next(u, s, step).onDisk, []) && BringsNothingBack(step)
  {
    if Stores(step) {
      StoringStep(u, s, step);
    } else if step.DrainAndReplay? {
      ReplayedWithin(s.onDisk, REPLAY_BATCH, []);
      NothingToReturn(s.onDisk, REPLAY_BATCH);
    } else if step.Tend? {
      TendedWithin(s.onDisk, step.op, []);
    }
    hide Within, Records, Written, Replayed, Tended, Returned, Handed;
  }

  lemma {:induction false} OneMoreStep(steps: seq<Step>, i: nat)
    requires i < |steps| && NoReplay(steps[..i]) && BringsNothingBack(steps[i])
    ensures NoReplay(steps[..i + 1])
  {
    assert forall j :: 0 <= j < i ==> steps[..i + 1][j] == steps[..i][j];
  }

  lemma {:induction false} NothingYet(steps: seq<Step>)
    ensures NoReplay(steps[..0])
  {
  }

  lemma {:induction false} SessionAt(u: Setup, trace: seq<Core>, steps: seq<Step>, i: nat, spills: bool,
      rotations: bool)
    requires IsSession(u, trace, steps) && Allowed(steps, spills, rotations) && i + 1 < |trace|
    ensures i < |steps| && Enabled(u, trace[i], steps[i]) && trace[i + 1] == Next(u, trace[i], steps[i])
    ensures IsAllowed(steps[i], spills, rotations)
  {
    hide Next, Enabled, Possible, IsAllowed;
  }

  /** While no line is spilled, a store without records stays without. */
  lemma {:induction false} NoRecordNoReplay(u: Setup, trace: seq<Core>, steps: seq<Step>, i: nat)
    requires IsSession(u, trace, steps) && Allowed(steps, false, true) && Within(trace[0].onDisk, []) && i < |trace|
    ensures Within(trace[i].onDisk, []) && NoReplay(steps[..i])
  {
    hide Within, Enabled, Possible, Next, NoReplay, BringsNothingBack, IsAllowed, SessionStart, IsSession, Allowed;
    if i == 0 {
      NothingYet(steps);
    } else {
      SessionAt(u, trace, steps, i - 1, false, true);
      NoRecordNoReplay(u, trace, steps, i - 1);
      StepAddsNoRecord(u, trace[i - 1], steps[i - 1]);
      OneMoreStep(steps, i - 1);
    }
  }

  lemma {:induction false} StepFinishesNothing(u: Setup, s: Core, step: Step)
    requires Enabled(u, s, step) && IsAllowed(step, true, false) && s.onDisk.finished == []
    ensures Next(u, s, step).onDisk.finished == [] && BringsNothingBack(step)
  {
    if Stores(step) {
      StoringStep(u, s, step);
    }
    hide Handed;
  }

  /** While no file is finished, a store without finished files is never replayed. */
  lemma {:induction false} NothingFinishedNoReplay(u: Setup, trace: seq<Core>, steps: seq<Step>, i: nat)
    requires IsSession(u, trace, steps) && Allowed(steps, true, false) && trace[0].onDisk.finished == [] && i < |trace|
    ensures trace[i].onDisk.finished == [] && NoReplay(steps[..i])
  {
    hide Enabled, Possible, Next, NoReplay, BringsNothingBack, IsAllowed, SessionStart, IsSession, Allowed;
    if i == 0 {
      NothingYet(steps);
    } else {
      SessionAt(u, trace, steps, i - 1, true, false);
      NothingFinishedNoReplay(u, trace, steps, i - 1);
      StepFinishesNothing(u, trace[i - 1], steps[i - 1]);
      OneMoreStep(steps, i - 1);
    }
  }

  /** Every session from `s` of the given kind has everything below its checkpoint delivered. */
  ghost predicate DeliversWith(u: Setup, s: Core, spills: bool, rotations: bool) {
    forall trace, steps :: IsSession(u, trace, steps) && Allowed(steps, spills, rotations) && trace[0] == s ==>
      CheckpointDelivered(u, trace[|trace| - 1])
  }

  // ----------------------------------------------------------- a line that comes back

  /** How a spilled group looks in the queue again. */
  ghost function Back(g: Emission): Emission {
    Emission(Unspecified, g.lines)
  }

  /** Line `q` is all that is queued, under the only batch tracked. */
  ghost predicate Loaded(u: Setup, e: Core, before: Tracker, q: nat) {
    && q < |u.file| && |e.queue| == 1 && e.queue[0].group == Alone(u, q) && before.batches == []
    && e.tracker == Tracked(before, FirstStart(Alone(u, q)), LastEnd(Alone(u, q)), u.inode, e.queue[0].sequence,
                            e.queue[0].sequence)
    && AllIdle(e.slots) && !e.blocked && !e.closing
  }

  /** `e` with its line delivered, its checkpoint saved and the group `g` queued, untracked. */
  ghost predicate CameBack(u: Setup, e: Core, q: nat, g: Emission, f: Core)
    requires q < |u.file|
  {
    && |f.queue| == 1 && f.queue[0].group == Back(g) && f.tracker.batches == []
    && f.settled == e.settled + {Line(u, q)} && f.spilled == e.spilled && f.dropped == e.dropped
    && f.position == e.position && f.origin == e.origin && f.slots == e.slots && !f.blocked && !f.closing
  }

  lemma {:induction false} OneEntry(u: Setup, queue: seq<Entry>, q: nat)
    requires q < |u.file| && |queue| == 1 && queue[0].group == Alone(u, q)
    ensures EntryLines(queue[..1]) == {Line(u, q)} && queue[1..] == []
  {
    assert queue[..1][0].group.lines == [Line(u, q)];
  }

  lemma {:induction false} ComesBack(u: Setup, e: Core, before: Tracker, q: nat)
    requires Loaded(u, e, before, q) && Returned(e.onDisk, REPLAY_BATCH) != []
    ensures
      var f := AfterSave(u, AfterReplay(AfterDrain(e, 1, false), 1), true);
      CameBack(u, e, q, Returned(e.onDisk, REPLAY_BATCH)[0], f)
  {
    hide Returned, Replayed, EntryLines, AllIdle, BufferedStart, LineOf, Drained, Safe;
    OneEntry(u, e.queue, q);
    var g := Alone(u, q);
    AckedAlone(before, FirstStart(g), LastEnd(g), u.inode, e.queue[0].sequence);
    var x := AfterReplay(AfterDrain(e, 1, false), 1);
    assert x.queue == [Entry(e.lastSequence + 1, Back(Returned(e.onDisk, REPLAY_BATCH)[0]))];
    assert CheckpointOffset(u, x).Some?;
  }

  lemma {:induction false} MayComeBack(u: Setup, e: Core, before: Tracker, q: nat, r: nat)
    requires Loaded(u, e, before, q) && u.overflow && e.onDisk.finished != [] && r < |u.file|
    requires Returned(e.onDisk, REPLAY_BATCH) != []
    requires u.rowBytes(Back(Returned(e.onDisk, REPLAY_BATCH)[0])) + u.rowBytes(Alone(u, r)) <= u.maxBytes
    ensures Enabled(u, e, DrainAndReplay(1, false, 1)) && Possible(u, e, DrainAndReplay(1, false, 1))
    ensures |e.queue| == 1 && 1 <= |Returned(AfterDrain(e, 1, false).onDisk, REPLAY_BATCH)|
    ensures Next(u, e, DrainAndReplay(1, false, 1)) == AfterReplay(AfterDrain(e, 1, false), 1)
  {
    hide Returned;
    var g := Returned(e.onDisk, REPLAY_BATCH)[0];
    assert Returned(e.onDisk, REPLAY_BATCH)[..1] == [g];
    assert Untagged([g]) == [Back(g)];
    RoomForOne(u, Back(g));
  }

  lemma {:induction false} StillFresh(u: Setup, e: Core, before: Tracker, q: nat, g: Emission, f: Core, r: nat)
    requires Loaded(u, e, before, q) && CameBack(u, e, q, g, f) && FreshLine(u, e, r) && g in e.spilled
    ensures FreshLine(u, f, r)
  {
    hide BlankSkipped, LineOf;
    assert Line(u, r) !in g.lines;
    assert Line(u, q) in e.queue[0].group.lines;
    assert Line(u, r) != Line(u, q);
    forall h | h in EntryLines(f.queue)
      ensures h in g.lines
    {
    }
  }

  /** The line comes back in place of the one delivered, and the next one stored is acknowledged for it. */
  lemma {:induction false} ReturnAcksTheWrongLine(u: Setup, e: Core, before: Tracker, q: nat, r: nat, now: int)
      returns (trace: seq<Core>, steps: seq<Step>)
    requires Proper(u) && u.overflow && Loaded(u, e, before, q) && OnlySpilled(e)
    requires e.onDisk.finished != [] && Returned(e.onDisk, REPLAY_BATCH) != []
    requires NextKept(u, e.position, r) && FreshLine(u, e, r)
    requires u.rowBytes(Back(Returned(e.onDisk, REPLAY_BATCH)[0])) + u.rowBytes(Alone(u, r)) <= u.maxBytes
    ensures IsRun(u, trace, steps) && trace[0] == e && Allowed(steps, false, false)
    ensures !CheckpointDelivered(u, trace[|trace| - 1])
  {
    hide *;
    KeptIsLine(u, e.position, r);
    var g := Returned(e.onDisk, REPLAY_BATCH)[0];
    var back: Step := DrainAndReplay(1, false, 1);
    MayComeBack(u, e, before, q, r);
    ComesBack(u, e, before, q);
    var f := AfterSave(u, Next(u, e, back), true);
    trace, steps := ReplayThenSave(u, e, back);
    ReturnedWasSpilled(e);
    StillFresh(u, e, before, q, g, f, r);
    BackIsUntracked(u, e, before, q, g, f, r);
    var trace', steps' := WrongLineAcked(u, f, r, now);
    RunStarts(u, trace', steps');
    JoinRuns(u, trace, steps, trace', steps');
    PlainIsAllowed(steps', false, false);
    AllowedJoin(steps, steps', false, false);
    LastOfJoin(trace, trace');
    trace, steps := trace + trace'[1..], steps + steps';
  }

  lemma {:induction false} ReplayThenSave(u: Setup, e: Core, back: Step) returns (trace: seq<Core>, steps: seq<Step>)
    requires Enabled(u, e, back) && Possible(u, e, back) && back.DrainAndReplay?
    ensures IsRun(u, trace, steps) && |trace| == 3 && trace[0] == e && Allowed(steps, false, false)
    ensures trace[2] == AfterSave(u, Next(u, e, back), true)
  {
    hide IsRun, Enabled, Possible, Next, AfterSave;
    var x := Next(u, e, back);
    RunOfNothing(u, e);
    ExtendRun(u, [e], [], back);
    assert [e] + [x] == [e, x] && [] + [back] == [back];
    ThenSave(u, [e, x], [back], x);
    trace, steps := [e, x] + [AfterSave(u, x, true)], [back] + [SaveCheckpoint(true)];
  }

  lemma {:induction false} ReturnedWasSpilled(e: Core)
    requires OnlySpilled(e) && Returned(e.onDisk, REPLAY_BATCH) != []
    ensures Returned(e.onDisk, REPLAY_BATCH)[0] in e.spilled
  {
    ReplayedWithin(e.onDisk, REPLAY_BATCH, e.spilled);
    hide Returned;
  }

  lemma {:induction false} BackIsUntracked(u: Setup, e: Core, before: Tracker, q: nat, g: Emission, f: Core, r: nat)
    requires Loaded(u, e, before, q) && CameBack(u, e, q, g, f) && r < |u.file|
    requires u.rowBytes(Back(g)) + u.rowBytes(Alone(u, r)) <= u.maxBytes
    ensures f.tracker.batches == [] && f.queue != [] && AllIdle(f.slots) && !f.blocked && !f.closing
    ensures f.position == e.position && Room(u, f.queue, [Alone(u, r)])
  {
    hide AllIdle;
    assert f.queue == [f.queue[0]];
    RoomBehindOne(u, f.queue[0], Alone(u, r));
  }

  lemma {:induction false} PlainIsAllowed(steps: seq<Step>, spills: bool, rotations: bool)
    requires Plain(steps)
    ensures Allowed(steps, spills, rotations)
  {
    assert forall i :: 0 <= i < |steps| ==> IsPlain(steps[i]);
  }

  lemma {:induction false} AllowedJoin(a: seq<Step>, b: seq<Step>, spills: bool, rotations: bool)
    requires Allowed(a, spills, rotations) && Allowed(b, spills, rotations)
    ensures Allowed(a + b, spills, rotations)
  {
  }

  // --------------------------------------------------------- lines left over by earlier runs

  lemma {:induction false} StoredIsLoaded(u: Setup, s: Core, q: nat, e: Core)
    requires q < |u.file| && s.queue == [] && s.tracker.batches == [] && !s.blocked && !s.closing
    requires StoredOne(u, s, q, e) && AllIdle(e.slots)
    ensures Loaded(u, e, s.tracker, q)
  {
    hide AllIdle, Ceiling;
  }

  /** A first line is stored on an empty queue. */
  lemma {:induction false} LoadOne(u: Setup, s: Core, q: nat) returns (trace: seq<Core>, steps: seq<Step>)
    requires Proper(u) && SessionStart(s) && s.queue == [] && NextKept(u, s.position, q) && Room(u, [], [Alone(u, q)])
    ensures IsRun(u, trace, steps) && trace[0] == s && Plain(steps) && |trace| > 0
    ensures q < |u.file| && StoredOne(u, s, q, trace[|trace| - 1]) && Loaded(u, trace[|trace| - 1], s.tracker, q)
  {
    hide *;
    KeptIsLine(u, s.position, q);
    StartIsIdle(s);
    StartTracksNothing(s);
    StoredAllowed(u, [], Alone(u, q));
    var slots;
    trace, steps, slots := TakeNext(u, s, q, 0, Stored);
    RunStarts(u, trace, steps);
    StoresArePlain(steps);
    StoreIsOne(u, s, q, slots);
    StoredSlots(u, s, q, slots);
    StoredIsLoaded(u, s, q, trace[|trace| - 1]);
  }

  lemma {:induction false} StartTracksNothing(s: Core)
    requires SessionStart(s)
    ensures s.tracker.batches == [] && s.onDisk.active.None?
  {
  }

  /** Line `r` is next behind `q`, and nothing is known of it. */
  ghost predicate FreshBehind(u: Setup, s: Core, q: nat, r: nat) {
    q < r && FreshLine(u, s, r)
  }

  lemma {:induction false} FreshAfterStore(u: Setup, s: Core, q: nat, e: Core, r: nat)
    requires Proper(u) && q < |u.file| && FreshBehind(u, s, q, r) && StoredOne(u, s, q, e) && s.queue == []
    ensures FreshLine(u, e, r) && e.position == q + 1
  {
    hide LinesIn, BlankSkipped, Ceiling;
    StartsOrder(u.file, q, r);
    assert e.queue == [Entry(s.lastSequence + 1, Alone(u, q))];
    assert Line(u, r) != Line(u, q);
  }

  /** The oldest line of a finished file comes back behind a delivered one. */
  lemma {:induction false} LeftoverBreaksDelivery(u: Setup, s: Core, q: nat, r: nat)
      returns (trace: seq<Core>, steps: seq<Step>)
    requires Proper(u) && u.overflow && SessionStart(s) && s.queue == [] && OnlySpilled(s)
    requires NextKept(u, s.position, q) && NextKept(u, q + 1, r) && FreshLine(u, s, r)
    requires Flatten(s.onDisk.finished) != [] && RoomFor(u, q, Flatten(s.onDisk.finished)[0], r)
    ensures IsSession(u, trace, steps) && Allowed(steps, false, false) && trace[0] == s
    ensures !CheckpointDelivered(u, trace[|trace| - 1])
  {
    hide *;
    KeptIsLine(u, s.position, q);
    KeptIsLine(u, q + 1, r);
    RoomParts(u, q, Flatten(s.onDisk.finished)[0], r);
    trace, steps := LoadOne(u, s, q);
    var e := trace[|trace| - 1];
    PlainIsAllowed(steps, false, false);
    SameFiles(u, s, q, e);
    Behind(u, s, q, r);
    FreshAfterStore(u, s, q, e, r);
    OldestReturns(s.onDisk);
    var trace', steps' := ReturnAcksTheWrongLine(u, e, s.tracker, q, r, Later(u, 0));
    RunStarts(u, trace', steps');
    JoinRuns(u, trace, steps, trace', steps');
    AllowedJoin(steps, steps', false, false);
    LastOfJoin(trace, trace');
    trace, steps := trace + trace'[1..], steps + steps';
    AllowedSession(u, trace, steps, false, false);
  }

  /** The buffer has room for line `q`, and for line `r` behind the group once it is back. */
  ghost predicate RoomFor(u: Setup, q: nat, g: Emission, r: nat) {
    && q < |u.file| && r < |u.file| && u.rowBytes(Alone(u, q)) <= u.maxBytes
    && u.rowBytes(Back(g)) + u.rowBytes(Alone(u, r)) <= u.maxBytes
  }

  lemma {:induction false} RoomParts(u: Setup, q: nat, g: Emission, r: nat)
    requires RoomFor(u, q, g, r)
    ensures q < |u.file| && r < |u.file| && Room(u, [], [Alone(u, q)])
    ensures u.rowBytes(Back(g)) + u.rowBytes(Alone(u, r)) <= u.maxBytes
  {
    RoomForOne(u, Alone(u, q));
  }

  lemma {:induction false} SameFiles(u: Setup, s: Core, q: nat, e: Core)
    requires q < |u.file| && StoredOne(u, s, q, e)
    ensures e.onDisk == s.onDisk && (OnlySpilled(s) ==> OnlySpilled(e))
  {
  }

  lemma {:induction false} Behind(u: Setup, s: Core, q: nat, r: nat)
    requires q < r && FreshLine(u, s, r)
    ensures FreshBehind(u, s, q, r)
  {
  }

  lemma {:induction false} OldestReturns(f: Files<Emission>)
    requires Flatten(f.finished) != []
    ensures f.finished != [] && Returned(f, REPLAY_BATCH) != []
    ensures Returned(f, REPLAY_BATCH)[0] == Flatten(f.finished)[0]
  {
    ReplayReachesARecord(f, REPLAY_BATCH);
  }

  lemma {:induction false} AllowedSession(u: Setup, trace: seq<Core>, steps: seq<Step>, spills: bool, rotations: bool)
    requires IsRun(u, trace, steps) && SessionStart(trace[0]) && Allowed(steps, spills, rotations)
    ensures IsSession(u, trace, steps)
  {
  }

  /**
   Replays included, but nothing spilled: a session whose events keep file order always has everything
   below its checkpoint delivered, or handed to the overflow store, if and only if it starts on an
   empty queue and, where there is an overflow store, with no line in a finished file of it.
   */
  lemma {:induction false} DeliversExactlyWithoutLeftovers(u: Setup, s: Core, q: nat, r: nat)
    requires Proper(u) && KeepsFileOrder(u) && Inv(u, s) && SessionStart(s) && OnlySpilled(s)
    requires CheckpointDelivered(u, s) && FreshLineNext(u, s, q) && NextKept(u, q + 1, r) && FreshLine(u, s, r)
    requires Flatten(s.onDisk.finished) != [] ==> RoomFor(u, q, Flatten(s.onDisk.finished)[0], r)
    ensures DeliversWith(u, s, false, true) <==> s.queue == [] && !(u.overflow && Flatten(s.onDisk.finished) != [])
  {
    hide Inv, CheckpointDelivered, KeepsFileOrder, SessionStart, NextKept, FreshLine, OnlySpilled, Plain, Allowed,
      RoomFor, Flatten, Enabled, Possible, Next, NoReplay;
    NextIsKept(u, s, q);
    if s.queue != [] {
      var trace, steps := BacklogBreaksDelivery(u, s, q);
      PlainIsAllowed(steps, false, true);
      assert !DeliversWith(u, s, false, true);
    } else if u.overflow && Flatten(s.onDisk.finished) != [] {
      var trace, steps := LeftoverBreaksDelivery(u, s, q, r);
      AllowedMore(steps);
      assert !DeliversWith(u, s, false, true);
    } else {
      forall trace: seq<Core>, steps: seq<Step> |
        IsSession(u, trace, steps) && Allowed(steps, false, true) && trace[0] == s
        ensures CheckpointDelivered(u, trace[|trace| - 1])
      {
        NothingLeftDelivers(u, trace, steps);
      }
    }
  }

  lemma {:induction false} NextIsKept(u: Setup, s: Core, q: nat)
    requires FreshLineNext(u, s, q)
    ensures NextKept(u, s.position, q)
  {
  }

  lemma {:induction false} AllowedMore(steps: seq<Step>)
    requires Allowed(steps, false, false)
    ensures Allowed(steps, false, true)
  {
    assert forall i :: 0 <= i < |steps| ==> IsAllowed(steps[i], false, false);
  }

  lemma {:induction false} NothingLeftDelivers(u: Setup, trace: seq<Core>, steps: seq<Step>)
    requires Proper(u) && KeepsFileOrder(u) && IsSession(u, trace, steps) && Allowed(steps, false, true)
    requires Inv(u, trace[0]) && CheckpointDelivered(u, trace[0]) && trace[0].queue == []
    requires !u.overflow || Flatten(trace[0].onDisk.finished) == []
    ensures CheckpointDelivered(u, trace[|trace| - 1])
  {
    hide Inv, CheckpointDelivered, KeepsFileOrder, Flatten, Next, Enabled, Possible;
    var n := |steps|;
    if u.overflow {
      NoRecordNoReplay(u, trace, steps, n);
      assert steps[..n] == steps;
    } else {
      NoStoreNoReplay(u, trace, steps);
    }
    EmptyStartDelivers(u, trace, steps, n);
  }

  // ----------------------------------------------------------- a file finished meanwhile

  /** `e` with line `p` spilled into a file that has been finished since. */
  ghost function SpilledAndRotated(u: Setup, e: Core, p: nat, slots: seq<StreamSlot>): Core
    requires p < |u.file|
  {
    e.(position := p + 1, slots := slots, onDisk := Files([[Alone(u, p)]], Some([])),
       spilled := e.spilled + [Alone(u, p)])
  }

  lemma {:induction false} SpillsThenRotates(u: Setup, e: Core, p: nat, slots: seq<StreamSlot>)
    requires u.overflow && p < |u.file| && e.onDisk == NoFiles()
    ensures
      var a := Store(u, e.(position := p + 1, slots := slots), [Alone(u, p)], NoRoom({0}));
      && Enabled(u, a, Tend(Rotate(1))) && Possible(u, a, Tend(Rotate(1)))
      && Next(u, a, Tend(Rotate(1))) == SpilledAndRotated(u, e, p, slots)
  {
    var g := Alone(u, p);
    assert [g][..0] == [];
    assert Picked(u, [], {0}, true) == [] && Picked(u, [], {0}, false) == [];
    assert [] + [g] == [g] && [g][..1] == [g] && [g][1..] == [];
    LinesInNone();
    var files: seq<seq<Emission>> := [];
    assert files + [[g]] == [[g]];
    assert e.dropped + {} == e.dropped;
    hide LinesIn;
  }

  lemma {:induction false} RotatedIsLoaded(u: Setup, e: Core, before: Tracker, q: nat, p: nat, r: nat,
      slots: seq<StreamSlot>)
    requires Proper(u) && Loaded(u, e, before, q) && p < r && FreshLine(u, e, r) && AllIdle(slots)
    ensures
      var f := SpilledAndRotated(u, e, p, slots);
      && Loaded(u, f, before, q) && FreshLine(u, f, r) && OnlySpilled(f) && f.position == p + 1
      && Flatten(f.onDisk.finished) == [Alone(u, p)]
  {
    hide AllIdle, BlankSkipped;
    var g := Alone(u, p);
    StartsOrder(u.file, p, r);
    LinesInBoth(e.spilled, [g]);
    assert Line(u, r) !in LinesIn([g]) by {
      assert [g][0].lines == [Line(u, p)];
    }
    hide LinesIn, EntryLines, StartOf;
    assert [[g]][1..] == [] && Flatten([[g]]) == [g];
  }

  /** The buffer has no room for line `p` behind line `q`. */
  ghost predicate Crowded(u: Setup, q: nat, p: nat) {
    q < |u.file| && p < |u.file| && u.rowBytes(Alone(u, q)) + u.rowBytes(Alone(u, p)) > u.maxBytes
  }

  lemma {:induction false} NoRoomAllowed(u: Setup, e: Core, before: Tracker, q: nat, p: nat)
    requires Loaded(u, e, before, q) && Crowded(u, q, p)
    ensures Allows(u, e.queue, [Alone(u, p)], NoRoom({0}))
    ensures AllIdle(e.slots) && !e.blocked && !e.closing
  {
    hide AllIdle;
    assert e.queue == [e.queue[0]];
    RoomBehindOne(u, e.queue[0], Alone(u, p));
  }

  /** A spilled line's file is finished at once, and the line comes back behind a delivered one. */
  lemma {:induction false} SpillAndRotate(u: Setup, e: Core, before: Tracker, q: nat, p: nat)
      returns (trace: seq<Core>, steps: seq<Step>, slots: seq<StreamSlot>)
    requires Proper(u) && u.overflow && Loaded(u, e, before, q) && e.onDisk == NoFiles()
    requires NextKept(u, e.position, p) && Crowded(u, q, p)
    ensures IsRun(u, trace, steps) && trace[0] == e && Allowed(steps, true, true) && AllIdle(slots) && p < |u.file|
    ensures trace[|trace| - 1] == SpilledAndRotated(u, e, p, slots)
  {
    hide *;
    KeptIsLine(u, e.position, p);
    NoRoomAllowed(u, e, before, q, p);
    trace, steps, slots := TakeNext(u, e, p, Later(u, 0), NoRoom({0}));
    RunStarts(u, trace, steps);
    StoresAreAllowed(steps);
    SpillsThenRotates(u, e, p, slots);
    ExtendRun(u, trace, steps, Tend(Rotate(1)));
    AllowedJoin(steps, [Tend(Rotate(1))], true, true);
    trace, steps := trace + [Next(u, trace[|trace| - 1], Tend(Rotate(1)))], steps + [Tend(Rotate(1))];
  }

  lemma {:induction false} StoresAreAllowed(steps: seq<Step>)
    requires OnlyStores(steps)
    ensures Allowed(steps, true, true) && Allowed([Tend(Rotate(1))], true, true)
  {
  }

  /**
   A line is stored, the next one finds no room and is spilled, and its file is finished before the
   first one is delivered. The spilled line comes back in that drain, and the line stored behind it is
   acknowledged when it is shipped.
   */
  lemma {:induction false} RotationBreaksDelivery(u: Setup, s: Core, q: nat, p: nat, r: nat)
      returns (trace: seq<Core>, steps: seq<Step>)
    requires Proper(u) && u.overflow && SessionStart(s) && s.queue == [] && s.onDisk.finished == []
    requires NextKept(u, s.position, q) && NextKept(u, q + 1, p) && NextKept(u, p + 1, r) && FreshLine(u, s, r)
    requires Crowded(u, q, p) && RoomFor(u, q, Alone(u, p), r)
    ensures IsSession(u, trace, steps) && Allowed(steps, true, true) && trace[0] == s
    ensures !CheckpointDelivered(u, trace[|trace| - 1])
  {
    hide *;
    KeptIsLine(u, s.position, q);
    KeptIsLine(u, q + 1, p);
    KeptIsLine(u, p + 1, r);
    RoomParts(u, q, Alone(u, p), r);
    trace, steps := LoadOne(u, s, q);
    var e := trace[|trace| - 1];
    PlainIsAllowed(steps, true, true);
    SameFiles(u, s, q, e);
    StartTracksNothing(s);
    Behind(u, s, q, r);
    FreshAfterStore(u, s, q, e, r);
    NoFilesAtAll(s.onDisk);
    var trace1, steps1, slots := SpillAndRotate(u, e, s.tracker, q, p);
    RunStarts(u, trace1, steps1);
    RotatedIsLoaded(u, e, s.tracker, q, p, r, slots);
    var f := SpilledAndRotated(u, e, p, slots);
    OldestReturns(f.onDisk);
    var trace2, steps2 := ReturnAcksTheWrongLine(u, f, s.tracker, q, r, Later(u, Later(u, 0)));
    RunStarts(u, trace2, steps2);
    AllowedAll(steps2);
    JoinRuns(u, trace, steps, trace1, steps1);
    AllowedJoin(steps, steps1, true, true);
    LastOfJoin(trace, trace1);
    trace, steps := trace + trace1[1..], steps + steps1;
    JoinRuns(u, trace, steps, trace2, steps2);
    AllowedJoin(steps, steps2, true, true);
    LastOfJoin(trace, trace2);
    trace, steps := trace + trace2[1..], steps + steps2;
    AllowedSession(u, trace, steps, true, true);
  }

  lemma {:induction false} NoFilesAtAll(f: Files<Emission>)
    requires f.finished == [] && f.active.None?
    ensures f == NoFiles()
  {
  }

  lemma {:induction false} AllowedAll(steps: seq<Step>)
    requires Allowed(steps, false, false)
    ensures Allowed(steps, true, true)
  {
    assert forall i :: 0 <= i < |steps| ==> IsAllowed(steps[i], false, false);
  }

  /**
   A session that starts on an empty queue with no finished overflow file, whatever it spills: it
   always has everything below its checkpoint delivered, or handed to the overflow store, if and only
   if no overflow file is finished while it runs.
   */
  lemma {:induction false} DeliversExactlyWithoutRotation(u: Setup, s: Core, q: nat, p: nat, r: nat, rotations: bool)
    requires Proper(u) && u.overflow && KeepsFileOrder(u) && Inv(u, s) && SessionStart(s) && CheckpointDelivered(u, s)
    requires s.queue == [] && s.onDisk.finished == []
    requires NextKept(u, s.position, q) && NextKept(u, q + 1, p) && NextKept(u, p + 1, r) && FreshLine(u, s, r)
    requires Crowded(u, q, p) && RoomFor(u, q, Alone(u, p), r)
    ensures DeliversWith(u, s, true, rotations) <==> !rotations
  {
    hide Inv, CheckpointDelivered, KeepsFileOrder, SessionStart, NextKept, FreshLine, Allowed, RoomFor, Crowded,
      Enabled, Possible, Next, NoReplay;
    if rotations {
      var trace, steps := RotationBreaksDelivery(u, s, q, p, r);
      assert !DeliversWith(u, s, true, true);
    } else {
      forall trace: seq<Core>, steps: seq<Step> |
        IsSession(u, trace, steps) && Allowed(steps, true, false) && trace[0] == s
        ensures CheckpointDelivered(u, trace[|trace| - 1])
      {
        NothingFinishedNoReplay(u, trace, steps, |steps|);
        assert steps[..|steps|] == steps;
        EmptyStartDelivers(u, trace, steps, |steps|);
      }
    }
  }
}
