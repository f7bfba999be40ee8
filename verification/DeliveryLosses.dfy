/** Which runs lose a line below the saved checkpoint: exactly those whose appends can be refused. */
module DeliveryLosses {
  import opened Common
  import opened LogFiles
  import opened BatchTracking
  import opened StreamAssembly
  import opened StreamAssemblyRuns
  import opened DeliveryProtocol
  import opened DeliverySafety
  import opened DeliverySessions
  import opened DeliveryLimits
  import opened DeliveryBreaks

  /** Every reopen resumes, and unless refusals are possible no append refuses a line. */
  ghost predicate Resuming(u: Setup, trace: seq<Core>, steps: seq<Step>, refusals: bool) {
    && IsRun(u, trace, steps)
    && forall i :: 0 <= i < |steps| ==>
         && (Stores(steps[i]) ==> refusals || KeepsGroups(u, trace[i], steps[i]))
         && (steps[i].Restart? ==> Resumes(u, trace[i]))
  }

  /** Line `k` is gone: not settled, not queued, not with the overflow store and not a skipped blank. */
  ghost predicate IsLost(u: Setup, s: Core, k: nat)
    requires k < |u.file|
  {
    && Line(u, k) !in s.settled && Line(u, k) !in EntryLines(s.queue) && Line(u, k) !in LinesIn(s.spilled)
    && !BlankSkipped(u, k)
  }

  /** No line from `at` on below the saved checkpoint is lost. */
  ghost predicate LosesNothing(u: Setup, at: nat, s: Core) {
    s.checkpoint.Some? ==> forall k :: at <= k < LinesBelow(u.file, s.checkpoint.value) ==> !IsLost(u, s, k)
  }

  /** The buffer does not take a line on its own, and neither does the overflow store. */
  predicate Refuses(u: Setup, outcome: StoreOutcome) {
    outcome.StoreFailed? || (outcome.NoRoom? && !(u.overflow && 0 in outcome.spills))
  }

  // -------------------------------------------------------------- a run that loses a line

  /** The state after a refused line and a drain of what was queued: the line is behind the reader, nowhere else. */
  ghost predicate PassedOver(u: Setup, s: Core, p: nat, r: Core) {
    && r.settled == s.settled + EntryLines(s.queue) && r.spilled == s.spilled && r.position == p + 1 && Ready(r)
  }

  lemma {:induction false} RefusedPassesOver(u: Setup, s: Core, p: nat, slots: seq<StreamSlot>, outcome: StoreOutcome)
    requires p < |u.file| && Refuses(u, outcome) && AllIdle(slots) && s.tracker == EmptyTracker && !s.closing
    ensures
      var a := Store(u, s.(position := p + 1, slots := slots), [Alone(u, p)], outcome);
      a.queue == s.queue && PassedOver(u, s, p, AfterDrain(a, |s.queue|, true))
  {
    var g := Alone(u, p);
    if outcome.NoRoom? {
      assert [g][..0] == [];
      assert Picked(u, [g], outcome.spills, true) == [] && s.spilled + [] == s.spilled;
    }
    AckingNothing(|s.queue|);
    assert s.queue[..|s.queue|] == s.queue;
    hide AllIdle, EntryLines;
  }

  /** Nothing tracked, queued or held, and the reader is free to go on. */
  ghost predicate Ready(s: Core) {
    s.tracker.batches == [] && s.queue == [] && AllIdle(s.slots) && !s.blocked && !s.closing
  }

  /** `b` with line `q` delivered and the checkpoint after it. */
  ghost predicate DeliveredOne(u: Setup, b: Core, q: nat, f: Core)
    requires q < |u.file|
  {
    && f.checkpoint == Some(StartOf(u.file, q + 1)) && f.position == q + 1 && f.settled == b.settled + {Line(u, q)}
    && f.queue == [] && f.tracker.batches == [] && f.blocked == b.blocked && f.closing == b.closing
    && f.spilled == b.spilled && f.dropped == b.dropped && f.origin == b.origin
  }

  /** The only line stored, once delivered, is where the checkpoint goes. */
  lemma {:induction false} DeliversOne(u: Setup, b: Core, q: nat, r: Core)
    requires q < |u.file| && b.tracker.batches == [] && b.queue == [] && StoredOne(u, b, q, r)
    ensures |r.queue| == 1
    ensures DeliveredOne(u, b, q, AfterSave(u, AfterDrain(r, 1, false), true))
    ensures AfterSave(u, AfterDrain(r, 1, false), true).slots == r.slots
  {
    var g := Alone(u, q);
    AckedAlone(b.tracker, FirstStart(g), LastEnd(g), u.inode, b.lastSequence + 1);
    var d := AfterDrain(r, 1, false);
    assert Ceiling(u, d) == Ceiling(u, r);
    assert EntryLines(r.queue[..1]) == {Line(u, q)} by {
      assert r.queue == [Entry(b.lastSequence + 1, g)];
      assert r.queue[..1][0].group.lines == [Line(u, q)];
    }
  }

  lemma {:induction false} LostAfterDelivery(u: Setup, s: Core, b: Core, p: nat, q: nat, f: Core)
    requires Proper(u) && p < q < |u.file| && PassedOver(u, s, p, b) && !BlankSkipped(u, p) && DeliveredOne(u, b, q, f)
    requires Line(u, p) !in s.settled && Line(u, p) !in EntryLines(s.queue) && Line(u, p) !in LinesIn(s.spilled)
    ensures f.checkpoint.Some? && p < LinesBelow(u.file, f.checkpoint.value) && IsLost(u, f, p)
  {
    BoundaryLine(u.file, q + 1);
    StartsOrder(u.file, p, q);
    assert EntryLines(f.queue) == {};
    hide LinesBelow, StartOf, AllIdle, LinesIn, EntryLines;
  }

  lemma {:induction false} StoresNeverRestart(steps: seq<Step>)
    requires OnlyStores(steps)
    ensures NoRestart(steps)
  {
  }

  lemma {:induction false} NoRestartJoin(a: seq<Step>, b: seq<Step>)
    requires NoRestart(a) && NoRestart(b)
    ensures NoRestart(a + b)
  {
  }

  /** The refused line: read, refused and left behind while the queue is worked off. */
  lemma {:induction false} RefuseLine(u: Setup, s: Core, p: nat, outcome: StoreOutcome)
      returns (trace: seq<Core>, steps: seq<Step>)
    requires Proper(u) && AllIdle(s.slots) && s.tracker == EmptyTracker && !s.blocked && !s.closing
    requires NextKept(u, s.position, p) && Refuses(u, outcome) && Allows(u, s.queue, [Alone(u, p)], outcome)
    ensures IsRun(u, trace, steps) && trace[0] == s && NoRestart(steps)
    ensures PassedOver(u, s, p, trace[|trace| - 1])
  {
    hide *;
    var slots;
    trace, steps, slots := TakeNext(u, s, p, 0, outcome);
    RunStarts(u, trace, steps);
    StoresNeverRestart(steps);
    KeptIsLine(u, s.position, p);
    RefusedPassesOver(u, s, p, slots, outcome);
    var a, n := trace[|trace| - 1], |s.queue|;
    ThenDrain(u, trace, steps, a, n, true);
    OneStep(Drain(n, true));
    NoRestartJoin(steps, [Drain(n, true)]);
    trace, steps := trace + [AfterDrain(a, n, true)], steps + [Drain(n, true)];
  }

  lemma {:induction false} OneStep(step: Step)
    requires !step.Restart?
    ensures NoRestart([step])
  {
  }

  /** The next line to be kept: read, stored, delivered and checkpointed. */
  lemma {:induction false} DeliverLine(u: Setup, b: Core, q: nat, now: int)
      returns (trace: seq<Core>, steps: seq<Step>)
    requires Proper(u) && Ready(b) && NextKept(u, b.position, q) && Room(u, [], [Alone(u, q)])
    ensures IsRun(u, trace, steps) && trace[0] == b && NoRestart(steps) && q < |u.file|
    ensures DeliveredOne(u, b, q, trace[|trace| - 1]) && Ready(trace[|trace| - 1])
  {
    hide *;
    ReadyIs(b);
    KeptIsLine(u, b.position, q);
    StoredAllowed(u, [], Alone(u, q));
    var slots;
    trace, steps, slots := TakeNext(u, b, q, now, Stored);
    RunStarts(u, trace, steps);
    StoresNeverRestart(steps);
    StoreIsOne(u, b, q, slots);
    var r := trace[|trace| - 1];
    DeliversOne(u, b, q, r);
    StoredSlots(u, b, q, slots);
    OneStep(Drain(1, false));
    OneStep(SaveCheckpoint(true));
    ThenDrain(u, trace, steps, r, 1, false);
    NoRestartJoin(steps, [Drain(1, false)]);
    var d := AfterDrain(r, 1, false);
    trace, steps := trace + [d], steps + [Drain(1, false)];
    ThenSave(u, trace, steps, d);
    NoRestartJoin(steps, [SaveCheckpoint(true)]);
    var f := AfterSave(u, d, true);
    ReadyAgain(u, b, q, f);
    trace, steps := trace + [f], steps + [SaveCheckpoint(true)];
  }

  lemma {:induction false} ReadyIs(s: Core)
    requires Ready(s)
    ensures s.tracker.batches == [] && s.queue == [] && AllIdle(s.slots) && !s.blocked && !s.closing
  {
  }

  lemma {:induction false} StoredSlots(u: Setup, s: Core, q: nat, slots: seq<StreamSlot>)
    requires q < |u.file|
    ensures Store(u, s.(position := q + 1, slots := slots), [Alone(u, q)], Stored).slots == slots
  {
  }

  lemma {:induction false} ReadyAgain(u: Setup, b: Core, q: nat, f: Core)
    requires q < |u.file| && !b.blocked && !b.closing && DeliveredOne(u, b, q, f) && AllIdle(f.slots)
    ensures Ready(f)
  {
  }

  /**
   Whenever an append is refused and no overflow takes the line, whatever the refusal, whatever is
   queued and whether or not lines are aggregated, the next line stored and delivered carries the
   checkpoint past the refused one: neither settled nor queued, and behind the reader, it is lost for
   good.
   */
  lemma {:induction false} RefusedAppendLosesTheLine(u: Setup, s: Core, p: nat, q: nat, outcome: StoreOutcome)
    returns (trace: seq<Core>, steps: seq<Step>)
    requires Proper(u) && SessionStart(s)
    requires NextKept(u, s.position, p) && Refuses(u, outcome) && Allows(u, s.queue, [Alone(u, p)], outcome)
    requires NextKept(u, p + 1, q) && Room(u, [], [Alone(u, q)])
    requires Line(u, p) !in s.settled && Line(u, p) !in EntryLines(s.queue) && Line(u, p) !in LinesIn(s.spilled)
    ensures IsRun(u, trace, steps) && trace[0] == s && NoRestart(steps)
    ensures
      var f := trace[|trace| - 1];
      f.checkpoint.Some? && p < LinesBelow(u.file, f.checkpoint.value) && IsLost(u, f, p)
  {
    hide *;
    StartIsIdle(s);
    KeptIsLine(u, s.position, p);
    KeptIsLine(u, p + 1, q);
    trace, steps := RefuseLine(u, s, p, outcome);
    RunStarts(u, trace, steps);
    var b := trace[|trace| - 1];
    PassedIs(u, s, p, b);
    var trace', steps' := DeliverLine(u, b, q, Later(u, 0));
    RunStarts(u, trace', steps');
    LostAfterDelivery(u, s, b, p, q, trace'[|trace'| - 1]);
    JoinRuns(u, trace, steps, trace', steps');
    NoRestartJoin(steps, steps');
    LastOfJoin(trace, trace');
    trace, steps := trace + trace'[1..], steps + steps';
  }

  lemma {:induction false} StartIsIdle(s: Core)
    requires SessionStart(s)
    ensures AllIdle(s.slots) && s.tracker == EmptyTracker && !s.blocked && !s.closing
  {
  }

  lemma {:induction false} PassedIs(u: Setup, s: Core, p: nat, b: Core)
    requires PassedOver(u, s, p, b)
    ensures Ready(b) && b.position == p + 1
  {
  }

  // -------------------------------------------------------------------- exactly when

  /** At least two lines from `at` on are kept, and the second is not larger than the whole buffer. */
  ghost predicate TwoKept(u: Setup, at: nat) {
    exists p: nat :: NextKept(u, at, p) && KeptFrom(u, p + 1)
  }

  ghost predicate KeptFrom(u: Setup, p: nat) {
    exists q: nat :: NextKept(u, p, q) && Room(u, [], [Alone(u, q)])
  }

  ghost predicate NeverLoses(u: Setup, at: nat, refusals: bool)
    requires at <= |u.file|
  {
    forall trace, steps, i :: Resuming(u, trace, steps, refusals) && trace[0] == Opened(u, at) && 0 <= i < |trace| ==>
      LosesNothing(u, at, trace[i])
  }

  lemma {:induction false} NoRestartResumes(u: Setup, trace: seq<Core>, steps: seq<Step>)
    requires IsRun(u, trace, steps) && NoRestart(steps)
    ensures Resuming(u, trace, steps, true)
  {
  }

  lemma {:induction false} RefusalLoses(u: Setup, at: nat)
    requires Proper(u) && at <= |u.file| && TwoKept(u, at)
    ensures !NeverLoses(u, at, true)
  {
    var s := Opened(u, at);
    LinesInNone();
    var p: nat :| NextKept(u, at, p) && KeptFrom(u, p + 1);
    var q: nat :| NextKept(u, p + 1, q) && Room(u, [], [Alone(u, q)]);
    KeptIsLine(u, at, p);
    hide Room, NextKept, IsRun, NoRestart, LinesBelow, IsLost, LinesIn;
    var trace, steps := RefusedAppendLosesTheLine(u, s, p, q, StoreFailed);
    NoRestartResumes(u, trace, steps);
    RunStarts(u, trace, steps);
    hide Resuming;
    assert !LosesNothing(u, at, trace[|trace| - 1]);
  }

  /**
   Over all runs from a first start whose reopens resume, crashes included, with or without
   aggregation and with or without an overflow store: no line below the saved checkpoint is ever
   lost if and only if no append can refuse a line.
   */
  lemma {:induction false} NeverLosesExactlyWhen(u: Setup, at: nat, refusals: bool)
    requires Proper(u) && at <= |u.file| && TwoKept(u, at)
    ensures NeverLoses(u, at, refusals) <==> !refusals
  {
    if refusals {
      RefusalLoses(u, at);
    } else {
      forall trace: seq<Core>, steps: seq<Step>, i: int | Resuming(u, trace, steps, false)
        && trace[0] == Opened(u, at) && 0 <= i < |trace|
        ensures LosesNothing(u, at, trace[i])
      {
        assert Careful(u, trace, steps);
        hide Resuming, Careful, LinesBelow, Opened;
        var s: Core := trace[i];
        forall k | s.checkpoint.Some? && at <= k < LinesBelow(u.file, s.checkpoint.value)
          ensures !IsLost(u, s, k)
        {
          CarefulRunsLoseNothing(u, at, trace, steps, i, k);
        }
      }
    }
  }
}
