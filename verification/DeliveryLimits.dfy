/**
 How far the delivery guarantees reach: runs without refused appends and skipping reopens lose
 nothing at all, and with several streams a checkpoint covers delivered lines only exactly when no
 pending batch starts below it.
 */
module DeliveryLimits {
  import opened Common
  import opened LogFiles
  import opened BatchTracking
  import opened EntryAssembly
  import opened StreamAssembly
  import opened StreamAssemblyRuns
  import opened DeliveryProtocol
  import opened DeliverySafety
  import opened DeliverySessions
  import opened DeliveryOrder
  import opened DeliveryGuarantees

  // --------------------------------------------- runs without failures lose nothing at all

  /** Every group of the step is stored, or every one of them is taken by the overflow store. */
  ghost predicate KeepsGroups(u: Setup, s: Core, step: Step)
    requires Enabled(u, s, step) && Stores(step)
  {
    || step.outcome.Stored?
    || (step.outcome.NoRoom? && Picked(u, Handed(u, s, step).1, step.outcome.spills, false) == [])
  }

  /** No append refused a group, and every reopen resumed from a checkpoint. */
  ghost predicate Careful(u: Setup, trace: seq<Core>, steps: seq<Step>) {
    && IsRun(u, trace, steps)
    && forall i :: 0 <= i < |steps| ==>
         && (Stores(steps[i]) ==> KeepsGroups(u, trace[i], steps[i]))
         && (steps[i].Restart? ==> Resumes(u, trace[i]))
  }

  lemma {:induction false} CarefulStep(u: Setup, s: Core, step: Step)
    requires Enabled(u, s, step)
    requires Stores(step) ==> KeepsGroups(u, s, step)
    requires step.Restart? ==> Resumes(u, s)
    ensures Next(u, s, step).dropped == s.dropped && Next(u, s, step).skipped == s.skipped
  {
    if Stores(step) {
      StoringStep(u, s, step);
      LinesInNone();
    }
    hide Handed, LinesIn, Picked;
  }

  lemma {:induction false} CarefulKeepsLosses(u: Setup, trace: seq<Core>, steps: seq<Step>, i: nat)
    requires Careful(u, trace, steps) && i < |trace|
    ensures trace[i].dropped == trace[0].dropped && trace[i].skipped == trace[0].skipped
  {
    hide *;
    if i > 0 {
      CarefulAt(u, trace, steps, i - 1);
      CarefulKeepsLosses(u, trace, steps, i - 1);
      CarefulStep(u, trace[i - 1], steps[i - 1]);
    }
  }

  lemma {:induction false} CarefulAt(u: Setup, trace: seq<Core>, steps: seq<Step>, i: nat)
    requires Careful(u, trace, steps) && i + 1 < |trace|
    ensures i < |steps| && Enabled(u, trace[i], steps[i]) && trace[i + 1] == Next(u, trace[i], steps[i])
    ensures (Stores(steps[i]) ==> KeepsGroups(u, trace[i], steps[i])) && (steps[i].Restart? ==> Resumes(u, trace[i]))
  {
    hide Next, Enabled, Possible, KeepsGroups, Resumes;
  }

  /**
   Over every run from a first start at line `at` in which no append refuses a line and reopens
   resume, crashes included, each line from `at` on below the saved checkpoint is settled, still in
   the durable queue, handed to the overflow store, or a skipped blank.
   */
  lemma {:induction false} CarefulRunsLoseNothing(u: Setup, at: nat, trace: seq<Core>, steps: seq<Step>, i: nat, k: nat)
    requires Proper(u) && at <= |u.file| && Careful(u, trace, steps) && trace[0] == Opened(u, at) && i < |trace|
    requires trace[i].checkpoint.Some? && at <= k < LinesBelow(u.file, trace[i].checkpoint.value)
    ensures
      || Line(u, k) in trace[i].settled || Line(u, k) in EntryLines(trace[i].queue)
      || Line(u, k) in LinesIn(trace[i].spilled) || BlankSkipped(u, k)
  {
    SavedCheckpointLosesNothing(u, at, trace, steps, i);
    CarefulKeepsLosses(u, trace, steps, i);
    assert Covered(u, trace[i], k);
    if Line(u, k) in trace[i].skipped {
      var j :| 0 <= j < at && Line(u, k) == Line(u, j);
      StartsOrder(u.file, j, k);
    }
  }

  ghost predicate AllStored(steps: seq<Step>) {
    forall j :: 0 <= j < |steps| ==> (Stores(steps[j]) ==> steps[j].outcome.Stored?)
  }

  lemma {:induction false} AllStoredKeeps(u: Setup, trace: seq<Core>, steps: seq<Step>, i: nat)
    requires IsRun(u, trace, steps) && AllStored(steps) && i < |trace|
    ensures trace[i].dropped == trace[0].dropped && trace[i].spilled == trace[0].spilled
  {
    if i > 0 {
      AllStoredKeeps(u, trace, steps, i - 1);
      if Stores(steps[i - 1]) {
        StoringStep(u, trace[i - 1], steps[i - 1]);
      }
      hide Handed;
    }
  }

  // ------------------------------------------------- several streams: the exact condition

  /** Two groups of the log never share a line. */
  lemma {:induction false} GroupsDisjoint(u: Setup, s: Core, i: nat, j: nat, h: Held)
    requires Proper(u) && FollowsStreams(u, s) && i < j < |s.log| && h in s.log[i].lines
    ensures h !in s.log[j].lines
  {
    if h in s.log[j].lines {
      GroupsReadHere(u, s, i, h);
      GroupsReadHere(u, s, j, h);
      var st := s.log[i].stream;
      SameLineSameStream(u, s.origin, s.position, h, st, s.log[j].stream);
      EmittedInOrder(s.log, i, j, st, h);
      TwiceNotAscending(EmittedBy(s.log, st), HeldBy(s.slots, st), h);
      assert false;
    }
  }

  lemma {:induction false} SameLineSameStream(u: Setup, from: nat, to: nat, h: Held, st: LogStream, st': LogStream)
    requires Proper(u) && to <= |u.file| && ReadHere(u, from, to, st, h) && ReadHere(u, from, to, st', h)
    ensures st == st'
  {
    var j :| from <= j < to && u.file[j].stream == st && h == Line(u, j);
    var k :| from <= k < to && u.file[k].stream == st' && h == Line(u, k);
    StartsOrder(u.file, j, k);
  }

  /** `h` occurs at two places. */
  ghost predicate Twice(path: seq<Held>, h: Held) {
    exists x, y :: 0 <= x < y < |path| && path[x] == h && path[y] == h
  }

  lemma {:induction false} TwiceNotAscending(a: seq<Held>, b: seq<Held>, h: Held)
    requires Twice(a, h)
    ensures !Ascending(a + b)
  {
    var x, y :| 0 <= x < y < |a| && a[x] == h && a[y] == h;
    assert (a + b)[x] == h && (a + b)[y] == h;
  }

  lemma {:induction false} EmittedInOrder(es: seq<Emission>, i: nat, j: nat, st: LogStream, h: Held)
    requires i < j < |es| && es[i].stream == st && es[j].stream == st && h in es[i].lines && h in es[j].lines
    ensures Twice(EmittedBy(es, st), h)
  {
    var front, back := es[..j], es[j..];
    assert es == front + back;
    EmittedByAppend(front, back, st);
    InEmittedBy(front, i);
    InEmittedBy(back, 0);
    var a, b := EmittedBy(front, st), EmittedBy(back, st);
    var x :| 0 <= x < |a| && a[x] == h;
    var y :| 0 <= y < |b| && b[y] == h;
    assert (a + b)[x] == h && (a + b)[|a| + y] == h;
  }

  /** Within a group lines ascend, so the first line starts it. */
  lemma {:induction false} FirstLineFirst(u: Setup, s: Core, i: nat, h: Held)
    requires FollowsStreams(u, s) && i < |s.log| && h in s.log[i].lines
    ensures FirstStart(s.log[i]) <= h.ctx.start
  {
    var st := s.log[i].stream;
    GroupIsSegment(s.log, i, st, HeldBy(s.slots, st));
    var x :| 0 <= x < |s.log[i].lines| && s.log[i].lines[x] == h;
  }

  lemma {:induction false} GroupIsSegment(es: seq<Emission>, i: nat, st: LogStream, more: seq<Held>)
    requires i < |es| && es[i].stream == st && Ascending(EmittedBy(es, st) + more)
    ensures Ascending(es[i].lines)
  {
    var front, back := es[..i], es[i + 1..];
    assert es == front + ([es[i]] + back);
    EmittedByAppend(front, [es[i]] + back, st);
    EmittedByAppend([es[i]], back, st);
    EmittedByOne([es[i]], st);
    var a, g, b := EmittedBy(front, st), es[i].lines, EmittedBy(back, st);
    var all := EmittedBy(es, st) + more;
    assert forall x :: 0 <= x < |g| ==> all[|a| + x] == g[x];
  }

  /** In the non-aggregating path no stored line is blank. */
  ghost predicate NoBlanksStored(u: Setup, s: Core) {
    u.assembly.None? ==> forall h :: h in LinesIn(s.log) ==> !IsBlank(h.line)
  }

  lemma {:induction false} StepStoresNoBlanks(u: Setup, s: Core, step: Step)
    requires Enabled(u, s, step) && NoBlanksStored(u, s)
    ensures NoBlanksStored(u, Next(u, s, step))
  {
    if u.assembly.None? && step.Read? {
      var a := Arrivals(u, s.position, step.times);
      KeptLines(a);
      var groups := KeptGroups(a);
      var r := Next(u, s, step);
      forall h | h in LinesIn(r.log)
        ensures !IsBlank(h.line)
      {
        if h !in LinesIn(s.log) {
          var x := GroupOf(r.log, h);
          assert r.log == s.log + groups;
          assert x < |s.log| ==> h in LinesIn(s.log);
          assert h in groups[x - |s.log|].lines;
          assert h in LinesIn(groups);
        }
      }
    }
  }

  lemma {:induction false} SessionStoresNoBlanks(u: Setup, trace: seq<Core>, steps: seq<Step>, i: nat)
    requires IsSession(u, trace, steps) && i < |trace|
    ensures NoBlanksStored(u, trace[i])
  {
    if i > 0 {
      hide NoBlanksStored, Next, Enabled;
      SessionStoresNoBlanks(u, trace, steps, i - 1);
      StepStoresNoBlanks(u, trace[i - 1], steps[i - 1]);
    }
  }

  /** No pending batch starts below the offset. */
  ghost predicate NonePendingBelow(s: Core, offset: nat) {
    forall j :: 0 <= j < |PendingOf(s.tracker.batches)| ==> offset <= PendingOf(s.tracker.batches)[j].startOffset
  }

  lemma {:induction false} PendingStart(s: Core, gone: nat, acked: nat, j: nat)
    requires InStep(s, gone, acked)
    ensures PendingOf(s.tracker.batches) == s.tracker.batches[acked..]
    ensures gone + acked + j < |s.log| ==>
              j < |PendingOf(s.tracker.batches)| && PendingOf(s.tracker.batches)[j].startOffset
                == FirstStart(s.log[gone + acked + j])
  {
    var live := s.log[gone..];
    assert forall x :: 0 <= x < |live| ==> Describes(s.tracker.batches[x], live[x], gone + x, x < acked);
    PendingIsSuffix(s.tracker.batches, acked);
    if gone + acked + j < |s.log| {
      assert Describes(s.tracker.batches[acked + j], live[acked + j], gone + (acked + j), false);
    }
  }

  /** If no pending batch starts below the offered offset, saving it leaves nothing undelivered below. */
  lemma {:induction false} NonePendingDelivers(u: Setup, s: Core, gone: nat, acked: nat, before: set<Held>, k: nat)
    requires Proper(u) && SessionInv(u, s) && QueueIsPending(s, gone, acked, before)
    requires CheckpointOffset(u, s).Some? && NonePendingBelow(s, CheckpointOffset(u, s).value)
    requires s.origin <= k < LinesBelow(u.file, CheckpointOffset(u, s).value)
    ensures Line(u, k) in s.settled || BlankSkipped(u, k) || NotStored(s, Line(u, k))
  {
    StoredBelowOffered(u, s, k);
    if Line(u, k) in LinesIn(s.log) {
      StoredInAcked(u, s, gone, acked, CheckpointOffset(u, s).value, Line(u, k));
    }
  }

  /** A stored line below the offset is in an acknowledged group when no pending batch starts there. */
  lemma {:induction false} StoredInAcked(u: Setup, s: Core, gone: nat, acked: nat, offset: nat, h: Held)
    requires FollowsStreams(u, s) && InStep(s, gone, acked) && NonePendingBelow(s, offset)
    requires h in LinesIn(s.log) && h.ctx.start < offset
    ensures gone + acked <= |s.log| && h in LinesIn(s.log[..gone + acked])
  {
    var m := gone + acked;
    var x := GroupOf(s.log, h);
    if x >= m {
      PendingStart(s, gone, acked, x - m);
      FirstLineFirst(u, s, x, h);
      assert false;
    }
    assert s.log[..m][x] == s.log[x];
  }

  /** A pending batch that starts below the offset has an undelivered first line there. */
  lemma {:induction false} PendingUndelivered(u: Setup, s: Core, gone: nat, acked: nat, before: set<Held>, offset: nat,
      j: nat)
    requires Proper(u) && SessionInv(u, s) && QueueIsPending(s, gone, acked, before) && NoBlanksStored(u, s)
    requires LineBoundary(u, offset) && gone + acked + j < |s.log| && FirstStart(s.log[gone + acked + j]) < offset
    requires forall k :: s.origin <= k < |u.file| ==> Line(u, k) !in before && !NotStored(s, Line(u, k))
    ensures !DeliveredBelow(u, s, offset)
  {
    hide Inv, View, Tidy, Paired, FollowsFile, LinesIn, FollowsStreams, InStep, NotStored, BlankSkipped, LinesBelow;
    var x := gone + acked + j;
    var g := s.log[x];
    Positions(u, s);
    FirstReadHere(u, s, x);
    var k :| s.origin <= k < s.position && u.file[k].stream == g.stream && g.lines[0] == Line(u, k);
    StartsOrder(u.file, k, LinesBelow(u.file, offset));
    NotAckedToo(u, s, gone + acked, x, Line(u, k));
    NotBlank(u, s, x, k);
  }

  lemma {:induction false} FirstReadHere(u: Setup, s: Core, x: nat)
    requires FollowsStreams(u, s) && x < |s.log| && s.log[x].lines != []
    ensures ReadHere(u, s.origin, s.position, s.log[x].stream, s.log[x].lines[0])
  {
    GroupsReadHere(u, s, x, s.log[x].lines[0]);
  }

  /** A group stored later shares no line with the groups before. */
  lemma {:induction false} NotAckedToo(u: Setup, s: Core, m: nat, x: nat, h: Held)
    requires Proper(u) && FollowsStreams(u, s) && m <= x < |s.log| && h in s.log[x].lines
    ensures h !in LinesIn(s.log[..m])
  {
    if h in LinesIn(s.log[..m]) {
      var y := GroupOf(s.log[..m], h);
      GroupsDisjoint(u, s, y, x, h);
      assert false;
    }
  }

  lemma {:induction false} NotBlank(u: Setup, s: Core, x: nat, k: nat)
    requires NoBlanksStored(u, s) && x < |s.log| && k < |u.file| && Line(u, k) in s.log[x].lines
    ensures !BlankSkipped(u, k)
  {
    assert Line(u, k) in LinesIn(s.log);
  }

  /**
   In a session started on an empty queue, with any number of streams, every append stored and
   nothing replayed:
   saving the offered checkpoint leaves every line of the session below it delivered if and only
   if no batch still pending starts below it.
   */
  lemma {:induction false} DeliveredExactlyWhenNonePendingBelow(u: Setup, trace: seq<Core>, steps: seq<Step>, i: nat)
    requires Proper(u) && IsSession(u, trace, steps) && NoReplay(steps) && AllStored(steps)
    requires Inv(u, trace[0]) && trace[0].queue == [] && i < |trace|
    requires forall k :: trace[0].origin <= k < |u.file| ==>
      Line(u, k) !in trace[0].settled && !NotStored(trace[0], Line(u, k))
    requires CheckpointOffset(u, trace[i]).Some?
    ensures DeliveredBelow(u, trace[i], CheckpointOffset(u, trace[i]).value)
            <==> NonePendingBelow(trace[i], CheckpointOffset(u, trace[i]).value)
  {
    var s := trace[i];
    hide SessionInv, QueueIsPending, Next, Enabled, CheckpointOffset, Inv, NoBlanksStored, NonePendingBelow,
      DeliveredBelow, NotStored;
    SessionKeepsInv(u, trace, steps, i);
    SessionStoresNoBlanks(u, trace, steps, i);
    AllStoredKeeps(u, trace, steps, i);
    SameRefusals(trace[0], s);
    SessionOrigin(u, trace, steps, i);
    var gone, acked := SessionPending(u, trace, steps, i);
    DeliveredIffNonePending(u, s, gone, acked, trace[0].settled);
  }

  lemma {:induction false} SameRefusals(s: Core, t: Core)
    requires t.dropped == s.dropped && t.spilled == s.spilled
    ensures forall h :: NotStored(t, h) <==> NotStored(s, h)
  {
  }

  lemma {:induction false} DeliveredIffNonePending(u: Setup, s: Core, gone: nat, acked: nat, before: set<Held>)
    requires Proper(u) && SessionInv(u, s) && QueueIsPending(s, gone, acked, before) && NoBlanksStored(u, s)
    requires forall k :: s.origin <= k < |u.file| ==> Line(u, k) !in before && !NotStored(s, Line(u, k))
    requires CheckpointOffset(u, s).Some?
    ensures DeliveredBelow(u, s, CheckpointOffset(u, s).value) <==> NonePendingBelow(s, CheckpointOffset(u, s).value)
  {
    var offset := CheckpointOffset(u, s).value;
    hide SessionInv, QueueIsPending, CheckpointOffset, NoBlanksStored, NotStored, BlankSkipped;
    if NonePendingBelow(s, offset) {
      forall k | s.origin <= k < LinesBelow(u.file, offset)
        ensures Line(u, k) in s.settled || BlankSkipped(u, k) || NotStored(s, Line(u, k))
      {
        NonePendingDelivers(u, s, gone, acked, before, k);
      }
    } else {
      var j :| 0 <= j < |PendingOf(s.tracker.batches)| && PendingOf(s.tracker.batches)[j].startOffset < offset;
      OfferedBoundary(u, s);
      PendingRank(s, gone, acked, before, j);
      PendingUndelivered(u, s, gone, acked, before, offset, j);
    }
  }

  lemma {:induction false} SessionOrigin(u: Setup, trace: seq<Core>, steps: seq<Step>, i: nat)
    requires IsSession(u, trace, steps) && i < |trace|
    ensures trace[i].origin == trace[0].origin
  {
    if i > 0 {
      SessionOrigin(u, trace, steps, i - 1);
      if Stores(steps[i - 1]) {
        StoringStep(u, trace[i - 1], steps[i - 1]);
      }
    }
  }

  lemma {:induction false} OfferedBoundary(u: Setup, s: Core)
    requires Proper(u) && SessionInv(u, s) && CheckpointOffset(u, s).Some?
    ensures LineBoundary(u, CheckpointOffset(u, s).value)
  {
    OfferedOffset(u, s);
  }

  lemma {:induction false} PendingRank(s: Core, gone: nat, acked: nat, before: set<Held>, j: nat)
    requires QueueIsPending(s, gone, acked, before) && j < |PendingOf(s.tracker.batches)|
    ensures gone + acked + j < |s.log|
    ensures s.log[gone + acked + j].lines != []
      && PendingOf(s.tracker.batches)[j].startOffset == FirstStart(s.log[gone + acked + j])
  {
    PendingStart(s, gone, acked, j);
    PendingStart(s, gone, acked, 0);
  }
}
