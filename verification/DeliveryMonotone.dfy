/** With one stream, or without aggregation, the saved checkpoint never moves back. */
module DeliveryMonotone {
  import opened Common
  import opened LogFiles
  import opened BatchTracking
  import opened EntryAssembly
  import opened StreamAssembly
  import opened StreamAssemblyRuns
  import opened SpillFiles
  import opened DeliveryProtocol
  import opened DeliverySafety
  import opened DeliverySessions
  import opened DeliveryOrder
  import opened DeliveryGuarantees

  /** Every line held, or stored and not yet let go by the tracker, starts at `c` or later. */
  ghost predicate AllFrom(u: Setup, s: Core, gone: nat, c: nat)
    requires s.position <= |u.file| && gone <= |s.log|
  {
    && c <= StartOf(u.file, s.position)
    && (forall h :: h in LinesIn(s.log[gone..]) ==> c <= h.ctx.start)
    && (forall st, h :: h in HeldBy(s.slots, st) ==> c <= h.ctx.start)
  }

  /** The state of a run: where the tracker stands, and the checkpoint behind all that is live. */
  ghost predicate RunInv(u: Setup, s: Core, gone: nat, acked: nat) {
    && SessionInv(u, s) && InStep(s, gone, acked) && s.position <= |u.file|
    && (s.checkpoint.Some? ==> AllFrom(u, s, gone, s.checkpoint.value))
  }

  /** Lines a step takes in start at the reader's position or were held before. */
  ghost predicate FromHeldOrNew(u: Setup, s: Core, p: Progress)
    requires s.position <= |u.file|
  {
    && (forall h :: h in LinesIn(p.emissions) ==>
      StartOf(u.file, s.position) <= h.ctx.start || exists st :: h in HeldBy(s.slots, st))
    && (forall st, h :: h in HeldBy(p.slots, st) ==>
      StartOf(u.file, s.position) <= h.ctx.start || h in HeldBy(s.slots, st))
  }

  lemma {:induction false} ConservedFrom(u: Setup, s: Core, p: Progress, times: seq<int>)
    requires Proper(u) && s.position + |times| <= |u.file|
    requires forall st :: EmittedBy(p.emissions, st) + HeldBy(p.slots, st)
                          == HeldBy(s.slots, st) + ArrivedOn(Arrivals(u, s.position, times), st)
    ensures FromHeldOrNew(u, s, p)
  {
    forall st, h | h in EmittedBy(p.emissions, st) || h in HeldBy(p.slots, st)
      ensures StartOf(u.file, s.position) <= h.ctx.start || h in HeldBy(s.slots, st)
    {
      assert h in EmittedBy(p.emissions, st) + HeldBy(p.slots, st);
      assert h in HeldBy(s.slots, st) + ArrivedOn(Arrivals(u, s.position, times), st);
      if h !in HeldBy(s.slots, st) {
        ArrivalsOnPath(u, s.position, times, st);
        PathBelow(u, s.position, s.position + |times|, st, h);
      }
    }
    forall h | h in LinesIn(p.emissions)
      ensures StartOf(u.file, s.position) <= h.ctx.start || exists st :: h in HeldBy(s.slots, st)
    {
      var i := GroupOf(p.emissions, h);
      InEmittedBy(p.emissions, i);
      assert h in EmittedBy(p.emissions, p.emissions[i].stream);
    }
  }

  lemma {:induction false} ReadTakes(u: Setup, s: Core, times: seq<int>)
    requires Proper(u) && s.position + |times| <= |u.file|
    ensures FromHeldOrNew(u, s, Taken(u, s.slots, Arrivals(u, s.position, times)))
  {
    var a := Arrivals(u, s.position, times);
    var p := Taken(u, s.slots, a);
    if u.assembly.None? {
      KeptLines(a);
      forall h | h in LinesIn(p.emissions)
        ensures StartOf(u.file, s.position) <= h.ctx.start
      {
        var i :| 0 <= i < |a| && a[i].held == h && !IsBlank(h.line);
        StartsOrder(u.file, s.position, s.position + i);
      }
    } else {
      forall st
        ensures EmittedBy(p.emissions, st) + HeldBy(p.slots, st) == HeldBy(s.slots, st) + ArrivedOn(a, st)
      {
        FeedAllConserves(u.assembly.value, s.slots, a, st);
      }
      ConservedFrom(u, s, p, times);
    }
  }

  lemma {:induction false} CollectTakes(u: Setup, s: Core, mode: DrainMode)
    requires Proper(u) && s.position <= |u.file| && u.assembly.Some? && Unique(s.slots)
    ensures FromHeldOrNew(u, s, Collect(u.assembly.value, s.slots, mode))
  {
    var p := Collect(u.assembly.value, s.slots, mode);
    forall st
      ensures EmittedBy(p.emissions, st) + HeldBy(p.slots, st)
        == HeldBy(s.slots, st) + ArrivedOn(Arrivals(u, s.position, []), st)
    {
      CollectConserves(u.assembly.value, s.slots, mode, st);
      assert Arrivals(u, s.position, []) == [];
    }
    ConservedFrom(u, s, p, []);
  }

  lemma {:induction false} StoreKeepsFrom(u: Setup, s: Core, p: Progress, count: nat, outcome: StoreOutcome, gone: nat,
      c: nat)
    requires Proper(u) && s.position + count <= |u.file| && gone <= |s.log| && AllNonempty(p.emissions)
    requires AllFrom(u, s, gone, c) && FromHeldOrNew(u, s, p)
    ensures AllFrom(u, Store(u, AfterTaking(s, p, count), p.emissions, outcome), gone, c)
  {
    hide LinesIn, HeldBy;
    var r := Store(u, AfterTaking(s, p, count), p.emissions, outcome);
    StartsOrder(u.file, s.position, s.position + count);
    forall h | h in LinesIn(r.log[gone..])
      ensures c <= h.ctx.start
    {
      if r.log != s.log {
        LinesAppended(s.log[gone..], p.emissions, h);
        assert r.log[gone..] == s.log[gone..] + p.emissions;
      }
    }
  }

  lemma {:induction false} LinesAppended(a: seq<Emission>, b: seq<Emission>, h: Held)
    ensures h in LinesIn(a + b) ==> h in LinesIn(a) || h in LinesIn(b)
  {
    if h in LinesIn(a + b) {
      var i := GroupOf(a + b, h);
      assert i < |a| ==> h in a[i].lines;
      assert i >= |a| ==> h in b[i - |a|].lines;
    }
  }

  lemma {:induction false} StoringKeepsFrom(u: Setup, s: Core, step: Step, gone: nat, c: nat)
    requires Proper(u) && Inv(u, s) && Enabled(u, s, step) && Stores(step) && gone <= |s.log| && AllFrom(u, s, gone, c)
    ensures Next(u, s, step).position <= |u.file| && gone <= |Next(u, s, step).log|
      && AllFrom(u, Next(u, s, step), gone, c)
  {
    hide AllFrom, FromHeldOrNew, Collect, FeedAll, KeptGroups;
    match step
    case Read(count, times, outcome) =>
      ReadTakes(u, s, times);
      StoreKeepsFrom(u, s, Taken(u, s.slots, Arrivals(u, s.position, times)), count, outcome, gone, c);
    case IdleCheck(now, outcome) =>
      CollectTakes(u, s, OnTimeout(now));
      StoreKeepsFrom(u, s, Collect(u.assembly.value, s.slots, OnTimeout(now)), 0, outcome, gone, c);
    case FlushAll(outcome) =>
      var t := s.(closing := true);
      FilesAndClosing(u, s, t, gone, c);
      CollectTakes(u, t, OnFlush);
      StoreKeepsFrom(u, t, Collect(u.assembly.value, s.slots, OnFlush), 0, outcome, gone, c);
  }

  lemma {:induction false} FilesAndClosing(u: Setup, s: Core, t: Core, gone: nat, c: nat)
    requires s.position <= |u.file| && gone <= |s.log| && AllFrom(u, s, gone, c)
    requires t == s.(closing := t.closing, onDisk := t.onDisk)
    ensures AllFrom(u, t, gone, c)
  {
  }

  lemma {:induction false} SessionParts(u: Setup, s: Core)
    requires SessionInv(u, s)
    ensures Inv(u, s) && AllNonempty(s.log) && s.origin <= s.position <= |u.file|
  {
  }

  lemma {:induction false} LiveFrom(u: Setup, s: Core, gone: nat, c: nat, x: nat, h: Held)
    requires s.position <= |u.file| && gone <= x < |s.log| && AllFrom(u, s, gone, c) && h in s.log[x].lines
    ensures c <= h.ctx.start
  {
    assert s.log[gone..][x - gone] == s.log[x];
    assert h in LinesIn(s.log[gone..]);
  }

  lemma {:induction false} LaterLinesFrom(u: Setup, s: Core, from: nat, offset: nat, h: Held)
    requires Proper(u) && s.position <= |u.file| && FollowsFile(u, s) && AllNonempty(s.log)
    requires 0 < from <= |s.log| && offset <= LastEnd(s.log[from - 1]) && h in LinesIn(s.log[from..])
    ensures offset <= h.ctx.start
  {
    var i := GroupOf(s.log[from..], h);
    GroupEndsBeforeLater(u, s, from - 1, from + i, h);
  }

  /** What stays live after a save starts at or past the saved offset. */
  lemma {:induction false} SaveLeavesBehind(u: Setup, s: Core, gone: nat, acked: nat)
    requires Proper(u) && KeepsFileOrder(u) && SessionInv(u, s) && InStep(s, gone, acked)
      && CheckpointOffset(u, s).Some?
    ensures gone + acked <= |s.log| && s.position <= |u.file|
      && AllFrom(u, s, gone + acked, CheckpointOffset(u, s).value)
  {
    hide SessionInv, Inv, InStep, CheckpointOffset, FollowsFile, HeldBy, LinesIn;
    var offset := CheckpointOffset(u, s).value;
    SessionParts(u, s);
    OfferedFromAcked(u, s, gone, acked);
    OfferedOffset(u, s);
    LogFollowsFile(u, s);
    forall h | h in LinesIn(s.log[gone + acked..])
      ensures offset <= h.ctx.start
    {
      LaterLinesFrom(u, s, gone + acked, offset, h);
    }
    forall st, h | h in HeldBy(s.slots, st)
      ensures offset <= h.ctx.start
    {
      CeilingBelowHeld(u, s, st, h);
    }
  }

  lemma {:induction false} GroupEndFrom(u: Setup, s: Core, gone: nat, c: nat, x: nat)
    requires Proper(u) && s.position <= |u.file| && FollowsFile(u, s) && AllNonempty(s.log)
    requires gone <= x < |s.log| && AllFrom(u, s, gone, c)
    ensures c <= LastEnd(s.log[x])
  {
    var end := s.log[x].lines[|s.log[x].lines| - 1];
    LiveFrom(u, s, gone, c, x, end);
    LogLinesMembers(s.log, x);
    LineEndsAreBoundaries(u, s.position, end);
  }

  /** A checkpoint about to be saved is no lower than the one saved. */
  lemma {:induction false} SaveMovesOn(u: Setup, s: Core, gone: nat, acked: nat)
    requires Proper(u) && KeepsFileOrder(u) && RunInv(u, s, gone, acked) && CheckpointOffset(u, s).Some?
      && s.checkpoint.Some?
    ensures s.checkpoint.value <= CheckpointOffset(u, s).value
  {
    hide SessionInv, Inv, InStep, FollowsFile, HeldBy, LinesIn, Safe, BufferedStart;
    SessionParts(u, s);
    OfferedFromAcked(u, s, gone, acked);
    LogFollowsFile(u, s);
    GroupEndFrom(u, s, gone, s.checkpoint.value, gone + acked - 1);
    if Ceiling(u, s).Some? {
      var st, h := CeilingIsHeld(u, s);
    }
  }

  lemma {:induction false} CeilingBelowHeld(u: Setup, s: Core, st: LogStream, h: Held)
    requires Inv(u, s) && CheckpointOffset(u, s).Some? && h in HeldBy(s.slots, st)
    ensures CheckpointOffset(u, s).value <= h.ctx.start
  {
    BufferedStartIsLowest(s.slots);
    assert u.assembly.None? ==> HeldBy(s.slots, st) == [];
    var held := HeldBy(s.slots, st);
    assert held == s.slots[SlotIndex(s.slots, st)].asm.held;
    var x :| 0 <= x < |held| && held[x] == h;
    assert held[0].ctx.start <= held[x].ctx.start;
  }

  lemma {:induction false} CeilingIsHeld(u: Setup, s: Core) returns (st: LogStream, h: Held)
    requires Inv(u, s) && Ceiling(u, s).Some?
    ensures h in HeldBy(s.slots, st) && h.ctx.start == Ceiling(u, s).value
  {
    BufferedStartIsLowest(s.slots);
    var i :| 0 <= i < |s.slots| && s.slots[i].asm.held != [] && s.slots[i].asm.held[0].ctx.start == Ceiling(u, s).value;
    st, h := s.slots[i].stream, s.slots[i].asm.held[0];
    SlotIndexIs(s.slots, st, i);
  }

  lemma {:induction false} RestartStartsRun(u: Setup, s: Core, end: nat, gone: nat, acked: nat)
    requires Proper(u) && RunInv(u, s, gone, acked) && s.position <= end <= |u.file|
    ensures RunInv(u, Restarted(u, s, end), 0, 0)
  {
    var r := Restarted(u, s, end);
    RestartKeepsInv(u, s, end);
    SessionStarts(u, r);
    StartsOrder(u.file, s.position, end);
    assert forall st :: HeldBy(InitialSlots, st) == [];
  }

  ghost predicate NotBack(a: Option<nat>, b: Option<nat>) {
    a.Some? ==> b.Some? && a.value <= b.value
  }

  lemma {:induction false} SaveKeepsRun(u: Setup, s: Core, gone: nat, acked: nat)
    requires Proper(u) && KeepsFileOrder(u) && RunInv(u, s, gone, acked) && CheckpointOffset(u, s).Some?
    ensures RunInv(u, AfterSave(u, s, true), gone + acked, 0)
    ensures NotBack(s.checkpoint, AfterSave(u, s, true).checkpoint)
  {
    hide SessionInv;
    StepKeepsSessionInv(u, s, SaveCheckpoint(true));
    SaveKeepsInStep(u, s, gone, acked);
    SaveLeavesBehind(u, s, gone, acked);
    if s.checkpoint.Some? {
      SaveMovesOn(u, s, gone, acked);
    }
  }

  lemma {:induction false} StepKeepsRun(u: Setup, s: Core, gone: nat, acked: nat, step: Step)
      returns (gone': nat, acked': nat)
    requires Proper(u) && KeepsFileOrder(u) && RunInv(u, s, gone, acked) && Enabled(u, s, step)
    ensures RunInv(u, Next(u, s, step), gone', acked')
    ensures NotBack(s.checkpoint, Next(u, s, step).checkpoint)
  {
    hide SessionInv, InStep, AllFrom;
    match step {
      case Restart(end) =>
        RestartStartsRun(u, s, end, gone, acked);
        gone', acked' := 0, 0;
      case SaveCheckpoint(saved) =>
        if saved && CheckpointOffset(u, s).Some? {
          SaveKeepsRun(u, s, gone, acked);
          gone', acked' := gone + acked, 0;
        } else {
          gone', acked' := gone, acked;
        }
      case Drain(handled, release) =>
        gone' := gone;
        acked' := DrainKeepsRun(u, s, gone, acked, handled, release);
      case DrainAndReplay(handled, release, accepted) =>
        gone' := gone;
        acked' := ReplayKeepsRun(u, s, gone, acked, handled, release, accepted);
      case Tend(op) =>
        gone', acked' := gone, acked;
        TendKeepsRun(u, s, gone, acked, op);
      case _ =>
        gone', acked' := gone, acked;
        StoringKeepsRun(u, s, gone, acked, step);
    }
  }

  lemma {:induction false} ReplayKeepsRun(
    u: Setup, s: Core, gone: nat, acked: nat, handled: nat, release: bool, accepted: nat)
    returns (acked': nat)
    requires Proper(u) && RunInv(u, s, gone, acked) && Enabled(u, s, DrainAndReplay(handled, release, accepted))
    ensures RunInv(u, AfterReplay(AfterDrain(s, handled, release), accepted), gone, acked')
  {
    hide SessionInv, Returned, Replayed;
    StepKeepsSessionInv(u, s, DrainAndReplay(handled, release, accepted));
    DrainKeepsInStep(s, gone, acked, handled, release);
    acked' := Min(acked + handled, |s.log| - gone);
    ReplayKeepsInStep(AfterDrain(s, handled, release), gone, acked', accepted);
  }

  lemma {:induction false} TendKeepsRun(u: Setup, s: Core, gone: nat, acked: nat, op: Upkeep)
    requires Proper(u) && RunInv(u, s, gone, acked) && Enabled(u, s, Tend(op))
    ensures RunInv(u, Next(u, s, Tend(op)), gone, acked)
  {
    hide SessionInv, Tended;
    StepKeepsSessionInv(u, s, Tend(op));
  }

  lemma {:induction false} DrainKeepsRun(u: Setup, s: Core, gone: nat, acked: nat, handled: nat, release: bool)
      returns (acked': nat)
    requires Proper(u) && RunInv(u, s, gone, acked) && handled <= |s.queue|
    ensures RunInv(u, AfterDrain(s, handled, release), gone, acked')
  {
    hide SessionInv;
    StepKeepsSessionInv(u, s, Drain(handled, release));
    DrainKeepsInStep(s, gone, acked, handled, release);
    acked' := Min(acked + handled, |s.log| - gone);
  }

  lemma {:induction false} StoringKeepsRun(u: Setup, s: Core, gone: nat, acked: nat, step: Step)
    requires Proper(u) && RunInv(u, s, gone, acked) && Enabled(u, s, step) && Stores(step)
    ensures RunInv(u, Next(u, s, step), gone, acked)
    ensures Next(u, s, step).checkpoint == s.checkpoint
  {
    hide AllFrom, Inv, View, FollowsStreams, FollowsFile, InStep;
    StoringStep(u, s, step);
    assert gone <= |s.log| by {
      GoneWithin(s, gone, acked);
    }
    StoringKeepsInStep(u, s, gone, acked, step);
    StepKeepsSessionInv(u, s, step);
    Positions(u, Next(u, s, step));
    GoneWithin(Next(u, s, step), gone, acked);
    if s.checkpoint.Some? {
      StoringKeepsFrom(u, s, step, gone, s.checkpoint.value);
    }
  }

  lemma {:induction false} GoneWithin(s: Core, gone: nat, acked: nat)
    requires InStep(s, gone, acked)
    ensures gone <= |s.log|
  {
  }

  lemma {:induction false} RunKeepsRunInv(u: Setup, at: nat, trace: seq<Core>, steps: seq<Step>, i: nat)
      returns (gone: nat, acked: nat)
    requires Proper(u) && KeepsFileOrder(u) && at <= |u.file| && IsRun(u, trace, steps) && trace[0] == Opened(u, at)
      && i < |trace|
    ensures RunInv(u, trace[i], gone, acked)
    ensures i > 0 ==> NotBack(trace[i - 1].checkpoint, trace[i].checkpoint)
  {
    if i == 0 {
      OpenedInv(u, at);
      SessionStarts(u, trace[0]);
      gone, acked := 0, 0;
    } else {
      hide RunInv, Next, Enabled;
      gone, acked := RunKeepsRunInv(u, at, trace, steps, i - 1);
      gone, acked := StepKeepsRun(u, trace[i - 1], gone, acked, steps[i - 1]);
    }
  }

  /**
   Over every run from a first start, crashes included, without aggregation or with a single
   stream: once a checkpoint is saved, every later one is at least as far.
   */
  lemma {:induction false} CheckpointNeverMovesBack(u: Setup, at: nat, trace: seq<Core>, steps: seq<Step>, i: nat,
      j: nat)
    requires Proper(u) && KeepsFileOrder(u) && at <= |u.file| && IsRun(u, trace, steps) && trace[0] == Opened(u, at)
    requires i <= j < |trace|
    ensures trace[i].checkpoint.Some? ==>
      trace[j].checkpoint.Some? && trace[i].checkpoint.value <= trace[j].checkpoint.value
  {
    hide RunInv, Next, Enabled, Opened, KeepsFileOrder;
    if i < j {
      CheckpointNeverMovesBack(u, at, trace, steps, i, j - 1);
      var _, _ := RunKeepsRunInv(u, at, trace, steps, j);
    }
  }

  // -------------------------------------------------------- exactly when a save moves it back

  /** Any number of streams: no line still held starts before the saved checkpoint. */
  ghost predicate HeldPastCheckpoint(u: Setup, s: Core) {
    Inv(u, s) && s.position <= |u.file| && (s.checkpoint.Some? ==> AllFrom(u, s, |s.log|, s.checkpoint.value))
  }

  lemma {:induction false} AllFromLater(u: Setup, s: Core, gone: nat, later: nat, c: nat)
    requires s.position <= |u.file| && gone <= later <= |s.log| && AllFrom(u, s, gone, c)
    ensures AllFrom(u, s, later, c)
  {
    hide HeldBy;
    forall h | h in LinesIn(s.log[later..])
      ensures c <= h.ctx.start
    {
      var i := GroupOf(s.log[later..], h);
      assert s.log[gone..][later - gone + i] == s.log[later..][i];
    }
  }

  lemma {:induction false} SaveStaysBehindHeld(u: Setup, s: Core)
    requires Proper(u) && Inv(u, s) && s.position <= |u.file| && CheckpointOffset(u, s).Some?
    ensures AllFrom(u, s, |s.log|, CheckpointOffset(u, s).value)
  {
    hide HeldBy;
    var offset := CheckpointOffset(u, s).value;
    OfferedOffset(u, s);
    forall st, h | h in HeldBy(s.slots, st)
      ensures offset <= h.ctx.start
    {
      CeilingBelowHeld(u, s, st, h);
    }
    assert s.log[|s.log|..] == [];
  }

  lemma {:induction false} RestartStaysBehind(u: Setup, s: Core, end: nat)
    requires Proper(u) && HeldPastCheckpoint(u, s) && s.position <= end <= |u.file|
    ensures HeldPastCheckpoint(u, Restarted(u, s, end))
  {
    var r := Restarted(u, s, end);
    RestartKeepsInv(u, s, end);
    StartsOrder(u.file, s.position, end);
    assert forall st :: HeldBy(InitialSlots, st) == [];
    assert r.log[|r.log|..] == [];
  }

  lemma {:induction false} StepStaysBehind(u: Setup, s: Core, step: Step)
    requires Proper(u) && HeldPastCheckpoint(u, s) && Enabled(u, s, step)
    ensures HeldPastCheckpoint(u, Next(u, s, step))
  {
    hide AllFrom, Inv, HeldBy, Collect, FeedAll, KeptGroups, Safe, BufferedStart;
    StepKeepsInv(u, s, step);
    var r := Next(u, s, step);
    Positions(u, r);
    if step.Restart? {
      RestartStaysBehind(u, s, step.end);
    } else if step.SaveCheckpoint? {
      if step.saved && CheckpointOffset(u, s).Some? {
        SaveStaysBehindHeld(u, s);
        SameFrom(u, s, r, CheckpointOffset(u, s).value);
      }
    } else if s.checkpoint.Some? {
      if Stores(step) {
        StoringStep(u, s, step);
        StoringKeepsFrom(u, s, step, |s.log|, s.checkpoint.value);
        AllFromLater(u, r, |s.log|, |r.log|, s.checkpoint.value);
      } else {
        SameFrom(u, s, r, s.checkpoint.value);
      }
    }
  }

  lemma {:induction false} SameFrom(u: Setup, s: Core, r: Core, c: nat)
    requires s.position <= |u.file| && r.position == s.position && r.slots == s.slots && r.log == s.log
    requires AllFrom(u, s, |s.log|, c)
    ensures AllFrom(u, r, |r.log|, c)
  {
  }

  lemma {:induction false} RunStaysBehind(u: Setup, at: nat, trace: seq<Core>, steps: seq<Step>, i: nat)
    requires Proper(u) && at <= |u.file| && IsRun(u, trace, steps) && trace[0] == Opened(u, at) && i < |trace|
    ensures HeldPastCheckpoint(u, trace[i])
  {
    if i == 0 {
      OpenedInv(u, at);
    } else {
      hide HeldPastCheckpoint, Next, Enabled;
      RunStaysBehind(u, at, trace, steps, i - 1);
      StepStaysBehind(u, trace[i - 1], steps[i - 1]);
    }
  }

  ghost predicate MovesBack(a: Option<nat>, b: Option<nat>) {
    a.Some? && (b.Some? ==> b.value < a.value)
  }

  /** The last batch the next checkpoint would be taken from ends before the saved one. */
  ghost predicate AckedEndsBelow(s: Core) {
    var n := AckedPrefix(s.tracker.batches);
    s.checkpoint.Some? && n > 0 && s.tracker.batches[n - 1].endOffset < s.checkpoint.value
  }

  lemma {:induction false} CeilingNeverPullsBack(u: Setup, s: Core)
    requires HeldPastCheckpoint(u, s) && s.checkpoint.Some? && Ceiling(u, s).Some?
    ensures s.checkpoint.value <= Ceiling(u, s).value
  {
    hide Inv, HeldBy, BufferedStart;
    var st, h := CeilingIsHeld(u, s);
  }

  /**
   Over every run from a first start, crashes included, with any number of streams: a step moves the
   saved checkpoint back if and only if it is a save that commits and the last batch of the acked
   prefix ends before the checkpoint. What an assembler holds is never the cause.
   */
  lemma {:induction false} MovesBackExactlyWhen(u: Setup, at: nat, trace: seq<Core>, steps: seq<Step>, i: nat)
    requires Proper(u) && at <= |u.file| && IsRun(u, trace, steps) && trace[0] == Opened(u, at) && i < |steps|
    ensures MovesBack(trace[i].checkpoint, trace[i + 1].checkpoint) <==>
      steps[i] == SaveCheckpoint(true) && AckedEndsBelow(trace[i])
  {
    hide HeldPastCheckpoint, Enabled, Next, MovesBack, AckedEndsBelow;
    RunStaysBehind(u, at, trace, steps, i);
    StepMovesBack(u, trace[i], steps[i]);
  }

  lemma {:induction false} StepMovesBack(u: Setup, s: Core, step: Step)
    requires HeldPastCheckpoint(u, s) && Enabled(u, s, step)
    ensures MovesBack(s.checkpoint, Next(u, s, step).checkpoint) <==> step == SaveCheckpoint(true) && AckedEndsBelow(s)
  {
    if step.SaveCheckpoint? {
      hide HeldPastCheckpoint, BufferedStart;
      if s.checkpoint.Some? && Ceiling(u, s).Some? {
        CeilingNeverPullsBack(u, s);
      }
    } else {
      OnlySavesMove(u, s, step);
      hide Next;
    }
  }

  lemma {:induction false} OnlySavesMove(u: Setup, s: Core, step: Step)
    requires Enabled(u, s, step) && !step.SaveCheckpoint?
    ensures Next(u, s, step).checkpoint == s.checkpoint
  {
    if Stores(step) {
      StoringStep(u, s, step);
    }
    hide Handed, Collect, FeedAll, KeptGroups, LinesIn, Picked, TrackGroups;
  }
}
