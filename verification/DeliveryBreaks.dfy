/** Runs that show why the conditions on the delivery guarantees are needed. */
module DeliveryBreaks {
  import opened Common
  import opened LogFiles
  import opened BatchTracking
  import opened EntryAssembly
  import opened StreamAssembly
  import opened StreamAssemblyRuns
  import opened DeliveryProtocol
  import opened DeliverySafety
  import opened DeliverySessions
  import opened DeliveryOrder
  import opened DeliveryGuarantees

  // ------------------------------------------------------------------ room for a row or two

  lemma {:induction false} NoQueue(u: Setup)
    ensures GroupsBytes(u, Groups([])) == 0
  {
  }

  lemma {:induction false} OneRow(u: Setup, g: Emission)
    ensures GroupsBytes(u, [g]) == u.rowBytes(g)
  {
    assert [g][..0] == [];
  }

  lemma {:induction false} RoomForOne(u: Setup, g: Emission)
    ensures Room(u, [], [g]) <==> u.rowBytes(g) <= u.maxBytes
  {
    OneRow(u, g);
    NoQueue(u);
    hide GroupsBytes, Groups;
  }

  lemma {:induction false} RoomBehindOne(u: Setup, e: Entry, g: Emission)
    ensures Room(u, [e], [g]) <==> u.rowBytes(e.group) + u.rowBytes(g) <= u.maxBytes
  {
    OneRow(u, g);
    OneRow(u, e.group);
    assert Groups([e]) == [e.group];
    hide GroupsBytes, Groups;
  }

  // ------------------------------------------------------------- one more line, stored

  ghost function Alone(u: Setup, q: nat): Emission
    requires q < |u.file|
  {
    Emission(u.file[q].stream, [Line(u, q)])
  }

  /** `s` with line `q` stored, the reader past it and nothing held. */
  ghost predicate StoredOne(u: Setup, s: Core, q: nat, r: Core)
    requires q < |u.file|
  {
    var g := Alone(u, q);
    var id := s.lastSequence + 1;
    && r.queue == s.queue + [Entry(id, g)] && r.position == q + 1 && r.origin == s.origin
    && r.tracker == Tracked(s.tracker, FirstStart(g), LastEnd(g), u.inode, id, id)
    && r.log == s.log + [g] && r.checkpoint == s.checkpoint && r.settled == s.settled && r.spilled == s.spilled
      && r.dropped == s.dropped
    && r.lastSequence == id && r.blocked == s.blocked && r.closing == s.closing && r.onDisk == s.onDisk
    && Ceiling(u, r).None?
  }

  lemma {:induction false} StoreOneGroup(u: Setup, s: Core, g: Emission)
    requires g.lines != []
    ensures
      var id := s.lastSequence + 1;
      Store(u, s, [g], Stored) ==
      s.(queue := s.queue + [Entry(id, g)], lastSequence := id,
         tracker := Tracked(s.tracker, FirstStart(g), LastEnd(g), u.inode, id, id), log := s.log + [g])
  {
    assert [g][..0] == [];
    assert TrackGroups(s.tracker, u.inode, [g][..0], s.lastSequence) == s.tracker;
    assert Entries([g], s.lastSequence) == [Entry(s.lastSequence + 1, g)];
  }

  /** The slots of a fresh session holding one line. */
  ghost function HoldingOne(st: LogStream, h: Held, now: int): seq<StreamSlot> {
    var held := StreamSlot(st, Assembler([h], Some(now)));
    if st == Unspecified then [held] else InitialSlots + [held]
  }

  lemma {:induction false} FeedFirst(c: AssemblerConfig, a: Arrival)
    requires c.maxLines > 0
    ensures Feed(c, InitialSlots, a) == Progress([], HoldingOne(a.stream, a.held, a.now))
  {
    assert IdleAssembler.held + [a.held] == [a.held];
    assert Fed(c, IdleAssembler, a.held, a.now) == Advance([], Assembler([a.held], Some(a.now)));
    if a.stream == Unspecified {
      SlotIndexIs(InitialSlots, a.stream, 0);
      assert InitialSlots[0 := StreamSlot(a.stream, Assembler([a.held], Some(a.now)))]
        == HoldingOne(a.stream, a.held, a.now);
    } else {
      SlotIndexIs(InitialSlots, a.stream, 1);
      var ready := Ensured(InitialSlots, a.stream);
      assert ready == InitialSlots + [StreamSlot(a.stream, IdleAssembler)] && ready[1].asm == IdleAssembler;
      assert ready[1 := StreamSlot(a.stream, Assembler([a.held], Some(a.now)))] == HoldingOne(a.stream, a.held, a.now);
    }
  }

  lemma {:induction false} FeedAllFirst(c: AssemblerConfig, a: Arrival)
    requires c.maxLines > 0
    ensures FeedAll(c, InitialSlots, [a]) == Progress([], HoldingOne(a.stream, a.held, a.now))
  {
    FeedAllOne(c, InitialSlots, a);
    FeedFirst(c, a);
  }

  /** Three arrivals, the first two of which emit nothing. */
  lemma {:induction false} FeedThree(c: AssemblerConfig, a: seq<Arrival>, s1: seq<StreamSlot>, s2: seq<StreamSlot>)
    requires |a| == 3
    requires FeedAll(c, InitialSlots, [a[0]]) == Progress([], s1) && Feed(c, s1, a[1]) == Progress([], s2)
    ensures FeedAll(c, InitialSlots, a) == Feed(c, s2, a[2])
  {
    hide Feed;
    var e: seq<Emission> := [];
    assert a[..2] == [a[0], a[1]] && [a[0], a[1]][..1] == [a[0]];
    assert e + e == e;
    assert FeedAll(c, InitialSlots, [a[0], a[1]]) == Progress([], s2);
    assert e + Feed(c, s2, a[2]).emissions == Feed(c, s2, a[2]).emissions;
  }

  // ------------------------------------------------------------ one line through the assemblers

  ghost predicate AllIdle(slots: seq<StreamSlot>) {
    forall i :: 0 <= i < |slots| ==> slots[i].asm == IdleAssembler
  }

  /** Only slot `j` holds anything, and that is the one line. */
  ghost predicate HoldsOnly(slots: seq<StreamSlot>, j: nat, a: Arrival) {
    && j < |slots| && slots[j] == StreamSlot(a.stream, Assembler([a.held], Some(a.now)))
    && forall i :: 0 <= i < |slots| && i != j ==> slots[i].asm == IdleAssembler
  }

  lemma {:induction false} FeedIdle(c: AssemblerConfig, slots: seq<StreamSlot>, a: Arrival) returns (j: nat)
    requires c.maxLines > 0 && AllIdle(slots)
    ensures Feed(c, slots, a).emissions == [] && HoldsOnly(Feed(c, slots, a).slots, j, a)
  {
    j := SlotIndex(slots, a.stream);
    if j < |slots| {
      assert IdleAssembler.held + [a.held] == [a.held];
      FeedKnown(c, slots, a, j, Advance([], Assembler([a.held], Some(a.now))));
    } else {
      FeedNew(c, slots, a);
    }
    hide Feed, SlotIndex;
  }

  lemma {:induction false} NothingTimesOut(c: AssemblerConfig, slots: seq<StreamSlot>, now: int)
    requires AllIdle(slots)
    ensures Collect(c, slots, OnTimeout(now)) == Progress([], slots)
  {
    if slots != [] {
      NothingTimesOut(c, slots[..|slots| - 1], now);
      assert slots == slots[..|slots| - 1] + [slots[|slots| - 1]];
    }
  }

  /** The first idle check after the timeout. */
  function Late(c: AssemblerConfig, now: int): int {
    now + c.timeout + 1
  }

  /** A moment by which a line that arrived at `now` has been handed over. */
  function Later(u: Setup, now: int): int {
    if u.assembly.None? then now else Late(u.assembly.value, now)
  }

  lemma {:induction false} OneTimesOut(c: AssemblerConfig, slots: seq<StreamSlot>, j: nat, a: Arrival)
    requires HoldsOnly(slots, j, a)
    ensures
      var p := Collect(c, slots, OnTimeout(Late(c, a.now)));
      p.emissions == [Emission(a.stream, [a.held])] && AllIdle(p.slots)
  {
    var n := |slots| - 1;
    if j == n {
      NothingTimesOut(c, slots[..n], Late(c, a.now));
      assert [] + [Emission(a.stream, [a.held])] == [Emission(a.stream, [a.held])];
    } else {
      OneTimesOut(c, slots[..n], j, a);
    }
  }

  lemma {:induction false} IdleStartsNowhere(slots: seq<StreamSlot>)
    requires AllIdle(slots)
    ensures BufferedStart(slots).None?
  {
    if slots != [] {
      IdleStartsNowhere(slots[..|slots| - 1]);
    }
  }

  /** The next line to be kept from `p` on is `q`: blank ones are passed over without aggregation. */
  ghost predicate NextKept(u: Setup, p: nat, q: nat) {
    && p <= q < |u.file|
    && if u.assembly.Some? then q == p else !IsBlank(u.file[q].payload) && forall j :: p <= j < q ==>
      IsBlank(u.file[j].payload)
  }

  /** Without aggregation one read, up to and including the line, hands over that line alone. */
  lemma {:induction false} PlainTakes(u: Setup, s: Core, q: nat, outcome: StoreOutcome)
    requires u.assembly.None? && NextKept(u, s.position, q) && !s.closing && !s.blocked
    requires Allows(u, s.queue, [Alone(u, q)], outcome)
    ensures
      var times := seq(q + 1 - s.position, _ => 0);
      && Enabled(u, s, Read(|times|, times, outcome)) && Possible(u, s, Read(|times|, times, outcome))
      && AfterRead(u, s, times, outcome) == Store(u, s.(position := q + 1), [Alone(u, q)], outcome)
  {
    hide Store, KeptGroups, Allows;
    PlainKeeps(u, s.position, q);
  }

  lemma {:induction false} PlainKeeps(u: Setup, p: nat, q: nat)
    requires u.assembly.None? && NextKept(u, p, q)
    ensures KeptGroups(Arrivals(u, p, seq(q + 1 - p, _ => 0))) == [Alone(u, q)]
  {
    hide IsBlank, StartOf;
    var a := Arrivals(u, p, seq(q + 1 - p, _ => 0));
    var n := |a| - 1;
    assert a[n] == Arrival(u.file[q].stream, Line(u, q), 0);
    assert forall i :: 0 <= i < n ==> a[i].held.line == u.file[p + i].payload;
    KeptNone(a[..n]);
    assert [] + [Alone(u, q)] == [Alone(u, q)];
  }

  lemma {:induction false} ReadHolds(u: Setup, s: Core, now: int) returns (j: nat)
    requires Proper(u) && u.assembly.Some? && AllIdle(s.slots) && s.position < |u.file|
    ensures Taken(u, s.slots, Arrivals(u, s.position, [now])).emissions == []
    ensures
      var r := AfterRead(u, s, [now], Stored);
      && r == s.(position := s.position + 1, slots := r.slots)
      && HoldsOnly(r.slots, j, Arrival(u.file[s.position].stream, Line(u, s.position), now))
  {
    var a := Arrival(u.file[s.position].stream, Line(u, s.position), now);
    hide Feed, FeedAll, HoldsOnly, StartOf;
    j := FeedIdle(u.assembly.value, s.slots, a);
    assert Arrivals(u, s.position, [now]) == [a];
    FeedAllOne(u.assembly.value, s.slots, a);
  }

  lemma {:induction false} FeedAllOne(c: AssemblerConfig, slots: seq<StreamSlot>, a: Arrival)
    ensures FeedAll(c, slots, [a]) == Feed(c, slots, a)
  {
    hide Feed;
    assert [a][..0] == [] && FeedAll(c, slots, []) == Progress([], slots);
    assert [] + Feed(c, slots, a).emissions == Feed(c, slots, a).emissions;
  }

  /** With aggregation a read holds the line and an idle check hands it over. */
  lemma {:induction false} AssemblyTakes(u: Setup, s: Core, now: int, outcome: StoreOutcome)
      returns (slots: seq<StreamSlot>)
    requires Proper(u) && u.assembly.Some? && AllIdle(s.slots) && s.position < |u.file| && !s.closing && !s.blocked
    requires Allows(u, s.queue, [Alone(u, s.position)], outcome)
    ensures AllIdle(slots)
    ensures Enabled(u, s, Read(1, [now], Stored)) && Possible(u, s, Read(1, [now], Stored))
    ensures
      var r := AfterRead(u, s, [now], Stored);
      var check := IdleCheck(Late(u.assembly.value, now), outcome);
      && Enabled(u, r, check) && Possible(u, r, check)
      && Next(u, r, check) == Store(u, s.(position := s.position + 1, slots := slots), [Alone(u, s.position)], outcome)
  {
    hide Collect, Store, StartOf, AfterRead, HoldsOnly, AllIdle, Taken, Room;
    var j := ReadHolds(u, s, now);
    var r := AfterRead(u, s, [now], Stored);
    OneTimesOut(u.assembly.value, r.slots, j, Arrival(u.file[s.position].stream, Line(u, s.position), now));
    slots := Collect(u.assembly.value, r.slots, OnTimeout(Late(u.assembly.value, now))).slots;
  }

  ghost predicate OnlyStores(steps: seq<Step>) {
    forall i :: 0 <= i < |steps| ==> Stores(steps[i])
  }

  ghost predicate NoneSpilled(steps: seq<Step>) {
    forall i :: 0 <= i < |steps| ==> Stores(steps[i]) && !steps[i].outcome.NoRoom?
  }

  /** A run that takes in the next line to be kept and comes to the given outcome when storing it. */
  lemma {:induction false} TakeNext(u: Setup, s: Core, q: nat, now: int, outcome: StoreOutcome)
    returns (trace: seq<Core>, steps: seq<Step>, slots: seq<StreamSlot>)
    requires Proper(u) && AllIdle(s.slots) && !s.blocked && !s.closing && NextKept(u, s.position, q)
    requires Allows(u, s.queue, [Alone(u, q)], outcome)
    ensures IsRun(u, trace, steps) && trace[0] == s && OnlyStores(steps) && AllIdle(slots)
    ensures !outcome.NoRoom? ==> NoneSpilled(steps)
    ensures trace[|trace| - 1] == Store(u, s.(position := q + 1, slots := slots), [Alone(u, q)], outcome)
  {
    hide AfterRead, Collected, Store, IsBlank, AllIdle, Possible, Allows;
    if u.assembly.None? {
      PlainTakes(u, s, q, outcome);
      var times := seq(q + 1 - s.position, _ => 0);
      slots := s.slots;
      trace, steps := [s, AfterRead(u, s, times, outcome)], [Read(|times|, times, outcome)];
    } else {
      slots := AssemblyTakes(u, s, now, outcome);
      var r := AfterRead(u, s, [now], Stored);
      var check := IdleCheck(Late(u.assembly.value, now), outcome);
      trace, steps := [s, r, Next(u, r, check)], [Read(1, [now], Stored), check];
    }
  }

  lemma {:induction false} StoreIsOne(u: Setup, s: Core, q: nat, slots: seq<StreamSlot>)
    requires q < |u.file| && AllIdle(slots)
    ensures StoredOne(u, s, q, Store(u, s.(position := q + 1, slots := slots), [Alone(u, q)], Stored))
  {
    StoreOneGroup(u, s.(position := q + 1, slots := slots), Alone(u, q));
    IdleStartsNowhere(slots);
    hide Store, BufferedStart;
  }

  lemma {:induction false} ExtendRun(u: Setup, trace: seq<Core>, steps: seq<Step>, step: Step)
    requires IsRun(u, trace, steps)
    requires Enabled(u, trace[|trace| - 1], step) && Possible(u, trace[|trace| - 1], step)
    ensures IsRun(u, trace + [Next(u, trace[|trace| - 1], step)], steps + [step])
  {
    hide Enabled, Possible, Next;
    var trace' := trace + [Next(u, trace[|trace| - 1], step)];
    var steps' := steps + [step];
    forall i | 0 <= i < |steps'|
      ensures Enabled(u, trace'[i], steps'[i]) && Possible(u, trace'[i], steps'[i])
      ensures trace'[i + 1] == Next(u, trace'[i], steps'[i])
    {
      if i < |steps| {
        assert trace'[i] == trace[i] && trace'[i + 1] == trace[i + 1] && steps'[i] == steps[i];
      }
    }
  }

  lemma {:induction false} RunOfNothing(u: Setup, s: Core)
    ensures IsRun(u, [s], [])
  {
  }

  lemma {:induction false} ThenRead(u: Setup, trace: seq<Core>, steps: seq<Step>, s: Core, times: seq<int>,
      outcome: StoreOutcome)
    requires IsRun(u, trace, steps) && trace[|trace| - 1] == s
    requires !s.blocked && !s.closing && 1 <= |times| && s.position + |times| <= |u.file|
    requires Possible(u, s, Read(|times|, times, outcome))
    ensures IsRun(u, trace + [AfterRead(u, s, times, outcome)], steps + [Read(|times|, times, outcome)])
  {
    hide IsRun, AfterRead, Possible;
    ExtendRun(u, trace, steps, Read(|times|, times, outcome));
  }

  lemma {:induction false} ThenDrain(u: Setup, trace: seq<Core>, steps: seq<Step>, s: Core, handled: nat, release: bool)
    requires IsRun(u, trace, steps) && trace[|trace| - 1] == s && handled <= |s.queue|
    ensures IsRun(u, trace + [AfterDrain(s, handled, release)], steps + [Drain(handled, release)])
  {
    hide IsRun, AfterDrain;
    ExtendRun(u, trace, steps, Drain(handled, release));
  }

  lemma {:induction false} ThenSave(u: Setup, trace: seq<Core>, steps: seq<Step>, s: Core)
    requires IsRun(u, trace, steps) && trace[|trace| - 1] == s
    ensures IsRun(u, trace + [AfterSave(u, s, true)], steps + [SaveCheckpoint(true)])
  {
    hide IsRun, AfterSave;
    ExtendRun(u, trace, steps, SaveCheckpoint(true));
  }

  lemma {:induction false} ThenRestart(u: Setup, trace: seq<Core>, steps: seq<Step>, s: Core, end: nat)
    requires IsRun(u, trace, steps) && trace[|trace| - 1] == s && s.position <= end <= |u.file|
    ensures IsRun(u, trace + [Restarted(u, s, end)], steps + [Restart(end)])
  {
    hide IsRun, Restarted;
    ExtendRun(u, trace, steps, Restart(end));
  }

  // ------------------------------------------------------ acknowledging a backlog by count

  /** One batch, tracked and acked, offers its own end. */
  lemma {:induction false} AckedAlone(before: Tracker, start: nat, end: nat, inode: nat, id: nat)
    requires before.batches == []
    ensures
      var t := AckOldestTimes(Tracked(before, start, end, inode, id, id), 1);
      Safe(t).Some? && Safe(t).value.offset == end && Drained(t).batches == []
  {
    var b := TrackedBatch(before.nextSequence, start, end, inode, id, id, Pending);
    var t := Tracked(before, start, end, inode, id, id);
    assert t.batches == [b];
    OldestPendingIs(t.batches, 0);
    var after := AckOldest(t);
    assert after.batches == [b.(status := Acked)];
    assert AckOldestTimes(after, 0) == after;
    AckedPrefixIs(after.batches, 1);
  }

  /** Nothing is known of line `q` yet, and it is one to be delivered. */
  ghost predicate FreshLine(u: Setup, s: Core, q: nat) {
    && s.origin <= q < |u.file| && !BlankSkipped(u, q)
    && Line(u, q) !in s.settled && !NotStored(s, Line(u, q)) && Line(u, q) !in EntryLines(s.queue)
  }

  /** Draining one untracked entry acknowledges the new line, and the checkpoint passes it undelivered. */
  lemma {:induction false} UntrackedAcksTheWrongLine(u: Setup, s: Core, q: nat, r: Core)
    requires Proper(u) && s.tracker.batches == [] && s.queue != [] && FreshLine(u, s, q) && StoredOne(u, s, q, r)
    ensures !CheckpointDelivered(u, AfterSave(u, AfterDrain(r, 1, false), true))
  {
    var d := AfterDrain(r, 1, false);
    var g := Alone(u, q);
    AckedAlone(s.tracker, FirstStart(g), LastEnd(g), u.inode, s.lastSequence + 1);
    assert Ceiling(u, d) == Ceiling(u, r);
    var f := AfterSave(u, d, true);
    assert f.checkpoint == Some(StartOf(u.file, q + 1));
    BoundaryLine(u.file, q + 1);
    assert r.queue[..1] == s.queue[..1];
    SplitEntryLines(s.queue, 1);
    assert Line(u, q) !in f.settled;
  }

  /**
   The next line is one to be kept that nothing is known of yet, and it has room behind the last
   entry of the queue.
   */
  ghost predicate FreshLineNext(u: Setup, s: Core, q: nat) {
    && NextKept(u, s.position, q) && FreshLine(u, s, q)
    && (s.queue != [] ==> Room(u, [s.queue[|s.queue| - 1]], [Alone(u, q)]))
  }

  /** A backlog worked off but for its last entry. */
  lemma {:induction false} DrainToLast(u: Setup, s: Core) returns (trace: seq<Core>, steps: seq<Step>)
    requires SessionStart(s) && s.queue != []
    ensures IsRun(u, trace, steps) && trace[0] == s && OnlyDrains(steps)
    ensures trace[|trace| - 1] == s || trace[|trace| - 1] == AfterDrain(s, |s.queue| - 1, false)
    ensures |trace[|trace| - 1].queue| == 1
  {
    trace, steps := [s], [];
    if |s.queue| > 1 {
      ThenDrain(u, trace, steps, s, |s.queue| - 1, false);
      trace, steps := trace + [AfterDrain(s, |s.queue| - 1, false)], steps + [Drain(|s.queue| - 1, false)];
    }
  }

  ghost predicate OnlyDrains(steps: seq<Step>) {
    forall i :: 0 <= i < |steps| ==> steps[i].Drain?
  }

  lemma {:induction false} LastLeft(u: Setup, s: Core, q: nat, d: Core)
    requires SessionStart(s) && s.queue != [] && FreshLineNext(u, s, q) && |d.queue| == 1
    requires d == s || d == AfterDrain(s, |s.queue| - 1, false)
    ensures d.tracker == EmptyTracker && d.slots == InitialSlots && !d.blocked && !d.closing
    ensures NextKept(u, d.position, q) && FreshLine(u, d, q) && Room(u, d.queue, [Alone(u, q)])
  {
    hide Room, LinesIn, EntryLines, NextKept, BlankSkipped, LineOf;
    var n := |s.queue| - 1;
    if d != s {
      InNeitherPart(s.queue, n, Line(u, q));
      AckingNothing(n);
    }
    assert d.queue == [s.queue[n]];
  }

  lemma {:induction false} InNeitherPart(queue: seq<Entry>, n: nat, h: Held)
    requires n <= |queue| && h !in EntryLines(queue)
    ensures h !in EntryLines(queue[..n]) && h !in EntryLines(queue[n..])
  {
    SplitEntryLines(queue, n);
  }

  lemma {:induction false} AckingNothing(times: nat)
    ensures AckOldestTimes(EmptyTracker, times) == EmptyTracker
    decreases times
  {
    if times > 0 {
      AckingNothing(times - 1);
    }
  }

  /** The fresh line, stored behind an entry no batch stands for, is acknowledged in its place. */
  lemma {:induction false} WrongLineAcked(u: Setup, d: Core, r: nat, now: int)
      returns (trace: seq<Core>, steps: seq<Step>)
    requires Proper(u) && d.tracker.batches == [] && d.queue != [] && AllIdle(d.slots) && !d.blocked && !d.closing
    requires NextKept(u, d.position, r) && FreshLine(u, d, r) && Room(u, d.queue, [Alone(u, r)])
    ensures IsRun(u, trace, steps) && trace[0] == d && Plain(steps)
    ensures !CheckpointDelivered(u, trace[|trace| - 1])
  {
    hide *;
    KeptIsLine(u, d.position, r);
    StoredAllowed(u, d.queue, Alone(u, r));
    var slots;
    trace, steps, slots := TakeNext(u, d, r, now, Stored);
    RunStarts(u, trace, steps);
    StoresArePlain(steps);
    StoreIsOne(u, d, r, slots);
    var e := trace[|trace| - 1];
    QueueGrew(u, d, r, e);
    UntrackedAcksTheWrongLine(u, d, r, e);
    ThenDrain(u, trace, steps, e, 1, false);
    OnePlain(Drain(1, false));
    PlainJoin(steps, [Drain(1, false)]);
    var x := AfterDrain(e, 1, false);
    trace, steps := trace + [x], steps + [Drain(1, false)];
    ThenSave(u, trace, steps, x);
    OnePlain(SaveCheckpoint(true));
    PlainJoin(steps, [SaveCheckpoint(true)]);
    trace, steps := trace + [AfterSave(u, x, true)], steps + [SaveCheckpoint(true)];
  }

  lemma {:induction false} StoredAllowed(u: Setup, queue: seq<Entry>, g: Emission)
    requires Room(u, queue, [g])
    ensures Allows(u, queue, [g], Stored)
  {
  }

  lemma {:induction false} QueueGrew(u: Setup, d: Core, r: nat, e: Core)
    requires r < |u.file| && StoredOne(u, d, r, e)
    ensures |e.queue| >= 1
  {
  }

  lemma {:induction false} KeptIsLine(u: Setup, p: nat, q: nat)
    requires NextKept(u, p, q)
    ensures p <= q < |u.file| && !BlankSkipped(u, q)
  {
  }

  lemma {:induction false} RunStarts(u: Setup, trace: seq<Core>, steps: seq<Step>)
    requires IsRun(u, trace, steps)
    ensures |trace| == |steps| + 1
  {
  }

  lemma {:induction false} StoresArePlain(steps: seq<Step>)
    requires NoneSpilled(steps)
    ensures Plain(steps)
  {
  }

  /** No reopen, nothing from the overflow store, and nothing for it. */
  ghost predicate Plain(steps: seq<Step>) {
    forall i :: 0 <= i < |steps| ==> IsPlain(steps[i])
  }

  predicate IsPlain(step: Step) {
    !step.Restart? && !step.DrainAndReplay? && !step.Tend? && (Stores(step) ==> !step.outcome.NoRoom?)
  }

  lemma {:induction false} OnePlain(step: Step)
    requires step.Drain? || step.SaveCheckpoint?
    ensures Plain([step])
  {
  }

  lemma {:induction false} PlainJoin(a: seq<Step>, b: seq<Step>)
    requires Plain(a) && Plain(b)
    ensures Plain(a + b)
  {
  }

  lemma {:induction false} JoinRuns(u: Setup, a: seq<Core>, x: seq<Step>, b: seq<Core>, y: seq<Step>)
    requires IsRun(u, a, x) && IsRun(u, b, y) && a[|a| - 1] == b[0]
    ensures IsRun(u, a + b[1..], x + y)
  {
    hide Enabled, Possible, Next;
    var trace, steps := a + b[1..], x + y;
    forall i | 0 <= i < |steps|
      ensures Enabled(u, trace[i], steps[i]) && Possible(u, trace[i], steps[i])
      ensures trace[i + 1] == Next(u, trace[i], steps[i])
    {
      if i < |x| {
        assert trace[i] == a[i] && trace[i + 1] == a[i + 1];
      } else {
        assert trace[i] == b[i - |x|] && trace[i + 1] == b[i - |x| + 1];
      }
    }
  }

  lemma {:induction false} LastOfJoin(a: seq<Core>, b: seq<Core>)
    requires a != [] && b != [] && a[|a| - 1] == b[0]
    ensures var t := a + b[1..]; t[|t| - 1] == b[|b| - 1] && t[0] == a[0]
  {
  }

  lemma {:induction false} BacklogBreaksDelivery(u: Setup, s: Core, q: nat)
      returns (trace: seq<Core>, steps: seq<Step>)
    requires Proper(u) && SessionStart(s) && s.queue != [] && FreshLineNext(u, s, q)
    ensures IsSession(u, trace, steps) && Plain(steps) && trace[0] == s
    ensures !CheckpointDelivered(u, trace[|trace| - 1])
  {
    hide *;
    trace, steps := DrainToLast(u, s);
    RunStarts(u, trace, steps);
    DrainsArePlain(steps);
    var d := trace[|trace| - 1];
    LastLeft(u, s, q, d);
    FreshIsIdle(d);
    var trace', steps' := WrongLineAcked(u, d, q, 0);
    RunStarts(u, trace', steps');
    JoinRuns(u, trace, steps, trace', steps');
    PlainJoin(steps, steps');
    LastOfJoin(trace, trace');
    trace, steps := trace + trace'[1..], steps + steps';
    PlainSession(u, trace, steps);
  }

  lemma {:induction false} DrainsArePlain(steps: seq<Step>)
    requires OnlyDrains(steps)
    ensures Plain(steps)
  {
  }

  lemma {:induction false} FreshIsIdle(d: Core)
    requires d.tracker == EmptyTracker && d.slots == InitialSlots && |d.queue| == 1
    ensures d.tracker.batches == [] && AllIdle(d.slots) && d.queue != []
  {
  }

  lemma {:induction false} PlainSession(u: Setup, trace: seq<Core>, steps: seq<Step>)
    requires IsRun(u, trace, steps) && SessionStart(trace[0]) && Plain(steps)
    ensures IsSession(u, trace, steps) && NoReplay(steps)
  {
  }

  /** Every session from `s` into which no line is replayed has everything below its checkpoint delivered. */
  ghost predicate AlwaysDelivers(u: Setup, s: Core) {
    forall trace, steps :: IsSession(u, trace, steps) && NoReplay(steps) && trace[0] == s ==>
      CheckpointDelivered(u, trace[|trace| - 1])
  }

  /**
   Acknowledging by count is sound exactly on an empty backlog: a session whose events keep file
   order and into which nothing is replayed always has everything below its checkpoint delivered if
   and only if it starts on an empty queue.
   */
  lemma {:induction false} DeliversExactlyOnEmptyBacklog(u: Setup, s: Core, q: nat)
    requires Proper(u) && KeepsFileOrder(u) && Inv(u, s) && SessionStart(s)
    requires CheckpointDelivered(u, s) && FreshLineNext(u, s, q)
    ensures AlwaysDelivers(u, s) <==> s.queue == []
  {
    hide Inv, CheckpointDelivered, FreshLineNext, KeepsFileOrder, SessionStart;
    if s.queue == [] {
      forall trace: seq<Core>, steps: seq<Step> | IsSession(u, trace, steps) && NoReplay(steps) && trace[0] == s
        ensures CheckpointDelivered(u, trace[|trace| - 1])
      {
        EmptyStartDelivers(u, trace, steps, |trace| - 1);
      }
    } else {
      var trace, steps := BacklogBreaksDelivery(u, s, q);
      PlainSession(u, trace, steps);
      assert !AlwaysDelivers(u, s);
    }
  }

  // ------------------------------------------------------- reopening at the end of the file

  /**
   A reopen passes over a line that is neither settled, queued nor otherwise accounted for if and
   only if the reader finds nothing to resume from, and such a line was in an assembler when the
   process died or had not been read by then. A Kubernetes reader takes a saved offset of zero for
   nothing.
   */
  lemma {:induction false} ReopenSkipsExactlyWhen(u: Setup, s: Core, end: nat)
    requires Proper(u) && Inv(u, s) && s.position <= end <= |u.file|
    ensures (exists k :: 0 <= k < Restarted(u, s, end).position && !Covered(u, s, k))
            <==> !Resumes(u, s) && ((exists k :: 0 <= k < s.position && HeldBack(u, s, k) && !Covered(u, s, k))
                                    || exists k :: s.position <= k < end && !Covered(u, s, k))
  {
    hide Covered, HeldBack;
    if !Resumes(u, s) {
      if k :| 0 <= k < Restarted(u, s, end).position && !Covered(u, s, k) {
        assert k < s.position ==> HeldBack(u, s, k);
      }
    }
  }

  function SkipSetup(): Setup {
    Setup([FileLine([97], 2, Stderr), FileLine([98], 2, Stdout), FileLine([99], 2, Stdout)], 7,
          Some(AssemblerConfig(_ => false, 1, 1000)), true, false, _ => 1, 100)
  }

  /** Three lines, the first on stderr, each its own event once the next of its stream arrives. */
  ghost predicate SkipShape(u: Setup) {
    && Proper(u) && u.kubernetes && |u.file| == 3
    && u.file[0].stream == Stderr && u.file[1].stream == Stdout && u.file[2].stream == Stdout
    && u.assembly.Some? && u.assembly.value.maxLines == 1 && (forall b :: !u.assembly.value.isStart(b))
    && forall g :: u.rowBytes(g) <= u.maxBytes
  }

  lemma {:induction false} FedApart(c: AssemblerConfig, l1: Held, l2: Held)
    requires c.maxLines == 1
    ensures Fed(c, Assembler([l1], Some(0)), l2, 0) == Advance([l1], Assembler([l2], Some(0)))
  {
  }

  lemma {:induction false} SkipFeeds(c: AssemblerConfig, l0: Held, l1: Held, l2: Held)
    requires c.maxLines == 1 && forall b :: !c.isStart(b)
    ensures
      FeedAll(c, InitialSlots, [Arrival(Stderr, l0, 0), Arrival(Stdout, l1, 0), Arrival(Stdout, l2, 0)])
      == Progress([Emission(Stdout, [l1])],
                  [InitialSlots[0], StreamSlot(Stderr, Assembler([l0], Some(0))),
                    StreamSlot(Stdout, Assembler([l2], Some(0)))])
  {
    hide FeedAll, Feed, Fed;
    var a := [Arrival(Stderr, l0, 0), Arrival(Stdout, l1, 0), Arrival(Stdout, l2, 0)];
    var s1 := InitialSlots + [StreamSlot(Stderr, Assembler([l0], Some(0)))];
    var s2 := s1 + [StreamSlot(Stdout, Assembler([l1], Some(0)))];
    FeedAllFirst(c, a[0]);
    FeedNew(c, s1, a[1]);
    FedApart(c, l1, l2);
    FeedKnown(c, s2, a[2], 2, Advance([l1], Assembler([l2], Some(0))));
    FeedThree(c, a, s1, s2);
    assert s2[2 := StreamSlot(Stdout, Assembler([l2], Some(0)))]
        == [InitialSlots[0], StreamSlot(Stderr, Assembler([l0], Some(0))),
          StreamSlot(Stdout, Assembler([l2], Some(0)))];
  }

  function SkipSlots(u: Setup): seq<StreamSlot>
    requires |u.file| == 3
  {
    [InitialSlots[0], StreamSlot(Stderr, Assembler([Line(u, 0)], Some(0))),
      StreamSlot(Stdout, Assembler([Line(u, 2)], Some(0)))]
  }

  lemma {:induction false} SkipReads(u: Setup, s: Core)
    requires SkipShape(u) && s == Opened(u, 0)
    ensures Taken(u, s.slots, Arrivals(u, 0, [0, 0, 0])).emissions == [Emission(Stdout, [Line(u, 1)])]
    ensures
      var g := Emission(Stdout, [Line(u, 1)]);
      AfterRead(u, s, [0, 0, 0], Stored) ==
      s.(queue := [Entry(1, g)], lastSequence := 1,
        tracker := Tracked(EmptyTracker, FirstStart(g), LastEnd(g), u.inode, 1, 1),
         log := [g], position := 3, slots := SkipSlots(u))
  {
    hide FeedAll, Store, LineOf;
    SkipFeeds(u.assembly.value, Line(u, 0), Line(u, 1), Line(u, 2));
    assert Arrivals(u, 0, [0, 0, 0]) == [Arrival(Stderr, Line(u, 0), 0), Arrival(Stdout, Line(u, 1), 0),
      Arrival(Stdout, Line(u, 2), 0)];
    StoreOneGroup(u, s.(position := 3, slots := SkipSlots(u)), Emission(Stdout, [Line(u, 1)]));
  }

  lemma {:induction false} SkipCeiling(u: Setup)
    requires |u.file| == 3
    ensures BufferedStart(SkipSlots(u)) == Some(0)
  {
    var slots := SkipSlots(u);
    assert slots[..2] == [slots[0], slots[1]] && slots[..2][..1] == [slots[0]] && [slots[0]][..0] == [];
    assert BufferedStart([slots[0]]).None?;
    assert [slots[0], slots[1]][..1] == [slots[0]];
    assert BufferedStart([slots[0], slots[1]]) == Some(0);
  }

  /** The last state before the reopen: offset zero saved, line 0 only in its assembler. */
  lemma {:induction false} SkipSaves(u: Setup, r: Core, g: Emission)
    requires u.assembly.Some? && g.lines != [] && r.queue == [Entry(1, g)] && r.settled == {}
    requires r.tracker == Tracked(EmptyTracker, FirstStart(g), LastEnd(g), u.inode, 1, 1)
      && BufferedStart(r.slots) == Some(0)
    ensures
      var f := AfterSave(u, AfterDrain(r, 1, false), true);
      f.checkpoint == Some(0) && f.settled == LinesIn([g]) && f.queue == [] && f.position == r.position
  {
    AckedAlone(EmptyTracker, FirstStart(g), LastEnd(g), u.inode, 1);
    hide BufferedStart, Tracked, AckOldestTimes, Safe, LinesIn, EntryLines;
    SameLines(r.queue[..1], [g]);
  }

  lemma {:induction false} SkipReopens(u: Setup, f: Core)
    requires SkipShape(u) && f.checkpoint == Some(0) && f.settled == LinesIn([Emission(Stdout, [Line(u, 1)])])
      && f.queue == [] && f.position == 3
    ensures
      var e := Restarted(u, f, 3);
      && e.checkpoint == Some(0) && e.position == 3 && e.queue == []
      && Line(u, 0) !in e.settled && !HeldBack(u, e, 0)
  {
    StartsOrder(u.file, 0, 1);
    assert HeldBy(InitialSlots, Stderr) == [];
  }

  lemma {:induction false} SkipRun(u: Setup) returns (trace: seq<Core>, steps: seq<Step>)
    requires SkipShape(u)
    ensures IsRun(u, trace, steps) && trace[0] == Opened(u, 0) && |steps| > 0
    ensures
      var before, after := trace[|trace| - 2], trace[|trace| - 1];
      && before.checkpoint == Some(0) && after.checkpoint == Some(0) && after.position == 3
      && Line(u, 0) !in after.settled && after.queue == [] && !HeldBack(u, after, 0)
  {
    SkipStates(u);
    hide *;
    trace, steps := SkipTrace(u);
  }

  lemma {:induction false} SkipStates(u: Setup)
    requires SkipShape(u)
    ensures |u.file| == 3 && Opened(u, 0).position + 3 <= |u.file|
    ensures Allows(u, [], Taken(u, InitialSlots, Arrivals(u, 0, [0, 0, 0])).emissions, Stored)
    ensures
      var r := AfterRead(u, Opened(u, 0), [0, 0, 0], Stored);
      && |r.queue| == 1
      && var f := AfterSave(u, AfterDrain(r, 1, false), true);
      && f.position == 3 && f.checkpoint == Some(0)
      && var e := Restarted(u, f, 3);
      && e.checkpoint == Some(0) && e.position == 3 && Line(u, 0) !in e.settled && e.queue == [] && !HeldBack(u, e, 0)
  {
    var s := Opened(u, 0);
    var r := AfterRead(u, s, [0, 0, 0], Stored);
    SkipReads(u, s);
    SkipCeiling(u);
    RoomForOne(u, Emission(Stdout, [Line(u, 1)]));
    hide Room, Taken, AfterRead, AfterDrain, AfterSave, Restarted, HeldBack, LineOf, LinesIn, SkipSlots, BufferedStart,
      Tracked;
    SkipSaves(u, r, Emission(Stdout, [Line(u, 1)]));
    SkipReopens(u, AfterSave(u, AfterDrain(r, 1, false), true));
  }

  lemma {:induction false} SkipTrace(u: Setup) returns (trace: seq<Core>, steps: seq<Step>)
    requires |u.file| == 3 && Opened(u, 0).position + 3 <= |u.file|
    requires Allows(u, [], Taken(u, InitialSlots, Arrivals(u, 0, [0, 0, 0])).emissions, Stored)
    requires
      var r := AfterRead(u, Opened(u, 0), [0, 0, 0], Stored);
      |r.queue| == 1 && AfterSave(u, AfterDrain(r, 1, false), true).position == 3
    ensures IsRun(u, trace, steps) && |trace| == 5 && |steps| == 4 && trace[0] == Opened(u, 0)
    ensures
      var f := AfterSave(u, AfterDrain(AfterRead(u, Opened(u, 0), [0, 0, 0], Stored), 1, false), true);
      trace[3] == f && trace[4] == Restarted(u, f, 3)
  {
    var s := Opened(u, 0);
    assert !s.blocked && !s.closing;
    hide AfterRead, AfterDrain, AfterSave, Restarted, IsRun, Allows, Taken;
    var r := AfterRead(u, s, [0, 0, 0], Stored);
    var d := AfterDrain(r, 1, false);
    var f := AfterSave(u, d, true);
    RunOfNothing(u, s);
    ThenRead(u, [s], [], s, [0, 0, 0], Stored);
    trace, steps := [s] + [r], [] + [Read(3, [0, 0, 0], Stored)];
    ThenDrain(u, trace, steps, r, 1, false);
    trace, steps := trace + [d], steps + [Drain(1, false)];
    ThenSave(u, trace, steps, d);
    trace, steps := trace + [f], steps + [SaveCheckpoint(true)];
    ThenRestart(u, trace, steps, f, 3);
    trace, steps := trace + [Restarted(u, f, 3)], steps + [Restart(3)];
  }

  /**
   A saved checkpoint can be one a Kubernetes reader does not resume from: an event delivered on
   one stream while another stream still holds the file's first line saves offset zero, and the
   reopened reader starts past that line, which is neither delivered, queued nor held.
   */
  lemma {:induction false} KubernetesZeroCheckpointSkips() returns (u: Setup, trace: seq<Core>, steps: seq<Step>)
    ensures Proper(u) && IsRun(u, trace, steps) && |u.file| == 3 && trace[0] == Opened(u, 0) && |steps| > 0
    ensures
      var before, after := trace[|trace| - 2], trace[|trace| - 1];
      && before.checkpoint == Some(0) && after.checkpoint == Some(0) && after.position == 3
      && Line(u, 0) !in after.settled && after.queue == [] && !HeldBack(u, after, 0)
  {
    u := SkipSetup();
    trace, steps := SkipRun(u);
  }

  // ------------------------------------------------------------------ two streams

  function MixedSetup(): Setup {
    Setup([FileLine([97], 2, Stdout), FileLine([98], 2, Stderr), FileLine([99], 2, Stdout)], 7,
          Some(AssemblerConfig(_ => false, 10, 1000)), false, false, _ => 1, 100)
  }

  /** One event on stdout spans the first and third lines; the second line is stderr's. */
  ghost predicate MixedShape(u: Setup) {
    && Proper(u) && |u.file| == 3
    && u.file[0].stream == Stdout && u.file[1].stream == Stderr && u.file[2].stream == Stdout
    && u.assembly.Some? && u.assembly.value.maxLines == 10 && (forall b :: !u.assembly.value.isStart(b))
    && forall g, h :: u.rowBytes(g) + u.rowBytes(h) <= u.maxBytes
  }

  function MixedSlots(l0: Held, l1: Held, l2: Held): seq<StreamSlot> {
    [InitialSlots[0], StreamSlot(Stdout, Assembler([l0, l2], Some(0))), StreamSlot(Stderr, Assembler([l1], Some(0)))]
  }

  lemma {:induction false} FedTogether(c: AssemblerConfig, l0: Held, l2: Held)
    requires c.maxLines > 1 && !c.isStart(l2.line)
    ensures Fed(c, Assembler([l0], Some(0)), l2, 0) == Advance([], Assembler([l0, l2], Some(0)))
  {
    assert [l0] + [l2] == [l0, l2];
  }

  lemma {:induction false} MixedFeeds(c: AssemblerConfig, l0: Held, l1: Held, l2: Held)
    requires c.maxLines == 10 && forall b :: !c.isStart(b)
    ensures FeedAll(c, InitialSlots, [Arrival(Stdout, l0, 0), Arrival(Stderr, l1, 0), Arrival(Stdout, l2, 0)])
            == Progress([], MixedSlots(l0, l1, l2))
  {
    hide FeedAll, Feed, Fed;
    var a := [Arrival(Stdout, l0, 0), Arrival(Stderr, l1, 0), Arrival(Stdout, l2, 0)];
    var s1 := InitialSlots + [StreamSlot(Stdout, Assembler([l0], Some(0)))];
    var s2 := s1 + [StreamSlot(Stderr, Assembler([l1], Some(0)))];
    FeedAllFirst(c, a[0]);
    FeedNew(c, s1, a[1]);
    FedTogether(c, l0, l2);
    FeedKnown(c, s2, a[2], 1, Advance([], Assembler([l0, l2], Some(0))));
    FeedThree(c, a, s1, s2);
    assert s2[1 := StreamSlot(Stdout, Assembler([l0, l2], Some(0)))] == MixedSlots(l0, l1, l2);
  }

  lemma {:induction false} MixedTimesOut(c: AssemblerConfig, l0: Held, l1: Held, l2: Held)
    ensures
      Collect(c, MixedSlots(l0, l1, l2), OnTimeout(Late(c, 0)))
      == Progress([Emission(Stdout, [l0, l2]), Emission(Stderr, [l1])], MixedIdle())
  {
    var m := MixedSlots(l0, l1, l2);
    var mode := OnTimeout(Late(c, 0));
    assert m[..2] == [m[0], m[1]] && [m[0], m[1]][..1] == [m[0]] && [m[0]][..0] == [];
    assert Collect(c, [m[0]], mode) == Progress([], [m[0]]);
    assert Collect(c, [m[0], m[1]], mode)
      == Progress([Emission(Stdout, [l0, l2])], [m[0], StreamSlot(Stdout, IdleAssembler)]);
  }

  function MixedIdle(): seq<StreamSlot> {
    [InitialSlots[0], StreamSlot(Stdout, IdleAssembler), StreamSlot(Stderr, IdleAssembler)]
  }

  ghost function MixedGroups(u: Setup): seq<Emission>
    requires |u.file| == 3
  {
    [Emission(Stdout, [Line(u, 0), Line(u, 2)]), Emission(Stderr, [Line(u, 1)])]
  }

  lemma {:induction false} MixedReads(u: Setup, s: Core)
    requires MixedShape(u) && s.slots == InitialSlots && s.position == 0
    ensures Taken(u, s.slots, Arrivals(u, 0, [0, 0, 0])).emissions == []
    ensures AfterRead(u, s, [0, 0, 0], Stored)
      == s.(position := 3, slots := MixedSlots(Line(u, 0), Line(u, 1), Line(u, 2)))
  {
    hide FeedAll, LineOf, MixedSlots;
    MixedFeeds(u.assembly.value, Line(u, 0), Line(u, 1), Line(u, 2));
    assert Arrivals(u, 0, [0, 0, 0]) == [Arrival(Stdout, Line(u, 0), 0), Arrival(Stderr, Line(u, 1), 0),
      Arrival(Stdout, Line(u, 2), 0)];
  }

  /** Both events are out of the assemblers and queued, stdout's first. */
  ghost predicate MixedStored(u: Setup, r: Core)
    requires |u.file| == 3
  {
    && r.queue == [Entry(1, MixedGroups(u)[0]), Entry(2, MixedGroups(u)[1])] && r.settled == {} && r.dropped == {}
      && r.spilled == [] && r.origin == 0
    && r.tracker == Tracker([MixedBatch(u, 0, Pending), MixedBatch(u, 1, Pending)], 3) && Ceiling(u, r).None?
  }

  ghost function MixedBatch(u: Setup, i: nat, status: BatchStatus): TrackedBatch
    requires |u.file| == 3 && i < 2
  {
    var g := MixedGroups(u)[i];
    TrackedBatch(i + 1, FirstStart(g), LastEnd(g), u.inode, i + 1, i + 1, status)
  }

  lemma {:induction false} MixedTracks(u: Setup)
    requires |u.file| == 3
    ensures AllNonempty(MixedGroups(u))
    ensures TrackGroups(EmptyTracker, u.inode, MixedGroups(u), 0)
      == Tracker([MixedBatch(u, 0, Pending), MixedBatch(u, 1, Pending)], 3)
    ensures Entries(MixedGroups(u), 0) == [Entry(1, MixedGroups(u)[0]), Entry(2, MixedGroups(u)[1])]
  {
    var g := MixedGroups(u);
    assert g[..1] == [g[0]] && [g[0]][..0] == [];
    assert TrackGroups(EmptyTracker, u.inode, [], 0) == EmptyTracker;
    assert TrackGroups(EmptyTracker, u.inode, [g[0]], 0) == Tracker([MixedBatch(u, 0, Pending)], 2);
  }

  /** Storing the two events in a freshly opened session whose assemblers are idle again. */
  lemma {:induction false} MixedStores(u: Setup, s: Core)
    requires |u.file| == 3 && AllNonempty(MixedGroups(u))
    requires s.queue == [] && s.lastSequence == 0 && s.tracker == EmptyTracker
    requires s.settled == {} && s.dropped == {} && s.spilled == [] && s.origin == 0
    requires Ceiling(u, s).None?
    ensures MixedStored(u, Store(u, s, MixedGroups(u), Stored))
  {
    MixedTracks(u);
    assert MixedGroups(u) != [];
    hide TrackGroups, Entries, BufferedStart, MixedBatch, MixedGroups;
  }

  /** Right before the idle check. */
  ghost predicate MixedHeld(u: Setup, r: Core)
    requires |u.file| == 3
  {
    && r.slots == MixedSlots(Line(u, 0), Line(u, 1), Line(u, 2)) && !r.closing
    && r.queue == [] && r.lastSequence == 0 && r.tracker == EmptyTracker
    && r.settled == {} && r.dropped == {} && r.spilled == [] && r.origin == 0
  }

  lemma {:induction false} MixedHolds(u: Setup)
    requires MixedShape(u)
    ensures
      var read := Read(3, [0, 0, 0], Stored);
      Enabled(u, Opened(u, 0), read) && Possible(u, Opened(u, 0), read)
    ensures MixedHeld(u, AfterRead(u, Opened(u, 0), [0, 0, 0], Stored))
  {
    MixedReads(u, Opened(u, 0));
    hide AfterRead, Taken, MixedSlots, Room;
  }

  /** The idle check hands both events over, and the buffer has room for them. */
  lemma {:induction false} MixedHandsOver(u: Setup, r: Core)
    requires MixedShape(u) && MixedHeld(u, r)
    ensures Collect(u.assembly.value, r.slots, OnTimeout(Late(u.assembly.value, 0)))
      == Progress(MixedGroups(u), MixedIdle())
    ensures Allows(u, r.queue, MixedGroups(u), Stored)
  {
    MixedTimesOut(u.assembly.value, Line(u, 0), Line(u, 1), Line(u, 2));
    var g := MixedGroups(u);
    assert g[..1] == [g[0]];
    OneRow(u, g[0]);
    NoQueue(u);
  }

  lemma {:induction false} MixedCheck(u: Setup, r: Core)
    requires MixedShape(u) && MixedHeld(u, r)
    ensures
      var check := IdleCheck(Late(u.assembly.value, 0), Stored);
      Enabled(u, r, check) && Possible(u, r, check) && MixedStored(u, Next(u, r, check))
  {
    MixedHandsOver(u, r);
    MixedTracks(u);
    IdleStartsNowhere(MixedIdle());
    hide Collect, LineOf, MixedSlots, TrackGroups, Entries, BufferedStart, MixedBatch, MixedStored, Store, Allows,
      MixedGroups, MixedIdle;
    MixedStores(u, r.(slots := MixedIdle()));
  }

  /** Draining acks in queue order, and each save offers the end of the batch just acked. */
  lemma {:induction false} MixedDrains(u: Setup, r: Core)
    requires MixedShape(u) && MixedStored(u, r)
    ensures
      var d := AfterDrain(r, 1, false);
      var f := AfterSave(u, d, true);
      && f.checkpoint == Some(StartOf(u.file, 3)) && Line(u, 1) !in f.settled && f.origin == 0 && |f.queue| == 1
      && f.tracker == Tracker([MixedBatch(u, 1, Pending)], 3) && Ceiling(u, f).None?
  {
    var b0, b1 := MixedBatch(u, 0, Pending), MixedBatch(u, 1, Pending);
    var g := MixedGroups(u);
    var d := AfterDrain(r, 1, false);
    OldestPendingIs(r.tracker.batches, 0);
    assert AckOldest(r.tracker).batches == [b0.(status := Acked), b1];
    assert AckOldestTimes(AckOldest(r.tracker), 0) == AckOldest(r.tracker);
    assert d.tracker == Tracker([b0.(status := Acked), b1], 3);
    AckedPrefixIs(d.tracker.batches, 1);
    assert d.tracker.batches[1..] == [b1];
    assert r.queue[..1] == [Entry(1, g[0])];
    StartsOrder(u.file, 0, 1);
    StartsOrder(u.file, 1, 2);
  }

  lemma {:induction false} MixedSavesAgain(u: Setup, f: Core)
    requires MixedShape(u) && |f.queue| == 1 && f.tracker == Tracker([MixedBatch(u, 1, Pending)], 3)
      && Ceiling(u, f).None?
    ensures AfterSave(u, AfterDrain(f, 1, false), true).checkpoint == Some(StartOf(u.file, 2))
  {
    var b1 := MixedBatch(u, 1, Pending);
    OldestPendingIs(f.tracker.batches, 0);
    assert AckOldest(f.tracker).batches == [b1.(status := Acked)];
    assert AckOldestTimes(AckOldest(f.tracker), 0) == AckOldest(f.tracker);
    AckedPrefixIs([b1.(status := Acked)], 1);
  }

  /** The line of the other stream is below the first saved checkpoint and still queued. */
  lemma {:induction false} MixedUndelivered(u: Setup, f: Core)
    requires MixedShape(u) && f.checkpoint == Some(StartOf(u.file, 3)) && f.origin == 0
    requires Line(u, 1) !in f.settled && f.dropped == {} && f.spilled == []
    ensures !CheckpointDelivered(u, f)
  {
    BoundaryLine(u.file, 3);
    LinesInNone();
    assert 0 <= 1 < LinesBelow(u.file, f.checkpoint.value);
  }

  lemma {:induction false} MixedStates(u: Setup, p: Core)
    requires MixedShape(u) && MixedStored(u, p)
    ensures |p.queue| == 2
    ensures
      var f := AfterSave(u, AfterDrain(p, 1, false), true);
      && |f.queue| == 1 && !CheckpointDelivered(u, f) && f.checkpoint == Some(StartOf(u.file, 3))
      && AfterSave(u, AfterDrain(f, 1, false), true).checkpoint == Some(StartOf(u.file, 2))
  {
    MixedDrains(u, p);
    var f := AfterSave(u, AfterDrain(p, 1, false), true);
    assert f.dropped == p.dropped == {} && f.spilled == p.spilled == [];
    hide AfterSave, AfterDrain, CheckpointDelivered, MixedBatch, Ceiling;
    MixedUndelivered(u, f);
    MixedSavesAgain(u, f);
  }

  ghost predicate NoRestart(steps: seq<Step>) {
    forall i :: 0 <= i < |steps| ==> !steps[i].Restart?
  }

  lemma {:induction false} NoRestartOf(a: Step, b: Step)
    requires !a.Restart? && !b.Restart?
    ensures NoRestart([a] + [b])
  {
  }

  /** The three lines are read, and an idle check hands over both events. */
  lemma {:induction false} ReadThenCheck(u: Setup, s: Core, read: Step, check: Step)
      returns (trace: seq<Core>, steps: seq<Step>)
    requires Enabled(u, s, read) && Possible(u, s, read) && !read.Restart? && !check.Restart?
    requires Enabled(u, Next(u, s, read), check) && Possible(u, Next(u, s, read), check)
    ensures IsRun(u, trace, steps) && |trace| == 3 && trace[0] == s
    ensures trace[2] == Next(u, Next(u, s, read), check)
    ensures NoRestart(steps)
  {
    hide *;
    var r := Next(u, s, read);
    RunOfNothing(u, s);
    ExtendRun(u, [s], [], read);
    assert [s] + [r] == [s, r] && [] + [read] == [read];
    ExtendRun(u, [s, r], [read], check);
    trace, steps := [s, r] + [Next(u, r, check)], [read] + [check];
    NoRestartOf(read, check);
  }

  lemma {:induction false} DrainTwice(u: Setup, trace0: seq<Core>, steps0: seq<Step>, p: Core)
    returns (trace: seq<Core>, steps: seq<Step>)
    requires IsRun(u, trace0, steps0) && |trace0| > 0 && trace0[|trace0| - 1] == p && NoRestart(steps0) && |p.queue| > 0
    requires |AfterSave(u, AfterDrain(p, 1, false), true).queue| > 0
    ensures IsRun(u, trace, steps) && NoRestart(steps) && |trace| == |trace0| + 4 && trace0 <= trace
    ensures
      var f := AfterSave(u, AfterDrain(p, 1, false), true);
      trace[|trace0| + 1] == f && trace[|trace0| + 3] == AfterSave(u, AfterDrain(f, 1, false), true)
  {
    hide AfterDrain, AfterSave, IsRun;
    var d := AfterDrain(p, 1, false);
    var f := AfterSave(u, d, true);
    var d' := AfterDrain(f, 1, false);
    ThenDrain(u, trace0, steps0, p, 1, false);
    trace, steps := trace0 + [d], steps0 + [Drain(1, false)];
    ThenSave(u, trace, steps, d);
    trace, steps := trace + [f], steps + [SaveCheckpoint(true)];
    ThenDrain(u, trace, steps, f, 1, false);
    trace, steps := trace + [d'], steps + [Drain(1, false)];
    ThenSave(u, trace, steps, d');
    trace, steps := trace + [AfterSave(u, d', true)], steps + [SaveCheckpoint(true)];
  }

  /**
   With two streams both halves of the single-stream guarantee fail, from an empty queue and with
   every append stored: an event spanning a line of the other stream is acked first, so the
   checkpoint covers a line that is not delivered; and the next save moves it back.
   */
  lemma {:induction false} TwoStreamsBreakBoth() returns (u: Setup, trace: seq<Core>, steps: seq<Step>, i: nat)
    ensures Proper(u) && |u.file| == 3 && IsSession(u, trace, steps) && trace[0] == Opened(u, 0)
    ensures i + 1 < |trace| && !CheckpointDelivered(u, trace[i])
    ensures
      var last := trace[|trace| - 1];
      trace[i].checkpoint.Some? && last.checkpoint.Some? && last.checkpoint.value < trace[i].checkpoint.value
  {
    u := MixedSetup();
    assert MixedShape(u);
    trace, steps := MixedRun(u);
    i := 4;
  }

  lemma {:induction false} MixedRun(u: Setup) returns (trace: seq<Core>, steps: seq<Step>)
    requires MixedShape(u)
    ensures IsSession(u, trace, steps) && trace[0] == Opened(u, 0) && |trace| == 7
    ensures !CheckpointDelivered(u, trace[4])
    ensures trace[4].checkpoint == Some(StartOf(u.file, 3)) && trace[6].checkpoint == Some(StartOf(u.file, 2))
    ensures StartOf(u.file, 2) < StartOf(u.file, 3)
  {
    MixedPosition(u);
    var read, check := Read(3, [0, 0, 0], Stored), IdleCheck(Late(u.assembly.value, 0), Stored);
    MixedHolds(u);
    hide AfterRead, Collected, MixedHeld, MixedStored, IsRun, Opened, StartOf, CheckpointDelivered, Possible,
      MixedShape;
    var s := Opened(u, 0);
    MixedCheck(u, Next(u, s, read));
    var p := Next(u, Next(u, s, read), check);
    MixedStates(u, p);
    var trace0, steps0 := ReadThenCheck(u, s, read, check);
    trace, steps := DrainTwice(u, trace0, steps0, p);
    assert trace[0] == trace0[0];
    OpenedStarts(u);
    SessionOf(u, trace, steps);
  }

  lemma {:induction false} SessionOf(u: Setup, trace: seq<Core>, steps: seq<Step>)
    requires IsRun(u, trace, steps) && NoRestart(steps) && |trace| > 0 && SessionStart(trace[0])
    ensures IsSession(u, trace, steps)
  {
  }

  lemma {:induction false} OpenedStarts(u: Setup)
    ensures SessionStart(Opened(u, 0))
  {
  }

  lemma {:induction false} MixedPosition(u: Setup)
    requires MixedShape(u)
    ensures |u.file| == 3 && u.assembly.Some?
    ensures StartOf(u.file, 2) < StartOf(u.file, 3)
  {
    StartsOrder(u.file, 2, 3);
  }
}
