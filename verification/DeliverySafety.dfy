/**
 No line below the saved checkpoint is ever lost, over every run of the delivery protocol,
 crashes included.
 */
module DeliverySafety {
  import opened Common
  import opened LogFiles
  import opened BatchTracking
  import opened EntryAssembly
  import opened StreamAssembly
  import opened StreamAssemblyRuns
  import opened SpillFiles
  import opened DeliveryProtocol

  /** A first start: nothing saved, nothing queued, tailing from line `at`. */
  function Opened(u: Setup, at: nat): Core
    requires at <= |u.file|
  {
    Core([], 0, None, NoFiles(), at, InitialSlots, EmptyTracker, false, false, at, [], {}, [], {},
         set k | 0 <= k < at :: Line(u, k))
  }

  ghost predicate LineBoundary(u: Setup, offset: nat) {
    offset == StartOf(u.file, LinesBelow(u.file, offset))
  }

  /** `h` is one of the file's first `n` lines. */
  ghost predicate AmongFirst(u: Setup, n: nat, h: Held)
    requires n <= |u.file|
  {
    exists k :: 0 <= k < n && h == Line(u, k)
  }

  /** Held lines were read, and each stream holds its own in file order. */
  ghost predicate SlotsFollowFile(u: Setup, s: Core)
    requires s.position <= |u.file|
  {
    forall st :: Ascending(HeldBy(s.slots, st)) && forall h :: h in HeldBy(s.slots, st) ==> AmongFirst(u, s.position, h)
  }

  ghost predicate BatchesBehindReader(u: Setup, s: Core)
    requires s.position <= |u.file|
  {
    forall i :: 0 <= i < |s.tracker.batches| ==>
      LineBoundary(u, s.tracker.batches[i].endOffset) && s.tracker.batches[i].endOffset <= StartOf(u.file, s.position)
  }

  /** Every line the reader has passed is accounted for. */
  ghost predicate NothingForgotten(u: Setup, s: Core)
    requires s.position <= |u.file|
  {
    forall k :: 0 <= k < s.position ==> Covered(u, s, k) || HeldBack(u, s, k)
  }

  /** The saved checkpoint is a line boundary with every line below it covered. */
  ghost predicate CheckpointCovers(u: Setup, s: Core) {
    s.checkpoint.Some? ==>
      && LineBoundary(u, s.checkpoint.value)
      && forall k :: 0 <= k < LinesBelow(u.file, s.checkpoint.value) ==> Covered(u, s, k)
  }

  /** What holds even while groups just taken from the assemblers are still to be stored. */
  ghost predicate InvBeforeStore(u: Setup, s: Core) {
    && s.origin <= s.position <= |u.file|
    && (u.assembly.None? ==> s.slots == InitialSlots)
    && (u.assembly.Some? ==> Sound(u.assembly.value, s.slots))
    && SlotsFollowFile(u, s)
    && BatchesBehindReader(u, s)
    && CheckpointCovers(u, s)
  }

  ghost predicate Inv(u: Setup, s: Core) {
    InvBeforeStore(u, s) && NothingForgotten(u, s)
  }

  // ------------------------------------------------------------------ storing groups

  /** Lines in hand: read, no longer held, not yet stored. */
  ghost predicate InHand(u: Setup, s: Core, groups: seq<Emission>)
    requires s.position <= |u.file|
  {
    && (forall h :: h in LinesIn(groups) ==> AmongFirst(u, s.position, h))
    && (forall k :: 0 <= k < s.position ==> Covered(u, s, k) || HeldBack(u, s, k) || Line(u, k) in LinesIn(groups))
  }

  lemma {:induction false} LineEndsAreBoundaries(u: Setup, n: nat, h: Held)
    requires Proper(u) && n <= |u.file| && AmongFirst(u, n, h)
    ensures LineBoundary(u, h.ctx.start) && h.ctx.start < StartOf(u.file, n)
    ensures LineBoundary(u, h.ctx.end) && h.ctx.end <= StartOf(u.file, n)
    ensures h.ctx.start < h.ctx.end
  {
    var k :| 0 <= k < n && h == Line(u, k);
    BoundaryLine(u.file, k);
    BoundaryLine(u.file, k + 1);
    StartsOrder(u.file, k, n);
    StartsOrder(u.file, k + 1, n);
  }

  lemma {:induction false} CoveredGrows(u: Setup, s: Core, r: Core, k: nat)
    requires k < |u.file|
    requires s.settled + EntryLines(s.queue) <= r.settled + EntryLines(r.queue)
    requires s.dropped <= r.dropped && s.skipped <= r.skipped && LinesIn(s.spilled) <= LinesIn(r.spilled)
    requires Covered(u, s, k)
    ensures Covered(u, r, k)
  {
    var h := Line(u, k);
    if h in s.settled || h in EntryLines(s.queue) {
      assert h in s.settled + EntryLines(s.queue);
    }
  }

  lemma {:induction false} StoredLines(queue: seq<Entry>, groups: seq<Emission>, base: nat)
    ensures EntryLines(queue + Entries(groups, base)) == EntryLines(queue) + LinesIn(groups)
  {
    var q := queue + Entries(groups, base);
    forall h | h in LinesIn(groups)
      ensures h in EntryLines(q)
    {
      var i :| 0 <= i < |groups| && h in groups[i].lines;
      assert q[|queue| + i].group == groups[i];
    }
    forall h | h in EntryLines(queue)
      ensures h in EntryLines(q)
    {
      var i :| 0 <= i < |queue| && h in queue[i].group.lines;
      assert q[i] == queue[i];
    }
    forall h | h in EntryLines(q)
      ensures h in EntryLines(queue) + LinesIn(groups)
    {
      var i :| 0 <= i < |q| && h in q[i].group.lines;
      if i >= |queue| {
        assert q[i].group == groups[i - |queue|];
      }
    }
  }

  lemma {:induction false} LinesInBoth(a: seq<Emission>, b: seq<Emission>)
    ensures LinesIn(a + b) == LinesIn(a) + LinesIn(b)
  {
    forall h | h in LinesIn(a + b)
      ensures h in LinesIn(a) + LinesIn(b)
    {
      var i :| 0 <= i < |a + b| && h in (a + b)[i].lines;
      if i < |a| {
        assert h in a[i].lines;
      } else {
        assert h in b[i - |a|].lines;
      }
    }
    forall h | h in LinesIn(a)
      ensures h in LinesIn(a + b)
    {
      var i :| 0 <= i < |a| && h in a[i].lines;
      assert (a + b)[i] == a[i];
    }
    forall h | h in LinesIn(b)
      ensures h in LinesIn(a + b)
    {
      var i :| 0 <= i < |b| && h in b[i].lines;
      assert (a + b)[|a| + i] == b[i];
    }
  }

  lemma {:induction false} LinesInNone()
    ensures LinesIn([]) == {}
  {
  }

  /** The last group goes one way or the other. */
  lemma {:induction false} PickedOne(u: Setup, groups: seq<Emission>, spills: set<nat>, taken: bool)
    requires groups != []
    ensures
      var n := |groups| - 1;
      var before := Picked(u, groups[..n], spills, taken);
      Picked(u, groups, spills, taken) == if (u.overflow && n in spills) == taken then before + [groups[n]] else before
  {
  }

  lemma {:induction false} PickedLines(u: Setup, groups: seq<Emission>, spills: set<nat>)
    ensures LinesIn(Picked(u, groups, spills, true)) + LinesIn(Picked(u, groups, spills, false)) == LinesIn(groups)
  {
    if groups == [] {
      LinesInNone();
    } else {
      var n := |groups| - 1;
      PickedLines(u, groups[..n], spills);
      PickedOne(u, groups, spills, true);
      PickedOne(u, groups, spills, false);
      PickedLast(u, groups, spills);
      hide *;
    }
  }

  lemma {:induction false} PickedLast(u: Setup, groups: seq<Emission>, spills: set<nat>)
    requires groups != []
    requires
      var front := groups[..|groups| - 1];
      LinesIn(Picked(u, front, spills, true)) + LinesIn(Picked(u, front, spills, false)) == LinesIn(front)
    ensures
      var n := |groups| - 1;
      var yes, no := Picked(u, groups[..n], spills, true), Picked(u, groups[..n], spills, false);
      && LinesIn(yes + [groups[n]]) + LinesIn(no) == LinesIn(groups)
      && LinesIn(yes) + LinesIn(no + [groups[n]]) == LinesIn(groups)
  {
    hide LinesIn, Picked;
    var n := |groups| - 1;
    assert groups == groups[..n] + [groups[n]];
    LinesInBoth(groups[..n], [groups[n]]);
    LinesInBoth(Picked(u, groups[..n], spills, true), [groups[n]]);
    LinesInBoth(Picked(u, groups[..n], spills, false), [groups[n]]);
  }

  /** A store only adds to what is accounted for, and accounts for every line in hand. */
  lemma {:induction false} StoreAccounts(u: Setup, s: Core, groups: seq<Emission>, outcome: StoreOutcome)
    requires AllNonempty(groups)
    ensures
      var r := Store(u, s, groups, outcome);
      && LinesIn(s.spilled) <= LinesIn(r.spilled) && s.dropped <= r.dropped && s.skipped == r.skipped
      && r.settled == s.settled && EntryLines(s.queue) <= EntryLines(r.queue)
      && LinesIn(groups) <= EntryLines(r.queue) + LinesIn(r.spilled) + r.dropped
  {
    if groups == [] {
      LinesInNone();
    } else {
      match outcome
      case Stored =>
        StoredLines(s.queue, groups, s.lastSequence);
      case NoRoom(spills) =>
        PickedLines(u, groups, spills);
        LinesInBoth(s.spilled, Picked(u, groups, spills, true));
      case StoreFailed =>
    }
    hide LinesIn, EntryLines, Picked;
  }

  lemma {:induction false} StoreKeepsInv(u: Setup, s: Core, groups: seq<Emission>, outcome: StoreOutcome)
    requires Proper(u) && AllNonempty(groups) && InvBeforeStore(u, s) && InHand(u, s, groups)
    ensures Inv(u, Store(u, s, groups, outcome))
  {
    var r := Store(u, s, groups, outcome);
    StoreAccounts(u, s, groups, outcome);
    if outcome.Stored? {
      StoreKeepsBatches(u, s, groups);
    }
    forall k | 0 <= k < |u.file| && Covered(u, s, k)
      ensures Covered(u, r, k)
    {
      CoveredGrows(u, s, r, k);
    }
    StoreLeaves(u, s, groups, outcome);
    hide LinesIn, EntryLines, Store, StartOf;
  }

  lemma {:induction false} StoreLeaves(u: Setup, s: Core, groups: seq<Emission>, outcome: StoreOutcome)
    requires AllNonempty(groups)
    ensures
      var r := Store(u, s, groups, outcome);
      && r.slots == s.slots && r.position == s.position && r.origin == s.origin && r.checkpoint == s.checkpoint
      && (!outcome.Stored? ==> r.tracker == s.tracker)
  {
  }

  /** Tracking adds batches that end where their groups do. */
  lemma {:induction false} TrackGroupsEnds(t: Tracker, inode: nat, groups: seq<Emission>, base: nat, b: TrackedBatch)
    requires AllNonempty(groups) && b in TrackGroups(t, inode, groups, base).batches
    ensures b in t.batches || exists i :: 0 <= i < |groups| && b.endOffset == LastEnd(groups[i])
  {
    if groups != [] {
      var n := |groups| - 1;
      if b in TrackGroups(t, inode, groups[..n], base).batches {
        TrackGroupsEnds(t, inode, groups[..n], base, b);
        if b !in t.batches {
          var i :| 0 <= i < n && b.endOffset == LastEnd(groups[..n][i]);
          assert groups[..n][i] == groups[i];
        }
      } else {
        assert b.endOffset == LastEnd(groups[n]);
      }
    }
  }

  lemma {:induction false} StoreKeepsBatches(u: Setup, s: Core, groups: seq<Emission>)
    requires Proper(u) && AllNonempty(groups) && s.position <= |u.file| && BatchesBehindReader(u, s)
    requires forall h :: h in LinesIn(groups) ==> AmongFirst(u, s.position, h)
    ensures BatchesBehindReader(u, Store(u, s, groups, Stored))
  {
    var r := Store(u, s, groups, Stored);
    forall i | 0 <= i < |r.tracker.batches|
      ensures LineBoundary(u, r.tracker.batches[i].endOffset)
        && r.tracker.batches[i].endOffset <= StartOf(u.file, s.position)
    {
      var b := r.tracker.batches[i];
      TrackGroupsEnds(s.tracker, u.inode, groups, s.lastSequence, b);
      if b !in s.tracker.batches {
        var j :| 0 <= j < |groups| && b.endOffset == LastEnd(groups[j]);
        var last := groups[j].lines[|groups[j].lines| - 1];
        assert last in LinesIn(groups);
        LineEndsAreBoundaries(u, s.position, last);
      }
    }
  }

  // -------------------------------------------------------------- taking lines in

  lemma {:induction false} ArrivalsInFileOrder(u: Setup, from: nat, times: seq<int>)
    requires Proper(u) && from + |times| <= |u.file|
    ensures InFileOrder(Arrivals(u, from, times))
  {
    var a := Arrivals(u, from, times);
    forall i, j | 0 <= i < j < |a|
      ensures a[i].held.ctx.start < a[j].held.ctx.start
    {
      StartsOrder(u.file, from + i, from + j);
    }
  }

  /** A stream's slot followed by its new lines is in file order. */
  lemma {:induction false} SlotThenArrivalsAscend(u: Setup, s: Core, times: seq<int>, st: LogStream)
    requires Proper(u) && s.position + |times| <= |u.file| && SlotsFollowFile(u, s)
    ensures
      var all := HeldBy(s.slots, st) + ArrivedOn(Arrivals(u, s.position, times), st);
      && Ascending(all)
      && (forall h :: h in all ==> AmongFirst(u, s.position + |times|, h))
  {
    var a := Arrivals(u, s.position, times);
    var held := HeldBy(s.slots, st);
    var fresh' := ArrivedOn(a, st);
    ArrivalsInFileOrder(u, s.position, times);
    ArrivedAscending(a, st);
    ArrivedMembers(a, st);
    hide ArrivedOn, HeldBy;
    forall h | h in fresh'
      ensures AmongFirst(u, s.position + |times|, h) && StartOf(u.file, s.position) <= h.ctx.start
    {
      var i :| 0 <= i < |a| && a[i].stream == st && a[i].held == h;
      assert h == Line(u, s.position + i);
      StartsOrder(u.file, s.position, s.position + i);
    }
    forall h | h in held
      ensures AmongFirst(u, s.position + |times|, h) && h.ctx.start < StartOf(u.file, s.position)
    {
      LineEndsAreBoundaries(u, s.position, h);
    }
    hide AmongFirst, StartOf;
    AscendAcross(held, fresh', StartOf(u.file, s.position));
  }

  lemma {:induction false} AscendAcross(a: seq<Held>, b: seq<Held>, middle: nat)
    requires Ascending(a) && Ascending(b)
    requires (forall h :: h in a ==> h.ctx.start < middle) && forall h :: h in b ==> middle <= h.ctx.start
    ensures Ascending(a + b)
  {
    assert forall i :: 0 <= i < |a| ==> a[i] in a;
    assert forall i :: 0 <= i < |b| ==> b[i] in b;
  }

  lemma {:induction false} InEmittedBy(es: seq<Emission>, i: nat)
    requires i < |es|
    ensures forall h :: h in es[i].lines ==> h in EmittedBy(es, es[i].stream)
  {
    var n := |es| - 1;
    if i < n {
      InEmittedBy(es[..n], i);
    }
  }

  lemma {:induction false} EmittedByIsIn(es: seq<Emission>, st: LogStream)
    ensures forall h :: h in EmittedBy(es, st) ==> h in LinesIn(es)
  {
    if es != [] {
      var n := |es| - 1;
      EmittedByIsIn(es[..n], st);
      forall h | h in EmittedBy(es, st)
        ensures h in LinesIn(es)
      {
        if h in EmittedBy(es[..n], st) {
          var i :| 0 <= i < |es[..n]| && h in es[..n][i].lines;
          assert h in es[i].lines;
        } else {
          assert h in es[n].lines;
        }
      }
    }
  }

  /** The state right after assemblers handed over `p.emissions`. */
  function AfterTaking(s: Core, p: Progress, count: nat): Core {
    s.(position := s.position + count, slots := p.slots)
  }

  /** Taking lines in through conserving assemblers leaves every line covered, held or in hand. */
  lemma {:induction false} TakingAccounts(u: Setup, s: Core, p: Progress, times: seq<int>)
    requires Proper(u) && Inv(u, s) && s.position + |times| <= |u.file|
    requires forall st :: EmittedBy(p.emissions, st) + HeldBy(p.slots, st)
                          == HeldBy(s.slots, st) + ArrivedOn(Arrivals(u, s.position, times), st)
    ensures SlotsFollowFile(u, AfterTaking(s, p, |times|))
    ensures InHand(u, AfterTaking(s, p, |times|), p.emissions)
  {
    var r := AfterTaking(s, p, |times|);
    var a := Arrivals(u, s.position, times);
    forall st
      ensures Ascending(HeldBy(r.slots, st))
      ensures forall h :: h in EmittedBy(p.emissions, st) || h in HeldBy(r.slots, st) ==> AmongFirst(u, r.position, h)
    {
      SlotThenArrivalsAscend(u, s, times, st);
      DisjointHalves(EmittedBy(p.emissions, st), HeldBy(p.slots, st));
      assert forall h :: h in EmittedBy(p.emissions, st) || h in HeldBy(p.slots, st) ==>
                           h in EmittedBy(p.emissions, st) + HeldBy(p.slots, st);
    }
    forall h | h in LinesIn(p.emissions)
      ensures AmongFirst(u, r.position, h)
    {
      var i :| 0 <= i < |p.emissions| && h in p.emissions[i].lines;
      InEmittedBy(p.emissions, i);
    }
    forall k | 0 <= k < r.position
      ensures Covered(u, r, k) || HeldBack(u, r, k) || Line(u, k) in LinesIn(p.emissions)
    {
      var st := u.file[k].stream;
      if k >= s.position || HeldBack(u, s, k) {
        ArrivedMembers(a, st);
        if k >= s.position {
          assert a[k - s.position].stream == st && a[k - s.position].held == Line(u, k);
        }
        assert Line(u, k) in HeldBy(s.slots, st) + ArrivedOn(a, st);
        assert Line(u, k) in EmittedBy(p.emissions, st) + HeldBy(p.slots, st);
        EmittedByIsIn(p.emissions, st);
      }
    }
  }

  lemma {:induction false} KeptLines(arrivals: seq<Arrival>)
    ensures forall h :: h in LinesIn(KeptGroups(arrivals)) <==>
              exists i :: 0 <= i < |arrivals| && arrivals[i].held == h && !IsBlank(h.line)
  {
    if arrivals != [] {
      var n := |arrivals| - 1;
      var before := arrivals[..n];
      KeptLines(before);
      var kept := KeptGroups(before);
      var all := KeptGroups(arrivals);
      forall h | h in LinesIn(all)
        ensures exists i :: 0 <= i < |arrivals| && arrivals[i].held == h && !IsBlank(h.line)
      {
        var i :| 0 <= i < |all| && h in all[i].lines;
        if i < |kept| {
          assert h in kept[i].lines;
          var j :| 0 <= j < |before| && before[j].held == h && !IsBlank(h.line);
          assert arrivals[j].held == h;
        }
      }
      forall i | 0 <= i < |arrivals| && !IsBlank(arrivals[i].held.line)
        ensures arrivals[i].held in LinesIn(all)
      {
        if i < n {
          assert before[i].held == arrivals[i].held;
          var j :| 0 <= j < |kept| && arrivals[i].held in kept[j].lines;
          assert all[j] == kept[j];
        } else {
          assert arrivals[n].held in all[|kept|].lines;
        }
      }
    }
  }

  lemma {:induction false} KeptNone(a: seq<Arrival>)
    requires forall i :: 0 <= i < |a| ==> IsBlank(a[i].held.line)
    ensures KeptGroups(a) == []
  {
    if a != [] {
      KeptNone(a[..|a| - 1]);
    }
  }

  /** The non-aggregating path keeps every non-blank line in hand. */
  lemma {:induction false} KeepingAccounts(u: Setup, s: Core, times: seq<int>)
    requires Proper(u) && u.assembly.None? && Inv(u, s) && s.position + |times| <= |u.file|
    ensures
      var p := Taken(u, s.slots, Arrivals(u, s.position, times));
      SlotsFollowFile(u, AfterTaking(s, p, |times|)) && InHand(u, AfterTaking(s, p, |times|), p.emissions)
  {
    var a := Arrivals(u, s.position, times);
    var p := Taken(u, s.slots, a);
    var r := AfterTaking(s, p, |times|);
    KeptLines(a);
    assert forall st :: HeldBy(InitialSlots, st) == [];
    forall h | h in LinesIn(p.emissions)
      ensures AmongFirst(u, r.position, h)
    {
      var i :| 0 <= i < |a| && a[i].held == h && !IsBlank(h.line);
      assert h == Line(u, s.position + i);
    }
    forall k | 0 <= k < r.position
      ensures Covered(u, r, k) || HeldBack(u, r, k) || Line(u, k) in LinesIn(p.emissions)
    {
      if k >= s.position {
        assert a[k - s.position].held == Line(u, k);
        assert BlankSkipped(u, k) || !IsBlank(Line(u, k).line);
      } else {
        assert Covered(u, r, k) == Covered(u, s, k);
      }
    }
  }

  lemma {:induction false} ReadKeepsInv(u: Setup, s: Core, times: seq<int>, outcome: StoreOutcome)
    requires Proper(u) && Inv(u, s) && s.position + |times| <= |u.file|
    ensures Inv(u, AfterRead(u, s, times, outcome))
  {
    var a := Arrivals(u, s.position, times);
    var p := Taken(u, s.slots, a);
    var r := AfterTaking(s, p, |times|);
    if u.assembly.None? {
      KeepingAccounts(u, s, times);
    } else {
      var c := u.assembly.value;
      FeedAllKeepsSound(c, s.slots, a);
      forall st
        ensures EmittedBy(p.emissions, st) + HeldBy(p.slots, st) == HeldBy(s.slots, st) + ArrivedOn(a, st)
      {
        FeedAllConserves(c, s.slots, a, st);
      }
      TakingAccounts(u, s, p, times);
    }
    ReaderAdvances(u, s, r);
    StoreKeepsInv(u, r, p.emissions, outcome);
  }

  /** Moving the reader forward keeps what was true behind it. */
  lemma {:induction false} ReaderAdvances(u: Setup, s: Core, r: Core)
    requires Proper(u) && s.position <= r.position <= |u.file|
    requires BatchesBehindReader(u, s) && CheckpointCovers(u, s)
    requires r.tracker == s.tracker && r.checkpoint == s.checkpoint
    requires r.queue == s.queue && r.settled == s.settled && r.spilled == s.spilled && r.dropped == s.dropped
      && r.skipped == s.skipped
    ensures BatchesBehindReader(u, r) && CheckpointCovers(u, r)
  {
    StartsOrder(u.file, s.position, r.position);
    assert forall k :: 0 <= k < |u.file| ==> Covered(u, s, k) == Covered(u, r, k);
  }

  lemma {:induction false} CollectKeepsInv(u: Setup, s: Core, mode: DrainMode, outcome: StoreOutcome)
    requires Proper(u) && Inv(u, s) && u.assembly.Some?
    ensures Inv(u, Collected(u, s, mode, outcome))
  {
    var c := u.assembly.value;
    var p := Collect(c, s.slots, mode);
    var r := AfterTaking(s, p, 0);
    CollectKeepsSound(c, s.slots, mode);
    forall st
      ensures EmittedBy(p.emissions, st) + HeldBy(p.slots, st)
        == HeldBy(s.slots, st) + ArrivedOn(Arrivals(u, s.position, []), st)
    {
      CollectConserves(c, s.slots, mode, st);
    }
    TakingAccounts(u, s, p, []);
    ReaderAdvances(u, s, r);
    StoreKeepsInv(u, r, p.emissions, outcome);
  }

  // -------------------------------------------------------------- draining and saving

  lemma {:induction false} AckingKeepsOffsets(t: Tracker, times: nat)
    ensures |AckOldestTimes(t, times).batches| == |t.batches|
    ensures AckOldestTimes(t, times).nextSequence == t.nextSequence
    ensures forall i :: 0 <= i < |t.batches| ==>
              Identity(AckOldestTimes(t, times).batches[i]) == Identity(t.batches[i])
    decreases times
  {
    if times > 0 {
      AckingKeepsOffsets(AckOldest(t), times - 1);
    }
  }

  lemma {:induction false} SplitEntryLines(queue: seq<Entry>, n: nat)
    requires n <= |queue|
    ensures EntryLines(queue) == EntryLines(queue[..n]) + EntryLines(queue[n..])
  {
    forall h | h in EntryLines(queue)
      ensures h in EntryLines(queue[..n]) + EntryLines(queue[n..])
    {
      var i :| 0 <= i < |queue| && h in queue[i].group.lines;
      if i < n {
        assert queue[..n][i] == queue[i];
      } else {
        assert queue[n..][i - n] == queue[i];
      }
    }
  }

  /** What comes back from the overflow store only adds to the queue. */
  lemma {:induction false} ReplayKeepsInv(u: Setup, s: Core, accepted: nat)
    requires Proper(u) && Inv(u, s) && accepted <= |Returned(s.onDisk, REPLAY_BATCH)|
    ensures Inv(u, AfterReplay(s, accepted))
  {
    hide Returned, Replayed;
    var r := AfterReplay(s, accepted);
    StoredLines(s.queue, Untagged(Returned(s.onDisk, REPLAY_BATCH)[..accepted]), s.lastSequence);
    forall k | 0 <= k < |u.file| && Covered(u, s, k)
      ensures Covered(u, r, k)
    {
      CoveredGrows(u, s, r, k);
    }
  }

  lemma {:induction false} DrainKeepsInv(u: Setup, s: Core, handled: nat, release: bool)
    requires Proper(u) && Inv(u, s) && handled <= |s.queue|
    ensures Inv(u, AfterDrain(s, handled, release))
  {
    var r := AfterDrain(s, handled, release);
    AckingKeepsOffsets(s.tracker, handled);
    assert forall i :: 0 <= i < |s.tracker.batches| ==>
             Identity(r.tracker.batches[i]).endOffset == Identity(s.tracker.batches[i]).endOffset;
    SplitEntryLines(s.queue, handled);
    forall k | 0 <= k < |u.file| && Covered(u, s, k)
      ensures Covered(u, r, k)
    {
      CoveredGrows(u, s, r, k);
    }
  }

  /** A checkpoint about to be saved is a line boundary the reader has passed, below every held line. */
  lemma {:induction false} OfferedOffset(u: Setup, s: Core)
    requires Proper(u) && Inv(u, s) && CheckpointOffset(u, s).Some?
    ensures
      var offset := CheckpointOffset(u, s).value;
      && LineBoundary(u, offset) && offset <= StartOf(u.file, s.position)
      && (forall k :: 0 <= k < s.position && HeldBack(u, s, k) ==> offset <= StartOf(u.file, k))
  {
    BufferedStartIsLowest(s.slots);
    forall k | 0 <= k < s.position && HeldBack(u, s, k)
      ensures Ceiling(u, s).Some? && Ceiling(u, s).value <= StartOf(u.file, k)
    {
      var st := u.file[k].stream;
      assert u.assembly.None? ==> HeldBy(s.slots, st) == [];
      var held := HeldBy(s.slots, st);
      var x :| 0 <= x < |held| && held[x] == Line(u, k);
      assert held == s.slots[SlotIndex(s.slots, st)].asm.held;
    }
    if Ceiling(u, s).Some? {
      var i :| 0 <= i < |s.slots| && s.slots[i].asm.held != []
        && s.slots[i].asm.held[0].ctx.start == Ceiling(u, s).value;
      SlotIndexIs(s.slots, s.slots[i].stream, i);
      assert s.slots[i].asm.held[0] in HeldBy(s.slots, s.slots[i].stream);
      LineEndsAreBoundaries(u, s.position, s.slots[i].asm.held[0]);
    }
  }

  lemma {:induction false} SaveKeepsInv(u: Setup, s: Core, saved: bool)
    requires Proper(u) && Inv(u, s)
    ensures Inv(u, AfterSave(u, s, saved))
  {
    var r := AfterSave(u, s, saved);
    if CheckpointOffset(u, s).Some? && saved {
      OfferedOffset(u, s);
      var offset := CheckpointOffset(u, s).value;
      forall k | 0 <= k < LinesBelow(u.file, offset)
        ensures Covered(u, r, k)
      {
        StartsOrder(u.file, k, LinesBelow(u.file, offset));
        StartsOrder(u.file, k, s.position);
        assert Covered(u, s, k);
      }
      assert forall k :: 0 <= k < |u.file| ==> Covered(u, s, k) == Covered(u, r, k);
    }
  }

  lemma {:induction false} RestartKeepsInv(u: Setup, s: Core, end: nat)
    requires Proper(u) && Inv(u, s) && s.position <= end <= |u.file|
    ensures Inv(u, Restarted(u, s, end))
  {
    var r := Restarted(u, s, end);
    assert forall st :: HeldBy(InitialSlots, st) == [];
    forall k | 0 <= k < |u.file| && Covered(u, s, k)
      ensures Covered(u, r, k)
    {
      CoveredGrows(u, s, r, k);
    }
  }

  /** The invariant does not depend on whether reads are blocked or over, nor on the overflow store's files. */
  lemma {:induction false} InvIgnores(u: Setup, s: Core, r: Core)
    requires Inv(u, s) && r == s.(blocked := r.blocked, closing := r.closing, onDisk := r.onDisk)
    ensures Inv(u, r)
  {
    assert forall k :: 0 <= k < |u.file| ==> Covered(u, s, k) == Covered(u, r, k);
  }

  /** The overflow store holds nothing it was not given. */
  ghost predicate OnlySpilled(s: Core) {
    Within(s.onDisk, s.spilled)
  }

  lemma {:induction false} StoreKeepsOnlySpilled(u: Setup, s: Core, groups: seq<Emission>, outcome: StoreOutcome)
    requires AllNonempty(groups) && OnlySpilled(s)
    ensures OnlySpilled(Store(u, s, groups, outcome))
  {
    if outcome.NoRoom? && groups != [] {
      WrittenWithin(s.onDisk, Picked(u, groups, outcome.spills, true), s.spilled);
    }
  }

  // ------------------------------------------------------------------ whole runs

  /** `trace` lists the states of a run: each is a possible step after the one before. */
  ghost predicate IsRun(u: Setup, trace: seq<Core>, steps: seq<Step>) {
    && |trace| == |steps| + 1
    && forall i :: 0 <= i < |steps| ==> Enabled(u, trace[i], steps[i]) && Possible(u, trace[i], steps[i])
                                        && trace[i + 1] == Next(u, trace[i], steps[i])
  }

  lemma {:induction false} StepKeepsInv(u: Setup, s: Core, step: Step)
    requires Proper(u) && Inv(u, s) && Enabled(u, s, step)
    ensures Inv(u, Next(u, s, step))
  {
    match step
    case Read(_, times, outcome) => ReadKeepsInv(u, s, times, outcome);
    case IdleCheck(now, outcome) => CollectKeepsInv(u, s, OnTimeout(now), outcome);
    case FlushAll(outcome) =>
      InvIgnores(u, s, s.(closing := true));
      CollectKeepsInv(u, s.(closing := true), OnFlush, outcome);
    case Drain(handled, release) => DrainKeepsInv(u, s, handled, release);
    case DrainAndReplay(handled, release, accepted) =>
      DrainKeepsInv(u, s, handled, release);
      ReplayKeepsInv(u, AfterDrain(s, handled, release), accepted);
    case Tend(op) => InvIgnores(u, s, Next(u, s, step));
    case SaveCheckpoint(saved) => SaveKeepsInv(u, s, saved);
    case Restart(end) => RestartKeepsInv(u, s, end);
  }

  lemma {:induction false} OpenedInv(u: Setup, at: nat)
    requires Proper(u) && at <= |u.file|
    ensures Inv(u, Opened(u, at))
  {
    assert forall st :: HeldBy(InitialSlots, st) == [];
  }

  lemma {:induction false} RunsKeepInv(u: Setup, trace: seq<Core>, steps: seq<Step>, i: nat)
    requires Proper(u) && IsRun(u, trace, steps) && Inv(u, trace[0]) && i < |trace|
    ensures Inv(u, trace[i])
  {
    if i > 0 {
      hide Inv, Enabled, Possible, Next;
      RunsKeepInv(u, trace, steps, i - 1);
      StepKeepsInv(u, trace[i - 1], steps[i - 1]);
    }
  }

  /**
   Over every run from a first start, crashes included, whenever a checkpoint is saved it is a
   line boundary, and each line below it is settled (delivered, adjudicated or dropped as
   oversized), still in the durable queue, handed to the overflow store, a skipped blank, lost to a
   failed append, or was never read because a reopen tailed from the end. In particular no such line
   is only in an assembler.
   */
  lemma {:induction false} SavedCheckpointLosesNothing(u: Setup, at: nat, trace: seq<Core>, steps: seq<Step>, i: nat)
    requires Proper(u) && at <= |u.file| && IsRun(u, trace, steps) && trace[0] == Opened(u, at) && i < |trace|
    ensures CheckpointCovers(u, trace[i])
  {
    OpenedInv(u, at);
    RunsKeepInv(u, trace, steps, i);
  }
}
