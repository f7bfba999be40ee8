/**
 The delivery pipeline as an object. Its cycles work on the durable buffer, the batch tracker and
 the assemblers; each of them is one step of the delivery protocol, so what holds of every run of
 the protocol holds of the object.
 */
module DeliveryPipelines {
  import opened Common
  import opened LogFiles
  import opened BatchTracking
  import opened EntryAssembly
  import opened StreamAssembly
  import opened SpillFiles
  import opened DeliveryProtocol
  import opened DeliverySafety
  import opened DeliveryTicks
  import opened EntryCodec
  import opened SequenceBuffers
  import Disk = DiskBuffers
  import opened Shipping

  // ------------------------------------------------- buffered entries and their lines

  /** The stored entry holds the joined lines of the group, under the group's stream. */
  ghost predicate Holds(e: Disk.Entry, q: Entry) {
    e.sequence == q.sequence && q.group.lines != [] && e.line.stream == q.group.stream
      && e.line.data == Join(Lines(q.group.lines))
  }

  ghost predicate Mirrors(f: Disk.Fifo, s: Core) {
    && f.last == s.lastSequence && |f.entries| == |s.queue|
    && forall i :: 0 <= i < |f.entries| ==> Holds(f.entries[i], s.queue[i])
  }

  /** The overflow files hold the bytes of the groups the protocol has there, all of them spilled groups. */
  ghost predicate Overflows(files: Files<bytes>, s: Core) {
    files == MappedFiles(Datum, s.onDisk) && OnlySpilled(s) && AllNonempty(s.spilled)
  }

  // ----------------------------------------------------------------- sizes in the buffer

  lemma {:induction false} EntriesWeigh(u: Setup, entries: seq<Disk.Entry>, queue: seq<Entry>)
    requires Weighs(u) && |entries| == |queue| && forall i :: 0 <= i < |queue| ==> Holds(entries[i], queue[i])
    ensures Disk.QueueBytes(entries) == GroupsBytes(u, Groups(queue))
  {
    if queue != [] {
      var n := |queue| - 1;
      EntriesWeigh(u, entries[..n], queue[..n]);
      assert Groups(queue)[..n] == Groups(queue[..n]);
      assert Holds(entries[n], queue[n]);
      hide Join;
    }
  }

  lemma {:induction false} QueueWeighs(u: Setup, f: Disk.Fifo, s: Core)
    requires Weighs(u) && Mirrors(f, s)
    ensures Disk.QueueBytes(f.entries) == GroupsBytes(u, Groups(s.queue))
  {
    EntriesWeigh(u, f.entries, s.queue);
  }

  lemma {:induction false} ItemsWeigh(u: Setup, items: seq<Item>, groups: seq<Emission>, nowNs: Timestamp, last: nat)
    requires Weighs(u) && ItemsOf(items, groups)
    ensures Disk.QueueBytes(Disk.Stamped(last, LinesToStore(items, nowNs))) == GroupsBytes(u, groups)
  {
    if items != [] {
      var n := |items| - 1;
      ItemsWeigh(u, items[..n], groups[..n], nowNs, last);
      var stored := Disk.Stamped(last, LinesToStore(items, nowNs));
      assert stored[..n] == Disk.Stamped(last, LinesToStore(items[..n], nowNs));
      assert items[n] == ItemOf(groups[n]);
      hide Join;
    }
  }

  lemma {:induction false} LengthsAgree(items: seq<Item>, groups: seq<Emission>, nowNs: Timestamp)
    requires ItemsOf(items, groups)
    ensures Disk.FirstTooLong(LinesToStore(items, nowNs)) < |items| <==> !AllEncodable(groups)
  {
    hide Disk.FirstTooLong, Join;
    var lines := LinesToStore(items, nowNs);
    var i := Disk.FirstTooLong(lines);
    assert forall k :: 0 <= k < |groups| ==> items[k] == ItemOf(groups[k]) && lines[k].data == Datum(groups[k]);
    if i < |items| {
      assert |Datum(groups[i])| >= U32_LIMIT;
    } else {
      assert lines[..i] == lines;
    }
  }

  /** The buffer stores, refuses for lack of room or fails exactly when the protocol says so. */
  lemma {:induction false} RoomAgrees(u: Setup, f: Disk.Fifo, s: Core, items: seq<Item>, groups: seq<Emission>,
      nowNs: Timestamp, commits: bool)
    requires Weighs(u) && Mirrors(f, s) && ItemsOf(items, groups) && groups != []
    ensures
      var tried := Disk.TryEnqueue(f, LinesToStore(items, nowNs), u.maxBytes, commits);
      && (tried.Ok? <==> AllEncodable(groups) && Room(u, s.queue, groups) && commits)
      && (tried.Err? && tried.error.Full? <==> AllEncodable(groups) && !Room(u, s.queue, groups))
  {
    QueueWeighs(u, f, s);
    ItemsWeigh(u, items, groups, nowNs, f.last);
    LengthsAgree(items, groups, nowNs);
    SameCount(items, groups);
    hide Mirrors, ItemsOf, Disk.QueueBytes, GroupsBytes, Groups, Disk.FirstTooLong, Disk.Enqueued, AllEncodable;
  }

  /** One entry to store: its bytes, its stream and its byte range in the file. */
  datatype Item = Item(data: bytes, stream: LogStream, start: nat, end: nat)

  function ItemOf(g: Emission): Item
    requires g.lines != []
  {
    Item(Join(Lines(g.lines)), g.stream, FirstStart(g), LastEnd(g))
  }

  ghost predicate ItemsOf(items: seq<Item>, groups: seq<Emission>) {
    |items| == |groups| && AllNonempty(groups) && forall i :: 0 <= i < |items| ==> items[i] == ItemOf(groups[i])
  }

  function LinesToStore(items: seq<Item>, nowNs: Timestamp): (r: seq<StoredLine>)
    ensures |r| == |items|
    ensures forall i :: 0 <= i < |r| ==> r[i] == StoredLine(nowNs, items[i].data, items[i].stream)
  {
    seq(|items|, i requires 0 <= i < |items| => StoredLine(nowNs, items[i].data, items[i].stream))
  }

  lemma {:induction false} EnqueueMirrors(f: Disk.Fifo, u: Setup, s: Core, items: seq<Item>, groups: seq<Emission>,
      nowNs: Timestamp)
    requires Mirrors(f, s) && ItemsOf(items, groups) && groups != []
    ensures AllNonempty(groups) && items != [] && f.last == s.lastSequence
    ensures Mirrors(Disk.Enqueued(f, LinesToStore(items, nowNs)), Store(u, s, groups, Stored))
  {
    hide TrackGroups, Join;
    var g := Disk.Enqueued(f, LinesToStore(items, nowNs));
    var t := Store(u, s, groups, Stored);
    forall i | 0 <= i < |g.entries|
      ensures Holds(g.entries[i], t.queue[i])
    {
      if i >= |f.entries| {
        assert t.queue[i] == Entries(groups, s.lastSequence)[i - |f.entries|];
      }
    }
  }

  // ------------------------------------------------------- deleting a prefix of entries

  ghost predicate Rising(entries: seq<Disk.Entry>) {
    forall i, j :: 0 <= i < j < |entries| ==> entries[i].sequence < entries[j].sequence
  }

  /** Deleting the sequences of the oldest entries leaves the rest. */
  lemma {:induction false} DroppingPrefix(entries: seq<Disk.Entry>, k: nat, n: nat)
    requires Rising(entries) && k <= n <= |entries|
    ensures Disk.Dropping(entries[..n], Disk.Sequences(entries)[..k]) == entries[k..n]
  {
    if n > 0 {
      var named := Disk.Sequences(entries)[..k];
      assert entries[..n][..n - 1] == entries[..n - 1];
      assert entries[..n][n - 1] == entries[n - 1];
      if k == n {
        assert named[n - 1] == entries[n - 1].sequence;
        DroppingAll(entries, n, named);
      } else {
        DroppingPrefix(entries, k, n - 1);
        assert entries[n - 1].sequence !in named;
        assert entries[k..n] == entries[k..n - 1] + [entries[n - 1]];
      }
    }
  }

  lemma {:induction false} DroppingAll(entries: seq<Disk.Entry>, n: nat, named: seq<nat>)
    requires n <= |entries| && forall i :: 0 <= i < n ==> entries[i].sequence in named
    ensures Disk.Dropping(entries[..n], named) == []
  {
    if n > 0 {
      assert entries[..n][..n - 1] == entries[..n - 1];
      DroppingAll(entries, n - 1, named);
    }
  }

  lemma {:induction false} DrainMirrors(f: Disk.Fifo, s: Core, handled: nat, release: bool)
    requires Mirrors(f, s) && Rising(f.entries) && handled <= |f.entries|
    ensures Mirrors(Disk.Deleted(f, Disk.Sequences(f.entries)[..handled]), AfterDrain(s, handled, release))
  {
    DroppingPrefix(f.entries, handled, |f.entries|);
    assert f.entries[..|f.entries|] == f.entries;
    hide Holds, AckOldestTimes;
    forall i | 0 <= i < |f.entries| - handled
      ensures Holds(f.entries[handled..][i], s.queue[handled..][i])
    {
      assert Holds(f.entries[handled + i], s.queue[handled + i]);
    }
  }

  // ----------------------------------------------------------- items of lines and events

  lemma {:induction false} EventItem(g: Emission)
    requires g.lines != []
    ensures
      var e := EventOf(g.lines);
      ItemOf(g) == Item(e.body, g.stream, e.meta.first.start, e.meta.last.end)
  {
  }

  lemma {:induction false} LineItem(u: Setup, k: nat)
    requires k < |u.file|
    ensures ItemOf(Emission(u.file[k].stream, [Line(u, k)]))
         == Item(u.file[k].payload, u.file[k].stream, StartOf(u.file, k), StartOf(u.file, k + 1))
  {
    var g := Emission(u.file[k].stream, [Line(u, k)]);
    assert Lines(g.lines) == [u.file[k].payload];
  }

  function EventItems(events: seq<(LogStream, Event)>): (r: seq<Item>)
    ensures |r| == |events|
    ensures forall i :: 0 <= i < |r| ==>
      r[i] == Item(events[i].1.body, events[i].0, events[i].1.meta.first.start, events[i].1.meta.last.end)
  {
    seq(|events|, i requires 0 <= i < |events| =>
      Item(events[i].1.body, events[i].0, events[i].1.meta.first.start, events[i].1.meta.last.end))
  }

  lemma {:induction false} TaggedAt(es: seq<Emission>, i: nat)
    requires AllNonempty(es) && i < |es|
    ensures |TaggedEvents(es)| == |es| && TaggedEvents(es)[i] == (es[i].stream, EventOf(es[i].lines))
  {
    if |es| > 1 {
      TaggedAt(es[1..], if i == 0 then 0 else i - 1);
    }
  }

  lemma {:induction false} TaggedLength(es: seq<Emission>)
    requires AllNonempty(es)
    ensures |TaggedEvents(es)| == |es|
  {
    if es != [] {
      TaggedLength(es[1..]);
    }
  }

  lemma {:induction false} TaggedItems(es: seq<Emission>)
    requires AllNonempty(es)
    ensures ItemsOf(EventItems(TaggedEvents(es)), es)
  {
    hide ItemOf, EventOf, TaggedEvents;
    TaggedLength(es);
    forall i | 0 <= i < |es|
      ensures EventItems(TaggedEvents(es))[i] == ItemOf(es[i])
    {
      TaggedAt(es, i);
      EventItem(es[i]);
    }
  }

  /** The next line's bytes start behind the fragments the reader has consumed but not handed over. */
  function BehindFragments(offset: nat, pending: nat): nat {
    if pending <= offset then offset - pending else 0
  }

  lemma {:induction false} MirrorsDurable(f: Disk.Fifo, s: Core, t: Core)
    requires Mirrors(f, s) && s.queue == t.queue && s.lastSequence == t.lastSequence
    ensures Mirrors(f, t)
  {
  }

  lemma {:induction false} RestartFacts(u: Setup, s: Core, end: nat)
    requires end <= |u.file|
    ensures
      var r := Restarted(u, s, end);
      && r.queue == s.queue && r.lastSequence == s.lastSequence && r.checkpoint == s.checkpoint
      && r.slots == InitialSlots && r.tracker == EmptyTracker && !r.blocked && !r.closing && r.spilled == s.spilled
      && r.onDisk == Abandoned(s.onDisk)
      && r.position == if Resumes(u, s) then LinesBelow(u.file, s.checkpoint.value) else end
  {
  }

  lemma {:induction false} StoreFacts(u: Setup, s: Core, groups: seq<Emission>, outcome: StoreOutcome)
    requires AllNonempty(groups) && groups != []
    ensures
      var r := Store(u, s, groups, outcome);
      && r.slots == s.slots && r.position == s.position && r.checkpoint == s.checkpoint
      && r.blocked == (s.blocked || (outcome.NoRoom? && Picked(u, groups, outcome.spills, false) != []))
      && r.closing == s.closing
      && (outcome.NoRoom? ==> r.onDisk == Written(s.onDisk, Picked(u, groups, outcome.spills, true)))
      && (!outcome.NoRoom? ==> r.onDisk == s.onDisk && r.spilled == s.spilled)
      && (outcome.Stored? ==> r.tracker == TrackGroups(s.tracker, u.inode, groups, s.lastSequence))
      && (!outcome.Stored? ==> r.tracker == s.tracker && r.queue == s.queue && r.lastSequence == s.lastSequence)
  {
  }

  // ------------------------------------------------------------------ lines read at once

  ghost predicate Rises(f: Disk.Fifo) {
    Rising(f.entries) && forall i :: 0 <= i < |f.entries| ==> f.entries[i].sequence <= f.last
  }

  lemma {:induction false} EnqueueRises(f: Disk.Fifo, lines: seq<StoredLine>)
    requires Rises(f)
    ensures Rises(Disk.Enqueued(f, lines))
  {
  }

  lemma {:induction false} DeleteRises(f: Disk.Fifo, handled: nat)
    requires Rises(f) && handled <= |f.entries|
    ensures Rises(Disk.Deleted(f, Disk.Sequences(f.entries)[..handled]))
  {
    DroppingPrefix(f.entries, handled, |f.entries|);
    assert f.entries[..|f.entries|] == f.entries;
  }

  /** The entries kept from the first `n` lines of a read, blank ones left out. */
  lemma {:induction false} KeptGrows(u: Setup, from: nat, times: seq<int>, n: nat)
    requires from + |times| <= |u.file| && n < |times|
    ensures
      var all := Arrivals(u, from, times);
      var line := u.file[from + n];
      KeptGroups(all[..n + 1]) == KeptGroups(all[..n])
        + if IsBlank(line.payload) then [] else [Emission(line.stream, [Line(u, from + n)])]
  {
    var all := Arrivals(u, from, times);
    assert all[..n + 1][..n] == all[..n];
  }

  lemma {:induction false} ArrivalIs(u: Setup, from: nat, times: seq<int>, i: nat)
    requires from + |times| <= |u.file| && i < |times|
    ensures
      var line := u.file[from + i];
      var start := StartOf(u.file, from + i);
      && StartOf(u.file, from + i + 1) == start + line.length
      && Arrivals(u, from, times)[i] == Arrival(line.stream, Held(line.payload,
        LineContext(start, start + line.length, u.inode)), times[i])
  {
  }

  /** The first `n` lines of a read have been fed. */
  ghost predicate FedTo(u: Setup, c: AssemblerConfig, slots: seq<StreamSlot>, from: nat, times: seq<int>, n: nat,
      p: Progress) {
    from + |times| <= |u.file| && n <= |times| && p == FeedAll(c, slots, Arrivals(u, from, times)[..n])
  }

  lemma {:induction false} FeedStart(u: Setup, c: AssemblerConfig, slots: seq<StreamSlot>, from: nat, times: seq<int>)
    requires from + |times| <= |u.file|
    ensures FedTo(u, c, slots, from, times, 0, Progress([], slots))
  {
  }

  lemma {:induction false} FeedEnd(u: Setup, c: AssemblerConfig, slots: seq<StreamSlot>, from: nat, times: seq<int>,
      p: Progress)
    requires FedTo(u, c, slots, from, times, |times|, p)
    ensures p == FeedAll(c, slots, Arrivals(u, from, times))
  {
    assert Arrivals(u, from, times)[..|times|] == Arrivals(u, from, times);
  }

  lemma {:induction false} FeedGrows(u: Setup, c: AssemblerConfig, slots: seq<StreamSlot>, from: nat, times: seq<int>,
      n: nat, p: Progress)
    requires FedTo(u, c, slots, from, times, n, p) && n < |times|
    ensures
      var last := Feed(c, p.slots, Arrivals(u, from, times)[n]);
      FedTo(u, c, slots, from, times, n + 1, Progress(p.emissions + last.emissions, last.slots))
  {
    hide Feed;
    var all := Arrivals(u, from, times);
    assert all[..n + 1][..n] == all[..n];
  }

  lemma {:induction false} FeedsNext(u: Setup, c: AssemblerConfig, slots: seq<StreamSlot>, from: nat, times: seq<int>,
      n: nat, p: Progress, a: Arrival)
    requires FedTo(u, c, slots, from, times, n, p) && n < |times| && from + |times| <= |u.file|
    requires
      var line := u.file[from + n];
      var start := StartOf(u.file, from + n);
      a == Arrival(line.stream, Held(line.payload, LineContext(start, start + line.length, u.inode)), times[n])
    ensures StartOf(u.file, from + n + 1) == StartOf(u.file, from + n) + u.file[from + n].length
    ensures
      var last := Feed(c, p.slots, a);
      FedTo(u, c, slots, from, times, n + 1, Progress(p.emissions + last.emissions, last.slots))
  {
    ArrivalIs(u, from, times, n);
    FeedGrows(u, c, slots, from, times, n, p);
    hide *;
  }

  lemma {:induction false} MovedMirrors(f: Disk.Fifo, s: Core, t: Core)
    requires Mirrors(f, s) && t == s.(position := t.position, slots := t.slots, closing := t.closing)
    ensures Mirrors(f, t)
  {
  }

  lemma {:induction false} MovedOverflows(files: Files<bytes>, s: Core, t: Core)
    requires Overflows(files, s) && t.onDisk == s.onDisk && t.spilled == s.spilled
    ensures Overflows(files, t)
  {
  }

  lemma {:induction false} SameCount(items: seq<Item>, groups: seq<Emission>)
    requires ItemsOf(items, groups)
    ensures items == [] <==> groups == []
  {
  }

  /** What the shipper is given are the oldest groups. */
  lemma {:induction false} ShowsTheOldest(f: Disk.Fifo, s: Core, n: nat)
    requires Mirrors(f, s) && n <= |f.entries|
    ensures n <= |s.queue| && ToShip(f.entries[..n]) == Shown(s.queue[..n])
  {
    forall i | 0 <= i < n
      ensures ToShip(f.entries[..n])[i] == Shown(s.queue[..n])[i]
    {
      assert Holds(f.entries[i], s.queue[i]);
    }
  }

  /** How full the buffer is; one when it may hold nothing. */
  function Filled(entries: seq<Disk.Entry>, maxBytes: nat): (p: real)
    ensures 0.0 <= p <= 1.0
  {
    if maxBytes == 0 then 1.0
    else
      var p := Disk.QueueBytes(entries) as real / maxBytes as real;
      RatioAgainstOne(Disk.QueueBytes(entries), maxBytes);
      if p <= 1.0 then p else 1.0
  }

  lemma {:induction false} FilledAgrees(u: Setup, f: Disk.Fifo, s: Core)
    requires Weighs(u) && Mirrors(f, s)
    ensures Filled(f.entries, u.maxBytes) == PressureOf(u, s.queue)
  {
    QueueWeighs(u, f, s);
    hide Mirrors, Disk.QueueBytes, GroupsBytes;
    if u.maxBytes > 0 {
      RatioAgainstOne(Disk.QueueBytes(f.entries), u.maxBytes);
    }
  }

  lemma {:induction false} PeekedNames(entries: seq<Disk.Entry>, peeked: seq<Disk.Entry>, count: nat)
    requires peeked <= entries && count <= |peeked|
    ensures Disk.Sequences(peeked)[..count] == Disk.Sequences(entries)[..count]
  {
  }

  lemma {:induction false} DrainFacts(f: Disk.Fifo, s: Core, handled: nat, release: bool)
    requires Mirrors(f, s) && Rises(f) && handled <= |f.entries|
    ensures handled <= |s.queue|
    ensures
      var t := AfterDrain(s, handled, release);
      var g := Disk.Deleted(f, Disk.Sequences(f.entries)[..handled]);
      && Mirrors(g, t) && Rises(g) && t.tracker == AckOldestTimes(s.tracker, handled)
      && t.slots == s.slots && t.position == s.position && t.checkpoint == s.checkpoint
        && t.blocked == (s.blocked && !release) && t.closing == s.closing
      && t.spilled == s.spilled && t.onDisk == s.onDisk && t.queue == s.queue[handled..]
  {
    DrainMirrors(f, s, handled, release);
    DeleteRises(f, handled);
    hide Disk.Deleted, Rises, EntryLines;
  }

  lemma {:induction false} DrainNothing(f: Disk.Fifo, s: Core, release: bool)
    requires Mirrors(f, s)
    ensures
      var t := AfterDrain(s, 0, release);
      && Mirrors(f, t) && t.tracker == s.tracker && t.slots == s.slots && t.position == s.position
      && t.checkpoint == s.checkpoint && t.blocked == (s.blocked && !release) && t.closing == s.closing
      && t.spilled == s.spilled && t.onDisk == s.onDisk
  {
    assert s.queue[0..] == s.queue;
  }

  // --------------------------------------------------------------- spilling and replaying

  /** The first `n` groups have been offered to the overflow store. */
  ghost predicate OfferedTo(u: Setup, groups: seq<Emission>, spills: set<nat>, n: nat, before: Files<Emission>,
      files: Files<bytes>, taken: nat) {
    && n <= |groups| && |Picked(u, groups[..n], spills, true)| == taken
    && |Picked(u, groups[..n], spills, false)| == n - taken
    && files == MappedFiles(Datum, Written(before, Picked(u, groups[..n], spills, true)))
  }

  lemma {:induction false} OfferedNone(u: Setup, groups: seq<Emission>, spills: set<nat>, before: Files<Emission>,
      files: Files<bytes>)
    requires files == MappedFiles(Datum, before)
    ensures OfferedTo(u, groups, spills, 0, before, files, 0)
  {
    assert groups[..0] == [];
  }

  lemma {:induction false} OfferedOne(
    u: Setup, groups: seq<Emission>, items: seq<Item>, spills: set<nat>, n: nat, before: Files<Emission>,
      files: Files<bytes>, taken: nat)
    requires OfferedTo(u, groups, spills, n, before, files, taken) && n < |groups| && ItemsOf(items, groups)
      && u.overflow
    ensures
      if n in spills then OfferedTo(u, groups, spills, n + 1, before, Written(files, [items[n].data]), taken + 1)
      else OfferedTo(u, groups, spills, n + 1, before, files, taken)
  {
    hide Join, Written, MappedFiles;
    assert groups[..n + 1][..n] == groups[..n] && items[n] == ItemOf(groups[n]);
    var taken' := Picked(u, groups[..n], spills, true);
    var g := groups[n];
    assert taken' + [] == taken';
    WrittenTwice(before, taken', [g]);
    MapWritten(Datum, Written(before, taken'), [g]);
    assert Mapped(Datum, [g]) == [items[n].data];
  }

  lemma {:induction false} OfferedAll(u: Setup, groups: seq<Emission>, spills: set<nat>, before: Files<Emission>,
      files: Files<bytes>, taken: nat)
    requires OfferedTo(u, groups, spills, |groups|, before, files, taken)
    ensures files == MappedFiles(Datum, Written(before, Picked(u, groups, spills, true)))
    ensures taken < |groups| <==> Picked(u, groups, spills, false) != []
  {
    assert groups[..|groups|] == groups;
  }

  lemma {:induction false} NothingTaken(u: Setup, groups: seq<Emission>, spills: set<nat>)
    requires !u.overflow || spills == {}
    ensures Picked(u, groups, spills, true) == [] && Picked(u, groups, spills, false) == groups
  {
    if groups != [] {
      NothingTaken(u, groups[..|groups| - 1], spills);
      assert groups == groups[..|groups| - 1] + [groups[|groups| - 1]];
    }
  }

  lemma {:induction false} PickedNonempty(u: Setup, groups: seq<Emission>, spills: set<nat>)
    requires AllNonempty(groups)
    ensures AllNonempty(Picked(u, groups, spills, true))
  {
    if groups != [] {
      PickedNonempty(u, groups[..|groups| - 1], spills);
    }
  }

  /** A store leaves the overflow files as it says. */
  lemma {:induction false} StoreOverflows(u: Setup, s: Core, groups: seq<Emission>, outcome: StoreOutcome,
      files: Files<bytes>)
    requires AllNonempty(groups) && groups != [] && OnlySpilled(s) && AllNonempty(s.spilled)
    requires files == MappedFiles(Datum, Store(u, s, groups, outcome).onDisk)
    ensures Overflows(files, Store(u, s, groups, outcome))
  {
    StoreKeepsOnlySpilled(u, s, groups, outcome);
    if outcome.NoRoom? {
      PickedNonempty(u, groups, outcome.spills);
    }
    hide Picked, MappedFiles, OnlySpilled;
  }

  lemma {:induction false} ReplayMirrors(f: Disk.Fifo, s: Core, n: nat, line: StoredLine)
    requires n < |BackAgain(s)| && Mirrors(f, AfterReplay(s, n)) && Rises(f)
    requires BackAgain(s)[n].lines != [] && line.data == Datum(BackAgain(s)[n]) && line.stream == Unspecified
    ensures Mirrors(Disk.Enqueued(f, [line]), AfterReplay(s, n + 1)) && Rises(Disk.Enqueued(f, [line]))
  {
    hide Join, Returned, Replayed;
    var t, v := AfterReplay(s, n), AfterReplay(s, n + 1);
    assert v.queue == t.queue + [Entry(t.lastSequence + 1, Emission(Unspecified, BackAgain(s)[n].lines))];
    var h := Disk.Enqueued(f, [line]);
    assert h.entries == f.entries + [Disk.Entry(f.last + 1, line)];
  }

  lemma {:induction false} ReplayNothing(f: Disk.Fifo, s: Core)
    requires Mirrors(f, s)
    ensures Mirrors(f, AfterReplay(s, 0))
  {
    hide Returned, Replayed;
    assert s.queue + Entries(Untagged(BackAgain(s)[..0]), s.lastSequence) == s.queue;
  }

  /** What the overflow store hands back are the bytes of groups that have lines. */
  lemma {:induction false} ReturnsGroups(files: Files<bytes>, s: Core)
    requires Overflows(files, s)
    ensures Returned(files, REPLAY_BATCH) == Mapped(Datum, BackAgain(s)) && AllNonempty(BackAgain(s))
    ensures forall accepted :: 0 <= accepted <= |BackAgain(s)| ==>
      Overflows(Replayed(files, REPLAY_BATCH), AfterReplay(s, accepted))
  {
    MapReplayed(Datum, s.onDisk, REPLAY_BATCH);
    ReplayedWithin(s.onDisk, REPLAY_BATCH, s.spilled);
    hide Returned, Replayed, Within, MappedFiles, Datum;
    forall i | 0 <= i < |BackAgain(s)|
      ensures BackAgain(s)[i].lines != []
    {
      assert BackAgain(s)[i] in s.spilled;
    }
  }

  lemma {:induction false} ReplayFacts(s: Core, accepted: nat)
    requires accepted <= |BackAgain(s)|
    ensures
      var t := AfterReplay(s, accepted);
      && t.tracker == s.tracker && t.slots == s.slots && t.position == s.position && t.blocked == s.blocked
      && t.closing == s.closing && t.checkpoint == s.checkpoint
  {
    hide Returned, Replayed;
  }

  /** The buffer takes a line handed back exactly when the protocol says it fits. */
  lemma {:induction false} RequeueAgrees(u: Setup, f: Disk.Fifo, s: Core, n: nat, line: StoredLine, requeue: Requeue)
    requires Weighs(u) && s.queue == [] && n < |BackAgain(s)| && Mirrors(f, AfterReplay(s, n))
    requires line.data == Datum(BackAgain(s)[n]) && line.stream == Unspecified
    ensures Disk.TryEnqueue(f, [line], u.maxBytes, requeue.commits(n)).Ok? <==> Fits(u, BackAgain(s), requeue, n)
  {
    hide Mirrors, Disk.TryEnqueue, Disk.QueueBytes, Disk.Enqueued, Datum, GroupsBytes, Room, Weighs, AfterReplay,
      Returned, Untagged, Groups;
    QueueWeighs(u, f, AfterReplay(s, n));
    ReplayedGroups(s, n);
    OneMoreHasRoom(u, BackAgain(s), n);
    Disk.TriedOne(f, line, u.maxBytes, requeue.commits(n));
  }

  lemma {:induction false} ReplayedGroups(s: Core, n: nat)
    requires s.queue == [] && n <= |BackAgain(s)|
    ensures Groups(AfterReplay(s, n).queue) == Untagged(BackAgain(s)[..n])
  {
    hide Returned, Replayed;
  }

  lemma {:induction false} OneMoreHasRoom(u: Setup, groups: seq<Emission>, n: nat)
    requires Weighs(u) && n < |groups|
    ensures Room(u, [], Untagged(groups[..n + 1])) <==>
      GroupsBytes(u, Untagged(groups[..n])) + HEADER_BYTES + |Datum(groups[n])| + |Trailer(Unspecified)| <= u.maxBytes
  {
    hide Join;
    var upTo := Untagged(groups[..n + 1]);
    assert upTo[..n] == Untagged(groups[..n]) && upTo[n] == Emission(Unspecified, groups[n].lines);
    assert Datum(upTo[n]) == Datum(groups[n]);
    assert GroupsBytes(u, Groups([])) == 0;
  }

  lemma {:induction false} RequeuedHaveRoom(u: Setup, groups: seq<Emission>, requeue: Requeue, n: nat)
    requires IsRequeued(u, groups, requeue, n)
    ensures n <= |groups| && Room(u, [], Untagged(groups[..n]))
  {
    if n == 0 {
      assert Untagged(groups[..0]) == [] && GroupsBytes(u, Groups([])) == 0;
    } else {
      assert Fits(u, groups, requeue, n - 1);
    }
  }

  lemma {:induction false} EmptyQueue(f: Disk.Fifo, s: Core)
    requires Mirrors(f, s) && f.entries == []
    ensures s.queue == []
  {
  }

  lemma {:induction false} AbandonedOverflows(files: Files<bytes>, u: Setup, s: Core, end: nat)
    requires Overflows(files, s) && end <= |u.file|
    ensures Overflows(Abandoned(files), Restarted(u, s, end))
  {
    MapAbandoned(Datum, s.onDisk);
    AbandonedRecords(s.onDisk);
    RestartFacts(u, s, end);
    hide Abandoned, MappedFiles, Restarted, Records;
  }

  lemma {:induction false} TendedOverflows(files: Files<bytes>, s: Core, op: Upkeep)
    requires Overflows(files, s) && Applies(s.onDisk, op) && Applies(files, op)
    ensures Overflows(Tended(files, op), s.(onDisk := Tended(s.onDisk, op)))
  {
    MapTended(Datum, s.onDisk, op);
    TendedWithin(s.onDisk, op, s.spilled);
    hide Tended, Applies, MappedFiles, Within;
  }

  /** Storing nothing changes nothing, and storing never closes the reader. */
  lemma {:induction false} StoreMoves(u: Setup, s: Core, groups: seq<Emission>)
    requires AllNonempty(groups)
    ensures groups == [] ==> forall outcome :: Store(u, s, groups, outcome) == s
    ensures forall outcome :: Store(u, s, groups, outcome).closing == s.closing
  {
  }

  lemma {:induction false} TookNothing(u: Setup, s: Core)
    ensures Took(u, s, None, s)
  {
  }

  lemma {:induction false} ReadsNothing(u: Setup, batchSize: nat, s: Core, grown: nat, clock: nat -> int,
      append: Append)
    requires ReadCount(u, batchSize, s, grown) == 0
    ensures ReadAnswer(u, batchSize, s, grown, clock, append) == None && Took(u, s, None, s)
  {
  }

  lemma {:induction false} Reads(u: Setup, batchSize: nat, s: Core, grown: nat, clock: nat -> int, append: Append)
    requires ReadCount(u, batchSize, s, grown) > 0 && !s.closing
    ensures
      var n := ReadCount(u, batchSize, s, grown);
      var times := Clocked(clock, n);
      && s.position + n <= |u.file|
      && var outcome := StoreAnswer(u, s.queue, Taken(u, s.slots, Arrivals(u, s.position, times)).emissions, append);
      && ReadAnswer(u, batchSize, s, grown, clock, append) == Some(Read(n, times, outcome))
      && Took(u, s, Some(Read(n, times, outcome)), AfterRead(u, s, times, outcome))
  {
    var n := ReadCount(u, batchSize, s, grown);
    var times := Clocked(clock, n);
    AnswerAllowed(u, s.queue, Taken(u, s.slots, Arrivals(u, s.position, times)).emissions, append);
    hide StoreAnswer, Taken, Arrivals, AfterRead, Allows;
  }

  /** Nothing is left after the drain, there is a finished overflow file, and the replay fits. */
  lemma {:induction false} TookReplay(u: Setup, s: Core, count: nat, release: bool, accepted: nat)
    requires u.overflow && count <= |s.queue| && s.queue != []
    requires
      var d := AfterDrain(s, count, release);
      && d.queue == [] && d.onDisk.finished != [] && accepted <= |BackAgain(d)|
      && Room(u, [], Untagged(BackAgain(d)[..accepted]))
    ensures Took(u, s, Some(DrainAndReplay(count, release, accepted)),
                 AfterReplay(AfterDrain(s, count, release), accepted))
  {
    hide Returned, Room, EntryLines, AckOldestTimes;
    assert count == |s.queue|;
  }

  lemma {:induction false} TookDrain(f: Disk.Fifo, u: Setup, s: Core, count: nat, release: bool)
    requires Mirrors(f, s) && count <= |f.entries|
    ensures count <= |s.queue| && Took(u, s, Some(Drain(count, release)), AfterDrain(s, count, release))
  {
    hide AfterDrain;
  }

  lemma {:induction false} ReadsOn(u: Setup, config: PipelineConfig, s: Core, relay: nat -> Reply, commits: bool,
      requeue: Requeue)
    requires config.shipBatchSize <= config.shipBatchMax && PeekCount(u, config, s.queue) == 0
    ensures DrainAnswers(u, config, s, relay, commits, requeue, Some(Drain(0, true)))
  {
    hide PeekCount;
  }

  lemma {:induction false} Leaves(u: Setup, config: PipelineConfig, s: Core, relay: nat -> Reply, commits: bool,
      requeue: Requeue, outcome: Outcome)
    requires config.shipBatchSize <= config.shipBatchMax && PeekCount(u, config, s.queue) > 0
    requires ShipsAs(Shown(s.queue[..PeekCount(u, config, s.queue)]), config.shipBatchMaxBytes, relay, outcome)
    requires outcome.Deferred? || !commits
    ensures DrainAnswers(u, config, s, relay, commits, requeue, None)
  {
    hide PeekCount, ShipsAs, Drains;
  }

  lemma {:induction false} Removes(u: Setup, config: PipelineConfig, s: Core, relay: nat -> Reply, commits: bool,
      requeue: Requeue, outcome: Outcome, step: Step)
    requires config.shipBatchSize <= config.shipBatchMax && PeekCount(u, config, s.queue) > 0
    requires ShipsAs(Shown(s.queue[..PeekCount(u, config, s.queue)]), config.shipBatchMaxBytes, relay, outcome)
    requires !outcome.Deferred? && commits && Handled(outcome) <= PeekCount(u, config, s.queue)
    requires Drains(u, s, Handled(outcome), requeue, step)
    ensures DrainAnswers(u, config, s, relay, commits, requeue, Some(step))
  {
    hide PeekCount, ShipsAs, Drains;
  }

  lemma {:induction false} DrainsOnly(u: Setup, s: Core, handled: nat, release: bool, requeue: Requeue)
    requires handled <= |s.queue| && (release <==> PressureOf(u, s.queue[handled..]) < 0.9)
    requires !(handled == |s.queue| && u.overflow && s.onDisk.finished != [])
    ensures Drains(u, s, handled, requeue, Drain(handled, release))
  {
    hide PressureOf;
  }

  lemma {:induction false} DrainsBack(u: Setup, s: Core, handled: nat, release: bool, accepted: nat, requeue: Requeue)
    requires handled <= |s.queue| && (release <==> PressureOf(u, s.queue[handled..]) < 0.9)
    requires handled == |s.queue| && u.overflow && s.onDisk.finished != []
    requires IsRequeued(u, BackAgain(AfterDrain(s, handled, release)), requeue, accepted)
    ensures Drains(u, s, handled, requeue, DrainAndReplay(handled, release, accepted))
  {
    hide PressureOf, IsRequeued, Returned;
  }

  lemma {:induction false} Led(u: Setup, config: PipelineConfig, s: Core, tick: Tick, step: Option<Step>, t: Core)
    requires config.shipBatchSize <= config.shipBatchMax && Answers(u, config, s, tick, step) && Took(u, s, step, t)
    ensures Leads(u, config, s, tick, t)
  {
    hide Answers, Took;
  }

  lemma {:induction false} RunsGrow(u: Setup, config: PipelineConfig, s: Core, ticks: seq<Tick>, i: nat, r: Core,
      t: Core)
    requires config.shipBatchSize <= config.shipBatchMax && i < |ticks|
    requires Runs(u, config, s, ticks[..i], r) && Leads(u, config, r, ticks[i], t)
    ensures Runs(u, config, s, ticks[..i + 1], t)
  {
    hide Leads;
    assert ticks[..i + 1][..i] == ticks[..i];
  }

  lemma {:induction false} DrainsOn(u: Setup, config: PipelineConfig, e: Ending, i: nat, s: Core, a: Core,
      step: Option<Step>, b: Core)
    requires config.shipBatchSize <= config.shipBatchMax && e.ShutDown? && i < e.rounds && s.queue != []
    requires Runs(u, config, s, Tending(e.upkeep(i)), a) && Took(u, a, step, b)
    requires DrainAnswers(u, config, a, e.relays(i), e.commits(i), e.requeues(i), step)
    ensures forall t :: DrainsOut(u, config, e, i + 1, b, t) ==> DrainsOut(u, config, e, i, s, t)
  {
    hide Leads, Runs, Took, DrainAnswers;
    Led(u, config, a, DrainTick(e.relays(i), e.commits(i), e.requeues(i)), step, b);
  }

  lemma {:induction false} DrainsNoMore(u: Setup, config: PipelineConfig, e: Ending, i: nat, s: Core)
    requires config.shipBatchSize <= config.shipBatchMax && e.ShutDown? && (i >= e.rounds || s.queue == [])
    ensures DrainsOut(u, config, e, i, s, s)
  {
  }

  lemma {:induction false} EndsSaving(u: Setup, config: PipelineConfig, e: Ending, s: Core, a: Core, b: Core, c: Core,
      step: Option<Step>, t: Core)
    requires config.shipBatchSize <= config.shipBatchMax && e.ShutDown?
    requires Leads(u, config, s, ReadTick(e.grown, e.pending, e.clock, e.nowNs, e.appends.0), a)
    requires Took(u, a, FlushAnswer(u, a, e.appends.1), b) && DrainsOut(u, config, e, 0, b, c)
    requires step == Some(SaveCheckpoint(e.saves)) && Took(u, c, step, t)
    ensures ShutsDown(u, config, e, s, t)
  {
    hide Leads, Took, FlushAnswer, DrainsOut;
    Led(u, config, c, CheckpointTick(e.saves), step, t);
  }

  lemma {:induction false} LivesGrow(u: Setup, config: PipelineConfig, s: Core, lives: seq<Life>, i: nat, r: Core,
      t: Core)
    requires config.shipBatchSize <= config.shipBatchMax && i < |lives| && r.position <= |u.file|
    requires LivesOn(u, config, s, lives[..i], r) && Lives(u, config, r, lives[i], t)
    ensures LivesOn(u, config, s, lives[..i + 1], t)
  {
    hide Lives;
    assert lives[..i + 1][..i] == lives[..i];
  }

  /** A run of the protocol that has reached `s`. */
  ghost predicate EndsAt(u: Setup, trace: seq<Core>, steps: seq<Step>, s: Core) {
    IsRun(u, trace, steps) && trace[|steps|] == s
  }

  lemma {:induction false} Extended(u: Setup, trace0: seq<Core>, steps0: seq<Step>, s: Core, step: Option<Step>,
      t: Core)
    returns (trace: seq<Core>, steps: seq<Step>)
    requires EndsAt(u, trace0, steps0, s) && Took(u, s, step, t)
    ensures EndsAt(u, trace, steps, t) && trace0 <= trace
  {
    hide Next, Enabled, Possible;
    if step.None? {
      trace, steps := trace0, steps0;
    } else {
      trace, steps := trace0 + [t], steps0 + [step.value];
    }
  }

  // ----------------------------------------------------------------------- the object

  class DeliveryPipeline {
    const file: LogFile
    const inode: nat
    const assembly: Option<AssemblerConfig>
    const kubernetes: bool
    const overflow: bool
    const config: PipelineConfig
    const maxBytes: nat
    const shipper: Shipper
    /** Durable. */
    var buffer: Disk.Fifo
    var savedCheckpoint: Option<nat>
    /** This source's files in the overflow store. */
    var overflowed: Files<bytes>
    /** In memory: lines read so far, the offset bookkeeping, and the parts' values. */
    var position: nat
    var runningOffset: nat
    var tracker: Tracker
    var slots: seq<StreamSlot>
    var blocked: bool
    /** The protocol state this object is in. */
    ghost var core: Core

    ghost function U(): (u: Setup)
      ensures u.file == file && u.inode == inode && u.assembly == assembly && u.overflow == overflow
      ensures u.maxBytes == maxBytes && Weighs(u)
    {
      SetupOf(file, inode, assembly, kubernetes, overflow, maxBytes)
    }

    ghost predicate Settings() {
      config.shipBatchSize <= config.shipBatchMax && Proper(U())
    }

    ghost predicate Valid()
      reads this
    {
      && Settings() && Is(core)
    }

    ghost predicate Is(s: Core)
      reads this
    {
      && Mirrors(buffer, s) && Rises(buffer) && tracker == s.tracker && slots == s.slots
      && position == s.position <= |file| && blocked == s.blocked && savedCheckpoint == s.checkpoint
      && runningOffset == StartOf(file, position) && Overflows(overflowed, s)
    }

    /**
     Open after whatever happened before: `before` is the protocol state that was left behind, of
     which only the buffer and the saved checkpoint survive. Without something to resume from the
     reader starts at the `end` of the file.
     */
    constructor Open(
      file: LogFile, inode: nat, assembly: Option<AssemblerConfig>, kubernetes: bool, overflow: bool,
      config: PipelineConfig, shipper: Shipper, maxBytes: nat,
      buffer: Disk.Fifo, saved: Option<nat>, overflowed: Files<bytes>, end: nat, ghost before: Core)
      requires Proper(SetupOf(file, inode, assembly, kubernetes, overflow, maxBytes)) && end <= |file|
        && config.shipBatchSize <= config.shipBatchMax
      requires Mirrors(buffer, before) && Rises(buffer) && Overflows(overflowed, before)
      requires saved == before.checkpoint
        && (saved.Some? ==> saved.value == StartOf(file, LinesBelow(file, saved.value)))
      ensures U() == SetupOf(file, inode, assembly, kubernetes, overflow, maxBytes) && this.shipper == shipper
      ensures this.config == config
      ensures Valid() && core == Restarted(U(), before, end) && !core.closing
    {
      this.file, this.inode, this.assembly := file, inode, assembly;
      this.kubernetes, this.overflow := kubernetes, overflow;
      this.config, this.maxBytes, this.shipper := config, maxBytes, shipper;
      this.buffer, savedCheckpoint, this.overflowed := buffer, saved, Abandoned(overflowed);
      if saved.Some? && !(kubernetes && saved.value == 0) {
        position, runningOffset := LinesBelow(file, saved.value), saved.value;
      } else {
        position, runningOffset := end, StartOf(file, end);
      }
      tracker, slots, blocked := EmptyTracker, InitialSlots, false;
      ghost var u := SetupOf(file, inode, assembly, kubernetes, overflow, maxBytes);
      RestartFacts(u, before, end);
      core := Restarted(u, before, end);
      MirrorsDurable(buffer, before, Restarted(u, before, end));
      AbandonedOverflows(overflowed, u, before, end);
      hide Mirrors, Overflows, Restarted, StartOf, LinesBelow;
    }

    /** Store entries in one transaction and track each; without room, offer them to the overflow store. */
    method Enqueue(items: seq<Item>, nowNs: Timestamp, append: Append, ghost groups: seq<Emission>)
        returns (outcome: StoreOutcome)
      requires Valid() && ItemsOf(items, groups) && groups != []
      modifies this`buffer, this`tracker, this`blocked, this`overflowed, this`core
      ensures Valid() && core == Store(U(), old(core), groups, outcome)
      ensures outcome == StoreAnswer(U(), old(core).queue, groups, append)
    {
      hide Settings, Mirrors, Rises, Store, StartOf, ItemsOf, Picked, AllNonempty, Room, MappedFiles, OnlySpilled,
        AllEncodable, SpillsOf;
      ghost var s := core;
      outcome := Put(items, nowNs, append.commits, groups);
      if outcome.NoRoom? {
        var spills, all := SpillToOverflow(items, append.spills, groups);
        outcome := NoRoom(spills);
        blocked := blocked || !all;
        StoreFacts(U(), s, groups, NoRoom({}));
        StoreFacts(U(), s, groups, outcome);
        MirrorsDurable(buffer, Store(U(), s, groups, NoRoom({})), Store(U(), s, groups, outcome));
      } else {
        StoreFacts(U(), s, groups, outcome);
      }
      StoreOverflows(U(), s, groups, outcome, overflowed);
      core := Store(U(), s, groups, outcome);
    }

    /** Write the entries to the overflow store one by one; `all` says whether it took every one of them. */
    method SpillToOverflow(items: seq<Item>, accepts: nat -> bool, ghost groups: seq<Emission>)
        returns (spills: set<nat>, all: bool)
      requires ItemsOf(items, groups) && groups != [] && overflowed == MappedFiles(Datum, core.onDisk)
      modifies this`overflowed
      ensures overflowed == MappedFiles(Datum, Written(core.onDisk, Picked(U(), groups, spills, true)))
      ensures all <==> Picked(U(), groups, spills, false) == []
      ensures spills == SpillsOf(overflow, |groups|, accepts)
    {
      ghost var u, before := U(), core.onDisk;
      if !overflow {
        NothingTaken(u, groups, {});
        return {}, false;
      }
      spills := SpillsOf(overflow, |items|, accepts);
      var taken := 0;
      OfferedNone(u, groups, spills, before, overflowed);
      hide OfferedTo, MappedFiles, Written, Picked, ItemOf;
      for i := 0 to |items|
        invariant taken <= i && OfferedTo(u, groups, spills, i, before, overflowed, taken)
      {
        OfferedOne(u, groups, items, spills, i, before, overflowed, taken);
        if accepts(i) {
          overflowed := Written(overflowed, [items[i].data]);
          taken := taken + 1;
        }
      }
      OfferedAll(u, groups, spills, before, overflowed, taken);
      all := taken == |items|;
    }

    method Put(items: seq<Item>, nowNs: Timestamp, commits: bool, ghost groups: seq<Emission>)
        returns (outcome: StoreOutcome)
      requires Valid() && ItemsOf(items, groups) && groups != []
      modifies this`buffer, this`tracker
      ensures AllNonempty(groups) && (outcome.NoRoom? ==> outcome.spills == {})
      ensures outcome.Stored? <==> AllEncodable(groups) && Room(U(), core.queue, groups) && commits
      ensures outcome.NoRoom? <==> AllEncodable(groups) && !Room(U(), core.queue, groups)
      ensures
        var t := Store(U(), core, groups, outcome);
        Mirrors(buffer, t) && Rises(buffer) && tracker == t.tracker
    {
      var lines := LinesToStore(items, nowNs);
      EnqueueMirrors(buffer, U(), core, items, groups, nowNs);
      EnqueueRises(buffer, lines);
      RoomAgrees(U(), buffer, core, items, groups, nowNs, commits);
      hide Mirrors, Rises, Store, Disk.Enqueued, Disk.QueueBytes, Disk.FirstTooLong, TrackGroups, StartOf, ItemsOf,
        Overflows, Picked, Room, AllEncodable;
      var tried := Disk.TryEnqueue(buffer, lines, maxBytes, commits);
      outcome := if tried.Ok? then Stored else if tried.error.Full? then NoRoom({}) else StoreFailed;
      StoreFacts(U(), core, groups, outcome);
      if outcome.Stored? {
        tracker := TrackItems(tracker, items, inode, buffer.last + 1, groups);
        buffer := tried.value;
      } else {
        MirrorsDurable(buffer, core, Store(U(), core, groups, outcome));
      }
    }

    static method TrackItems(before: Tracker, items: seq<Item>, inode: nat, first: nat, ghost groups: seq<Emission>)
        returns (t: Tracker)
      requires ItemsOf(items, groups) && first > 0
      ensures AllNonempty(groups) && t == TrackGroups(before, inode, groups, first - 1)
    {
      t := before;
      for i := 0 to |items|
        invariant t == TrackGroups(before, inode, groups[..i], first - 1)
      {
        assert groups[..i + 1][..i] == groups[..i];
        assert items[i] == ItemOf(groups[i]);
        t := Tracked(t, items[i].start, items[i].end, inode, first + i, first + i);
      }
      assert groups[..|items|] == groups;
    }

    /** Entries for the non-blank lines among `n` lines from `from`, each with its own byte range. */
    method KeepLines(from: nat, n: nat, startOffset: nat, ghost times: seq<int>) returns (items: seq<Item>)
      requires from + n <= |file| && |times| == n && startOffset == StartOf(file, from)
      ensures ItemsOf(items, KeptGroups(Arrivals(U(), from, times)))
    {
      items := [];
      ghost var u, all := U(), Arrivals(U(), from, times);
      var lineStart := startOffset;
      hide KeptGroups, ItemOf;
      KeptNone(all[..0]);
      for i := 0 to n
        invariant lineStart == StartOf(file, from + i)
        invariant ItemsOf(items, KeptGroups(all[..i]))
      {
        var line := file[from + i];
        var lineEnd := lineStart + line.length;
        KeptGrows(u, from, times, i);
        LineItem(u, from + i);
        if !IsBlank(line.payload) {
          items := items + [Item(line.payload, line.stream, lineStart, lineEnd)];
        }
        lineStart := lineEnd;
      }
      assert all[..n] == all;
    }

    /** Bytes of `n` lines from `from`. */
    method BatchBytes(from: nat, n: nat) returns (total: nat)
      requires from + n <= |file|
      ensures StartOf(file, from) + total == StartOf(file, from + n)
    {
      total := 0;
      for i := 0 to n
        invariant StartOf(file, from) + total == StartOf(file, from + i)
      {
        total := total + file[from + i].length;
      }
    }

    /** Feed each line to its stream's assembler and gather what they emit. */
    method FeedLines(c: AssemblerConfig, from: nat, times: seq<int>, startOffset: nat)
        returns (emitted: seq<Emission>, after: seq<StreamSlot>)
      requires assembly == Some(c) && from + |times| <= |file| && startOffset == StartOf(file, from)
      ensures Progress(emitted, after) == FeedAll(c, slots, Arrivals(U(), from, times))
    {
      emitted, after := [], slots;
      var running := startOffset;
      FeedStart(U(), c, slots, from, times);
      hide *;
      for i := 0 to |times|
        invariant running == StartOf(file, from + i)
        invariant FedTo(U(), c, slots, from, times, i, Progress(emitted, after))
      {
        var line := file[from + i];
        var ctx := LineContext(running, running + line.length, inode);
        var a := Arrival(line.stream, Held(line.payload, ctx), times[i]);
        FeedsNext(U(), c, slots, from, times, i, Progress(emitted, after), a);
        var p := Feed(c, after, a);
        emitted, after := emitted + p.emissions, p.slots;
        running := running + line.length;
      }
      FeedEnd(U(), c, slots, from, times, Progress(emitted, after));
    }

    /**
     `grown` is how many lines the file holds by now, `pending` how many bytes the reader has consumed
     for fragments of a line still to come, and `clock(i)` when line `i` of the batch is handled.
     */
    method ReadCycle(grown: nat, pending: nat, clock: nat -> int, nowNs: Timestamp, append: Append)
        returns (ghost step: Option<Step>)
      requires Valid() && !core.closing
      modifies this
      ensures Valid() && !core.closing && Took(U(), old(core), step, core)
      ensures step == ReadAnswer(U(), config.batchSize, old(core), grown, clock, append)
    {
      step := None;
      Stands();
      hide Valid, Is, Took, ReadAnswer, StoreAnswer, AfterRead, Taken, Arrivals;
      if blocked || grown <= position || position == |file| || config.batchSize == 0 {
        ReadsNothing(U(), config.batchSize, core, grown, clock, append);
        return;
      }
      var n := Min(config.batchSize, Min(grown, |file|) - position);
      var times := Clocked(clock, n);
      Reads(U(), config.batchSize, core, grown, clock, append);
      hide ReadCount;
      var outcome: StoreOutcome;
      if assembly.None? {
        outcome := ReadRaw(times, pending, nowNs, append);
      } else {
        outcome := ReadAggregated(assembly.value, times, pending, nowNs, append);
      }
      step := Some(Read(n, times, outcome));
    }

    lemma {:induction false} Stands()
      requires Valid()
      ensures position == core.position <= |file| && blocked == core.blocked
    {
    }

    /** No aggregation: every non-blank line is an entry. */
    method ReadRaw(times: seq<int>, pending: nat, nowNs: Timestamp, append: Append) returns (outcome: StoreOutcome)
      requires Valid() && assembly.None? && position + |times| <= |file|
      modifies this
      ensures Valid() && core == AfterRead(U(), old(core), times, outcome) && core.closing == old(core).closing
      ensures
        var taken := Taken(U(), old(core).slots, Arrivals(U(), old(core).position, times));
        outcome == StoreAnswer(U(), old(core).queue, taken.emissions, append)
    {
      hide Mirrors, Rises, StartOf, KeptGroups, Arrivals, ItemsOf, Overflows, Room, AllEncodable, SpillsOf;
      var n, from := |times|, position;
      position := position + n;
      var nextOffset := BehindFragments(ReaderOffset(pending), pending);
      var batchBytes := BatchBytes(from, n);
      var items := KeepLines(from, n, nextOffset - batchBytes, times);
      ghost var groups := KeptGroups(Arrivals(U(), from, times));
      runningOffset := nextOffset;
      MovedMirrors(buffer, core, core.(position := position));
      MovedOverflows(overflowed, core, core.(position := position));
      core := core.(position := position);
      StoreMoves(U(), core, groups);
      SameCount(items, groups);
      outcome := Stored;
      if items != [] {
        outcome := Enqueue(items, nowNs, append, groups);
      }
    }

    /** Where the reader stands in the file: past the lines it handed over and the fragments it kept. */
    function ReaderOffset(pending: nat): nat
      requires position <= |file|
      reads this
    {
      StartOf(file, position) + pending
    }

    /** Aggregation: lines go through their stream's assembler and only completed events are entries. */
    method ReadAggregated(c: AssemblerConfig, times: seq<int>, pending: nat, nowNs: Timestamp, append: Append)
        returns (outcome: StoreOutcome)
      requires Valid() && assembly == Some(c) && position + |times| <= |file|
      modifies this
      ensures Valid() && core == AfterRead(U(), old(core), times, outcome) && core.closing == old(core).closing
      ensures
        var taken := Taken(U(), old(core).slots, Arrivals(U(), old(core).position, times));
        outcome == StoreAnswer(U(), old(core).queue, taken.emissions, append)
    {
      hide Mirrors, Rises, StartOf, FeedAll, Arrivals, Overflows, Room, AllEncodable, SpillsOf;
      var emitted, after := FeedLines(c, position, times, runningOffset);
      position := position + |times|;
      slots, runningOffset := after, BehindFragments(ReaderOffset(pending), pending);
      MovedMirrors(buffer, core, core.(position := position, slots := after));
      MovedOverflows(overflowed, core, core.(position := position, slots := after));
      core := core.(position := position, slots := after);
      StoreMoves(U(), core, emitted);
      outcome := Stored;
      if emitted != [] {
        outcome := EnqueueEvents(emitted, nowNs, append);
      }
    }

    method EnqueueEvents(emitted: seq<Emission>, nowNs: Timestamp, append: Append) returns (outcome: StoreOutcome)
      requires Valid() && AllNonempty(emitted) && emitted != []
      modifies this`buffer, this`tracker, this`blocked, this`overflowed, this`core
      ensures Valid() && core == Store(U(), old(core), emitted, outcome)
      ensures outcome == StoreAnswer(U(), old(core).queue, emitted, append)
    {
      TaggedItems(emitted);
      outcome := Enqueue(EventItems(TaggedEvents(emitted)), nowNs, append, emitted);
    }

    method AssemblerCheckCycle(now: int, nowNs: Timestamp, append: Append) returns (ghost step: Option<Step>)
      requires Valid() && !core.closing
      modifies this
      ensures Valid() && !core.closing && Took(U(), old(core), step, core)
      ensures step == CheckAnswer(U(), old(core), now, append)
    {
      step := None;
      if assembly.None? {
        return;
      }
      hide Collect, Collected, Allows, Is, StoreAnswer;
      var outcome := CollectAndStore(OnTimeout(now), nowNs, append);
      AnswerAllowed(U(), old(core).queue, Collect(assembly.value, old(core).slots, OnTimeout(now)).emissions, append);
      step := Some(IdleCheck(now, outcome));
    }

    method CollectAndStore(mode: DrainMode, nowNs: Timestamp, append: Append) returns (outcome: StoreOutcome)
      requires Valid() && assembly.Some?
      modifies this
      ensures Valid() && core == Collected(U(), old(core), mode, outcome) && core.closing == old(core).closing
      ensures outcome
        == StoreAnswer(U(), old(core).queue, Collect(assembly.value, old(core).slots, mode).emissions, append)
    {
      hide Mirrors, Rises, StartOf, Collect, Overflows, Room, AllEncodable, SpillsOf;
      var p := Collect(assembly.value, slots, mode);
      slots := p.slots;
      MovedMirrors(buffer, core, core.(slots := p.slots));
      MovedOverflows(overflowed, core, core.(slots := p.slots));
      core := core.(slots := p.slots);
      StoreMoves(U(), core, p.emissions);
      outcome := Stored;
      if p.emissions != [] {
        outcome := EnqueueEvents(p.emissions, nowNs, append);
      }
    }

    function Pressure(): (p: real)
      reads this
      ensures 0.0 <= p <= 1.0
    {
      Filled(buffer.entries, maxBytes)
    }

    /**
     Peek, ship with shrinking, delete and acknowledge what was handled, and when that empties the
     buffer bring lines back from the overflow store. Whatever the relay does, what is settled is what
     the shipper was given, which is the joined lines of the oldest groups.
     */
    method DrainCycle(relay: nat -> Reply, commits: bool, requeue: Requeue)
      returns (outcome: Outcome, ghost step: Option<Step>)
      requires Valid()
      modifies this, if shipper.counters == null then {} else {shipper.counters}
      ensures Valid() && Took(U(), old(core), step, core) && core.closing == old(core).closing
      ensures DrainAnswers(U(), config, old(core), relay, commits, requeue, step)
      ensures commits && !outcome.Deferred? ==> step.Some? && step.value.handled == Handled(outcome)
      ensures step.Some? ==>
        var emptied := !outcome.Deferred? && Handled(outcome) == |old(buffer).entries|;
        (step.value.DrainAndReplay? <==> emptied && overflow && old(overflowed).finished != [])
      ensures
        var n := PeekCount(U(), config, old(core).queue);
        n > 0 ==> ShipsAs(Shown(old(core).queue[..n]), config.shipBatchMaxBytes, relay, outcome)
    {
      hide *;
      PeekAgrees();
      var size := AdaptiveBatchSize(Pressure(), config.shipBatchSize, config.shipBatchMax);
      var peeked := buffer.entries[..Min(size, |buffer.entries|)];
      ghost var u, s := U(), core;
      if peeked == [] {
        NothingToDrain();
        ReadsOn(u, config, s, relay, commits, requeue);
        return Deferred(EmptyBatch), Some(Drain(0, true));
      }
      var take, attempts;
      outcome, take, attempts := shipper.ShipCappedWithShrink(ToShip(peeked), config.shipBatchMaxBytes, relay);
      ShipsSo(ToShip(peeked), config.shipBatchMaxBytes, relay, take, attempts, outcome);
      step := None;
      if outcome.Deferred? || !commits {
        TookNothing(u, core);
        Leaves(u, config, s, relay, commits, requeue, outcome);
        return;
      }
      step := SettlePrefix(peeked, Handled(outcome), requeue);
      Removes(u, config, s, relay, commits, requeue, outcome, step.value);
    }

    /** Remove what was handled, and bring lines back from the overflow store when that empties the buffer. */
    method SettlePrefix(peeked: seq<Disk.Entry>, count: nat, requeue: Requeue) returns (ghost step: Option<Step>)
      requires Valid() && peeked <= buffer.entries && count <= |peeked| && peeked != []
      modifies this`buffer, this`tracker, this`blocked, this`overflowed, this`core
      ensures Valid() && Took(U(), old(core), step, core) && core.closing == old(core).closing
      ensures step.Some? && (step.value.Drain? || step.value.DrainAndReplay?) && step.value.handled == count
      ensures count <= |old(core).queue| && Drains(U(), old(core), count, requeue, step.value)
      ensures step.value.DrainAndReplay? <==>
        count == |old(buffer).entries| && overflow && old(overflowed).finished != []
    {
      MirrorsCounts();
      hide *;
      ghost var u, s := U(), core;
      var release := DeleteAndAckPrefix(peeked, count);
      step := Some(Drain(count, release));
      MirrorsCounts();
      if buffer.entries == [] && overflow && overflowed.finished != [] {
        ghost var accepted := ReplayOverflowIntoBuffer(requeue);
        TookReplay(u, s, count, release, accepted);
        step := Some(DrainAndReplay(count, release, accepted));
        DrainsBack(u, s, count, release, accepted, requeue);
      } else {
        DrainsOnly(u, s, count, release, requeue);
      }
    }

    /** What is peeked is what the protocol says, and it is the oldest groups. */
    lemma {:induction false} PeekAgrees()
      requires Valid()
      ensures config.shipBatchSize <= config.shipBatchMax
      ensures
        var size := AdaptiveBatchSize(Pressure(), config.shipBatchSize, config.shipBatchMax);
        var n := Min(size, |buffer.entries|);
        && 0 <= n == PeekCount(U(), config, core.queue) <= |buffer.entries|
        && ToShip(buffer.entries[..n]) == Shown(core.queue[..n])
    {
      FilledAgrees(U(), buffer, core);
      MirrorsCounts();
      var size := AdaptiveBatchSize(Pressure(), config.shipBatchSize, config.shipBatchMax);
      ShowsTheOldest(buffer, core, Min(size, |buffer.entries|));
      hide Mirrors, PressureOf, Filled, AdaptiveBatchSize, Rises, Overflows, StartOf;
    }

    lemma {:induction false} MirrorsCounts()
      requires Valid()
      ensures |core.queue| == |buffer.entries|
      ensures overflowed.finished != [] <==> core.onDisk.finished != []
    {
    }

    /**
     Store what the overflow store hands back, one line per transaction, up to the first that fails.
     No batch is tracked for them, and their stream is forgotten.
     */
    method ReplayOverflowIntoBuffer(requeue: Requeue) returns (ghost accepted: nat)
      requires Valid() && buffer.entries == []
      modifies this`buffer, this`overflowed, this`core
      ensures Valid() && accepted <= |BackAgain(old(core))| && core == AfterReplay(old(core), accepted)
      ensures IsRequeued(U(), BackAgain(old(core)), requeue, accepted) && core.closing == old(core).closing
      ensures Room(U(), [], Untagged(BackAgain(old(core))[..accepted]))
    {
      ghost var s := core;
      EmptyQueue(buffer, s);
      ReturnsGroups(overflowed, s);
      ReplayNothing(buffer, s);
      hide Mirrors, Rises, StartOf, AfterReplay, Settings, Overflows, Weighs, Returned, Replayed, BackAgain,
        AllNonempty, Room, IsRequeued, Fits, Datum, Mapped, Untagged, Groups;
      var batch := Returned(overflowed, REPLAY_BATCH);
      overflowed := Replayed(overflowed, REPLAY_BATCH);
      var n := RequeueLines(batch, requeue, s);
      accepted := n;
      RequeuedHaveRoom(U(), BackAgain(s), requeue, n);
      ReplayFacts(s, n);
      core := AfterReplay(s, n);
    }

    method RequeueLines(batch: seq<bytes>, requeue: Requeue, ghost s: Core) returns (accepted: nat)
      requires Mirrors(buffer, AfterReplay(s, 0)) && Rises(buffer) && s.queue == []
      requires batch == Mapped(Datum, BackAgain(s)) && AllNonempty(BackAgain(s))
      modifies this`buffer
      ensures accepted <= |BackAgain(s)| && Mirrors(buffer, AfterReplay(s, accepted)) && Rises(buffer)
      ensures IsRequeued(U(), BackAgain(s), requeue, accepted)
    {
      hide Mirrors, Rises, Join, AfterReplay, Disk.TryEnqueue, Returned, Datum, Fits, Weighs;
      accepted := 0;
      while accepted < |batch|
        invariant accepted <= |batch|
        invariant Mirrors(buffer, AfterReplay(s, accepted)) && Rises(buffer)
        invariant forall i :: 0 <= i < accepted ==> Fits(U(), BackAgain(s), requeue, i)
      {
        var line := StoredLine(requeue.timestampNs(accepted), batch[accepted], Unspecified);
        var tried := Disk.TryEnqueue(buffer, [line], maxBytes, requeue.commits(accepted));
        RequeueAgrees(U(), buffer, s, accepted, line, requeue);
        if tried.Err? {
          break;
        }
        Disk.TriedOne(buffer, line, maxBytes, requeue.commits(accepted));
        ReplayMirrors(buffer, s, accepted, line);
        buffer, accepted := tried.value, accepted + 1;
      }
    }

    /** What the overflow store does on its own. */
    method TendOverflow(op: Upkeep) returns (ghost step: Option<Step>)
      requires Valid()
      modifies this`overflowed, this`core
      ensures Valid() && Took(U(), old(core), step, core) && core.closing == old(core).closing
      ensures step == TendAnswer(U(), old(core), op)
    {
      step := None;
      MapTended(Datum, core.onDisk, op);
      hide Mirrors, Rises, StartOf, MappedFiles, Tended, Applies;
      if overflow && Applies(overflowed, op) {
        TendedOverflows(overflowed, core, op);
        overflowed := Tended(overflowed, op);
        MirrorsDurable(buffer, core, core.(onDisk := Tended(core.onDisk, op)));
        step := Some(Tend(op));
        core := core.(onDisk := Tended(core.onDisk, op));
      }
    }

    /** An empty peek lets reads resume. */
    method NothingToDrain()
      requires Valid()
      modifies this`blocked, this`core
      ensures Valid() && Took(U(), old(core), Some(Drain(0, true)), core) && core.closing == old(core).closing
    {
      DrainNothing(buffer, core, true);
      MovedOverflows(overflowed, core, AfterDrain(core, 0, true));
      hide Mirrors, Rises, StartOf, AfterDrain, Overflows;
      blocked := false;
      core := AfterDrain(core, 0, true);
    }

    /** Delete and acknowledge the handled prefix, and resume reads once pressure is down. */
    method DeleteAndAckPrefix(peeked: seq<Disk.Entry>, count: nat) returns (release: bool)
      requires Valid() && peeked <= buffer.entries && count <= |peeked|
      modifies this`buffer, this`tracker, this`blocked, this`core
      ensures Valid() && Took(U(), old(core), Some(Drain(count, release)), core)
      ensures count <= |old(core).queue| && core == AfterDrain(old(core), count, release)
      ensures core.closing == old(core).closing && overflowed == old(overflowed)
      ensures core.queue == old(core).queue[count..] && core.onDisk == old(core).onDisk
      ensures release <==> PressureOf(U(), core.queue) < 0.9
    {
      ghost var f, s := buffer, core;
      hide Took, Settings, Overflows, Mirrors, Rises, StartOf, AfterDrain, Pressure, AckOldestTimes, Disk.Sequences,
        Disk.Deleted, Filled, PressureOf, Weighs;
      DeletePrefix(peeked, count);
      release := Filled(buffer.entries, maxBytes) < 0.9;
      blocked := blocked && !release;
      DrainFacts(f, s, count, release);
      FilledAgrees(U(), buffer, AfterDrain(s, count, release));
      TookDrain(f, U(), s, count, release);
      MovedOverflows(overflowed, s, AfterDrain(s, count, release));
      core := AfterDrain(s, count, release);
    }

    method DeletePrefix(peeked: seq<Disk.Entry>, count: nat)
      requires peeked <= buffer.entries && count <= |peeked|
      modifies this`buffer, this`tracker
      ensures buffer == Disk.Deleted(old(buffer), Disk.Sequences(old(buffer).entries)[..count])
      ensures tracker == AckOldestTimes(old(tracker), count)
    {
      PeekedNames(buffer.entries, peeked, count);
      buffer := Disk.Deleted(buffer, Disk.Sequences(peeked)[..count]);
      tracker := AckHandled(tracker, count);
    }

    static method AckHandled(before: Tracker, handled: nat) returns (t: Tracker)
      ensures t == AckOldestTimes(before, handled)
    {
      t := before;
      for i := 0 to handled
        invariant AckOldestTimes(t, handled - i) == AckOldestTimes(before, handled)
      {
        t := AckOldest(t);
      }
    }

    method CheckpointCycle(saves: bool) returns (ghost step: Option<Step>)
      requires Valid()
      modifies this`savedCheckpoint, this`tracker, this`core
      ensures Valid() && Took(U(), old(core), step, core) && core.closing == old(core).closing
      ensures step == Some(SaveCheckpoint(saves))
      ensures
        var n, held := AckedPrefix(old(tracker).batches), if assembly.None? then None else BufferedStart(slots);
        if saves && n > 0 then
          var end := old(tracker).batches[n - 1].endOffset;
          && savedCheckpoint == Some(if held.Some? && held.value < end then held.value else end)
          && tracker.batches == old(tracker).batches[n..] && AckedPrefix(tracker.batches) == 0
        else savedCheckpoint == old(savedCheckpoint) && tracker == old(tracker)
    {
      hide Mirrors, Rises, StartOf, BufferedStart, Overflows;
      step := Some(SaveCheckpoint(saves));
      var safe := Safe(tracker);
      if safe.None? || !saves {
        return;
      }
      var ceiling := if assembly.None? then None else BufferedStart(slots);
      var offset := if ceiling.Some? then Min(safe.value.offset, ceiling.value) else safe.value.offset;
      savedCheckpoint := Some(offset);
      tracker := Drained(tracker);
      MirrorsDurable(buffer, core, AfterSave(U(), core, saves));
      MovedOverflows(overflowed, core, AfterSave(U(), core, saves));
      core := AfterSave(U(), core, saves);
    }

    /** One branch of the select loop. The protocol run so far grows by the step it takes. */
    method OnTick(tick: Tick, ghost trace0: seq<Core>, ghost steps0: seq<Step>)
        returns (ghost trace: seq<Core>, ghost steps: seq<Step>)
      requires Valid() && !core.closing && EndsAt(U(), trace0, steps0, core)
      modifies this, if shipper.counters == null then {} else {shipper.counters}
      ensures Valid() && !core.closing && EndsAt(U(), trace, steps, core) && trace0 <= trace
      ensures Leads(U(), config, old(core), tick, core)
    {
      ghost var step: Option<Step>;
      SettingsHold();
      hide Valid, EndsAt, Took, Settings, ReadAnswer, CheckAnswer, TendAnswer, DrainAnswers, Leads, ShipsAs;
      match tick {
        case ReadTick(grown, pending, clock, nowNs, append) => step := ReadCycle(grown, pending, clock, nowNs, append);
        case DrainTick(relay, commits, requeue) =>
          var o;
          o, step := DrainCycle(relay, commits, requeue);
        case CheckpointTick(saves) => step := CheckpointCycle(saves);
        case AssemblerTick(now, nowNs, append) => step := AssemblerCheckCycle(now, nowNs, append);
        case OverflowTick(op) => step := TendOverflow(op);
      }
      Led(U(), config, old(core), tick, step, core);
      trace, steps := Extended(U(), trace0, steps0, old(core), step, core);
    }

    lemma {:induction false} SettingsHold()
      requires Valid()
      ensures config.shipBatchSize <= config.shipBatchMax
    {
    }

    /** Read what is left, flush the assemblers, drain for at most so many rounds, and save. */
    method Shutdown(e: Ending, ghost trace0: seq<Core>, ghost steps0: seq<Step>)
        returns (ghost trace: seq<Core>, ghost steps: seq<Step>)
      requires Valid() && !core.closing && EndsAt(U(), trace0, steps0, core) && e.ShutDown?
      modifies this, if shipper.counters == null then {} else {shipper.counters}
      ensures Valid() && EndsAt(U(), trace, steps, core) && trace0 <= trace
      ensures ShutsDown(U(), config, e, old(core), core)
    {
      hide *;
      SettingsHold();
      trace, steps := OnTick(ReadTick(e.grown, e.pending, e.clock, e.nowNs, e.appends.0), trace0, steps0);
      ghost var a := core;
      trace, steps := FlushAssemblers(e.nowNs, e.appends.1, trace, steps);
      ghost var b := core;
      trace, steps := DrainOut(e, trace, steps);
      ghost var c := core;
      ghost var step := CheckpointCycle(e.saves);
      EndsSaving(U(), config, e, old(core), a, b, c, step, core);
      trace, steps := Extended(U(), trace, steps, c, step, core);
    }

    method DrainOut(e: Ending, ghost trace0: seq<Core>, ghost steps0: seq<Step>)
        returns (ghost trace: seq<Core>, ghost steps: seq<Step>)
      requires Valid() && EndsAt(U(), trace0, steps0, core) && e.ShutDown?
      modifies this, if shipper.counters == null then {} else {shipper.counters}
      ensures Valid() && EndsAt(U(), trace, steps, core) && trace0 <= trace
      ensures DrainsOut(U(), config, e, 0, old(core), core)
    {
      hide *;
      SettingsHold();
      MirrorsCounts();
      trace, steps := trace0, steps0;
      var i := 0;
      while i < e.rounds && buffer.entries != []
        invariant i <= e.rounds && Valid() && EndsAt(U(), trace, steps, core) && trace0 <= trace
        invariant |core.queue| == |buffer.entries|
        invariant forall t :: DrainsOut(U(), config, e, i, core, t) ==> DrainsOut(U(), config, e, 0, old(core), t)
      {
        ghost var s := core;
        trace, steps := TendAll(e.upkeep(i), trace, steps);
        ghost var a := core;
        var o;
        ghost var step;
        o, step := DrainCycle(e.relays(i), e.commits(i), e.requeues(i));
        DrainsOn(U(), config, e, i, s, a, step, core);
        trace, steps := Extended(U(), trace, steps, a, step, core);
        MirrorsCounts();
        i := i + 1;
      }
      DrainsNoMore(U(), config, e, i, core);
    }

    method TendAll(ops: seq<Upkeep>, ghost trace0: seq<Core>, ghost steps0: seq<Step>)
        returns (ghost trace: seq<Core>, ghost steps: seq<Step>)
      requires Valid() && EndsAt(U(), trace0, steps0, core)
      modifies this`overflowed, this`core
      ensures Valid() && EndsAt(U(), trace, steps, core) && trace0 <= trace
      ensures Runs(U(), config, old(core), Tending(ops), core)
    {
      SettingsHold();
      trace, steps := trace0, steps0;
      ghost var ticks := Tending(ops);
      assert ticks[..0] == [];
      hide Valid, EndsAt, Took, Settings, Leads, TendAnswer;
      for i := 0 to |ops|
        invariant Valid() && EndsAt(U(), trace, steps, core) && trace0 <= trace
        invariant Runs(U(), config, old(core), ticks[..i], core)
      {
        hide Runs;
        ghost var s := core;
        ghost var step := TendOverflow(ops[i]);
        Led(U(), config, s, ticks[i], step, core);
        RunsGrow(U(), config, old(core), ticks, i, s, core);
        trace, steps := Extended(U(), trace, steps, s, step, core);
      }
      assert ticks[..|ops|] == ticks;
    }

    method FlushAssemblers(nowNs: Timestamp, append: Append, ghost trace0: seq<Core>, ghost steps0: seq<Step>)
        returns (ghost trace: seq<Core>, ghost steps: seq<Step>)
      requires Valid() && !core.closing && EndsAt(U(), trace0, steps0, core)
      modifies this
      ensures Valid() && EndsAt(U(), trace, steps, core) && trace0 <= trace
      ensures Took(U(), old(core), FlushAnswer(U(), old(core), append), core)
    {
      hide EndsAt, Collected, Mirrors, Rises, StartOf, Overflows, Allows, Collect, StoreAnswer;
      trace, steps := trace0, steps0;
      if assembly.None? {
        return;
      }
      ghost var s := core;
      MovedMirrors(buffer, s, s.(closing := true));
      MovedOverflows(overflowed, s, s.(closing := true));
      core := s.(closing := true);
      var outcome := CollectAndStore(OnFlush, nowNs, append);
      AnswerAllowed(U(), s.queue, Collect(assembly.value, s.slots, OnFlush).emissions, append);
      trace, steps := Extended(U(), trace0, steps0, s, Some(FlushAll(outcome)), core);
    }

    /** The pipeline's life between an open and its end, whatever the ticks bring. */
    method Run(schedule: seq<Tick>, ending: Ending, ghost trace0: seq<Core>, ghost steps0: seq<Step>)
        returns (ghost trace: seq<Core>, ghost steps: seq<Step>)
      requires Valid() && !core.closing && EndsAt(U(), trace0, steps0, core)
      modifies this, if shipper.counters == null then {} else {shipper.counters}
      ensures Valid() && EndsAt(U(), trace, steps, core) && trace0 <= trace
      ensures RunsToEnd(U(), config, old(core), schedule, ending, core)
    {
      SettingsHold();
      trace, steps := trace0, steps0;
      assert schedule[..0] == [];
      hide EndsAt, Valid, Settings, Leads, ShutsDown;
      for i := 0 to |schedule|
        invariant Valid() && !core.closing && EndsAt(U(), trace, steps, core) && trace0 <= trace
        invariant Runs(U(), config, old(core), schedule[..i], core)
      {
        hide Runs;
        ghost var s := core;
        trace, steps := OnTick(schedule[i], trace, steps);
        RunsGrow(U(), config, old(core), schedule, i, s, core);
      }
      assert schedule[..|schedule|] == schedule;
      ghost var r := core;
      if ending.ShutDown? {
        trace, steps := Shutdown(ending, trace, steps);
      }
      assert Runs(U(), config, old(core), schedule, r);
    }
  }

  // -------------------------------------------------------------- one crash after another

  ghost predicate Survives(u: Setup, trace: seq<Core>, steps: seq<Step>, s: Core, queue: Disk.Fifo, saved: Option<nat>,
      files: Files<bytes>) {
    && EndsAt(u, trace, steps, s) && trace[0] == Opened(u, 0)
    && Mirrors(queue, s) && Rises(queue) && saved == s.checkpoint && Overflows(files, s)
  }

  lemma {:induction false} BornEmpty(u: Setup)
    ensures Survives(u, [Opened(u, 0)], [], Opened(u, 0), Disk.Fifo([], 0), None, NoFiles())
  {
    var files: Files<Emission> := NoFiles();
    assert Records(files) == [];
    assert MappedFiles(Datum, files) == NoFiles();
  }

  /** What a reopen needs: the saved offset is a line boundary, and the restart is a protocol step. */
  lemma {:induction false} Reopens(
    u: Setup, trace: seq<Core>, steps: seq<Step>, s: Core, queue: Disk.Fifo, saved: Option<nat>, files: Files<bytes>,
      end: nat)
    requires Proper(u) && Survives(u, trace, steps, s, queue, saved, files) && s.position <= end <= |u.file|
    ensures CheckpointCovers(u, s) && (saved.Some? ==> saved.value == StartOf(u.file, LinesBelow(u.file, saved.value)))
    ensures EndsAt(u, trace + [Restarted(u, s, end)], steps + [Restart(end)], Restarted(u, s, end))
  {
    SavedCheckpointLosesNothing(u, 0, trace, steps, |steps|);
    hide IsRun, Restarted;
    var t, st := Extended(u, trace, steps, s, Some(Restart(end)), Restarted(u, s, end));
    hide CheckpointCovers;
  }

  /**
   Any number of lives, each ending in a crash at any point of its schedule or in an orderly shutdown;
   only the buffer, the overflow store and the saved checkpoint pass from one to the next. In the end,
   as at every point between, every line below the saved checkpoint is accounted for.
   */
  method Live(
    file: LogFile, inode: nat, assembly: Option<AssemblerConfig>, kubernetes: bool, overflow: bool,
    config: PipelineConfig, shipper: Shipper, maxBytes: nat, lives: seq<Life>)
    returns (queue: Disk.Fifo, saved: Option<nat>, overflowed: Files<bytes>,
             ghost trace: seq<Core>, ghost steps: seq<Step>, ghost last: Core)
    requires Proper(SetupOf(file, inode, assembly, kubernetes, overflow, maxBytes))
      && config.shipBatchSize <= config.shipBatchMax
    modifies if shipper.counters == null then {} else {shipper.counters}
    ensures EndsAt(SetupOf(file, inode, assembly, kubernetes, overflow, maxBytes), trace, steps, last)
    ensures trace[0] == Opened(SetupOf(file, inode, assembly, kubernetes, overflow, maxBytes), 0)
    ensures Mirrors(queue, last) && saved == last.checkpoint && Overflows(overflowed, last)
    ensures CheckpointCovers(SetupOf(file, inode, assembly, kubernetes, overflow, maxBytes), last)
    ensures
      var u := SetupOf(file, inode, assembly, kubernetes, overflow, maxBytes);
      LivesOn(u, config, Opened(u, 0), lives, last)
  {
    ghost var u := SetupOf(file, inode, assembly, kubernetes, overflow, maxBytes);
    queue, saved, overflowed, last := Disk.Fifo([], 0), None, NoFiles(), Opened(u, 0);
    trace, steps := [last], [];
    BornEmpty(u);
    var reached := 0;
    assert lives[..0] == [];
    hide Mirrors, Rises, IsRun, CheckpointCovers, StartOf, Restarted, Overflows;
    for i := 0 to |lives|
      invariant Survives(u, trace, steps, last, queue, saved, overflowed) && last.position == reached <= |file|
      invariant LivesOn(u, config, Opened(u, 0), lives[..i], last)
    {
      hide LivesOn, RunsToEnd;
      var end := Max(Min(lives[i].end, |file|), reached);
      Reopens(u, trace, steps, last, queue, saved, overflowed, end);
      var pipeline := new DeliveryPipeline.Open(
        file, inode, assembly, kubernetes, overflow, config, shipper, maxBytes, queue, saved, overflowed, end, last);
      trace, steps := trace + [Restarted(u, last, end)], steps + [Restart(end)];
      ghost var before := trace;
      trace, steps := pipeline.Run(lives[i].schedule, lives[i].ending, trace, steps);
      assert trace[0] == before[0];
      queue, saved, overflowed := pipeline.buffer, pipeline.savedCheckpoint, pipeline.overflowed;
      LivesGrow(u, config, Opened(u, 0), lives, i, last, pipeline.core);
      reached, last := pipeline.position, pipeline.core;
    }
    assert lives[..|lives|] == lives;
    Reopens(u, trace, steps, last, queue, saved, overflowed, |file|);
  }
}
