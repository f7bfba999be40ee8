/**
 The streaming actor as an object: the durable pipeline it owns, the branches of its select loop,
 and its shutdown. Every method is a step of the streaming protocol, and the one the outside world
 leaves it.
 */
module StreamingActors {
  import opened Common
  import opened EntryCodec
  import Disk = DiskBuffers
  import opened Shipping
  import opened StreamingProtocol
  import opened StreamingSafety
  import opened StreamingTicks

  /** The buffered entries are the protocol's, with the source's bytes. */
  ghost predicate Mirrors(source: nat -> StoredLine, f: Disk.Fifo, s: State) {
    && f.last == s.lastSequence && |f.entries| == |s.buffer|
    && forall i :: 0 <= i < |f.entries| ==> f.entries[i] == Disk.Entry(s.buffer[i].sequence, RowOf(source, s.buffer[i]))
  }

  lemma {:induction false} AppendMirrors(source: nat -> StoredLine, f: Disk.Fifo, s: State, line: nat, bare: bool)
    requires Mirrors(source, f, s)
    ensures
      var row := RowOf(source, StreamEntry(s.lastSequence + 1, line, bare));
      Mirrors(source, Disk.Enqueued(f, [row]), Appended(s, line, bare))
  {
  }

  lemma {:induction false} DeleteMirrors(source: nat -> StoredLine, f: Disk.Fifo, s: State, named: seq<nat>)
    requires Mirrors(source, f, s)
    ensures Mirrors(source, Disk.Deleted(f, named), Deleted(s, named))
  {
    DropMirrors(source, f.entries, s.buffer, named);
  }

  lemma {:induction false} DropMirrors(source: nat -> StoredLine, entries: seq<Disk.Entry>, buffer: seq<StreamEntry>,
      named: seq<nat>)
    requires |entries| == |buffer|
    requires forall i :: 0 <= i < |entries| ==> entries[i] == Disk.Entry(buffer[i].sequence, RowOf(source, buffer[i]))
    ensures
      var a, b := Disk.Dropping(entries, named), Keeping(buffer, named);
      |a| == |b| && forall i :: 0 <= i < |a| ==> a[i] == Disk.Entry(b[i].sequence, RowOf(source, b[i]))
  {
    if entries != [] {
      var n := |entries| - 1;
      DropMirrors(source, entries[..n], buffer[..n], named);
    }
  }

  lemma {:induction false} SameBuffer(source: nat -> StoredLine, f: Disk.Fifo, s: State, t: State)
    requires Mirrors(source, f, s) && t.buffer == s.buffer && t.lastSequence == s.lastSequence
    ensures Mirrors(source, f, t)
  {
  }

  lemma {:induction false} PeekMirrors(source: nat -> StoredLine, f: Disk.Fifo, s: State, n: nat)
    requires Mirrors(source, f, s) && n <= |f.entries|
    ensures |f.entries| == |s.buffer| && Disk.Sequences(f.entries[..n]) == SequencesOf(s.buffer[..n])
    ensures ToShip(f.entries[..n]) == Shown(source, s.buffer[..n])
  {
    hide RowOf;
  }

  lemma {:induction false} EmptyTogether(source: nat -> StoredLine, f: Disk.Fifo, s: State)
    requires Mirrors(source, f, s)
    ensures f.entries == [] <==> s.buffer == []
  {
  }

  /** The buffer weighs what the protocol says. */
  lemma {:induction false} BufferWeighs(x: Site, entries: seq<Disk.Entry>, buffer: seq<StreamEntry>)
    requires |entries| == |buffer|
    requires forall i :: 0 <= i < |entries| ==> entries[i] == Disk.Entry(buffer[i].sequence, RowOf(x.source, buffer[i]))
    ensures Disk.QueueBytes(entries) == BufferBytes(x, buffer)
  {
    if buffer != [] {
      var n := |buffer| - 1;
      BufferWeighs(x, entries[..n], buffer[..n]);
    }
  }

  lemma {:induction false} FitsAlike(x: Site, f: Disk.Fifo, s: State, row: StoredLine)
    requires Mirrors(x.source, f, s)
    ensures Fits(x, s.buffer, row) <==>
      |row.data| < U32_LIMIT && Disk.QueueBytes(f.entries) + Disk.StoredBytes(row) <= x.maxBytes
  {
    BufferWeighs(x, f.entries, s.buffer);
  }

  /** What the buffer says to a line is the room there is for it. */
  lemma {:induction false} RoomIs(x: Site, f: Disk.Fifo, s: State, line: nat, commits: bool, spills: bool)
    requires Mirrors(x.source, f, s)
    ensures
      var row := x.source(line);
      var tried := Disk.TryEnqueue(f, [row], x.maxBytes, commits);
      var short, fits := |row.data| < U32_LIMIT, Disk.QueueBytes(f.entries) + Disk.StoredBytes(row) <= x.maxBytes;
      && (tried.Ok? <==> short && fits && commits) && (tried.Ok? ==> tried.value == Disk.Enqueued(f, [row]))
      && (tried.Err? && tried.error.Full? <==> short && !fits)
      && RoomFor(x, s, line, commits, spills) == if tried.Ok? then Taken
           else if tried.error.Full? && x.overflow && spills then Spilled else Refused
  {
    hide Mirrors, Disk.TryEnqueue, Disk.QueueBytes, Disk.StoredBytes, Disk.Enqueued, Fits;
    Disk.TriedOne(f, x.source(line), x.maxBytes, commits);
    FitsAlike(x, f, s, x.source(line));
  }

  // ------------------------------------------------------------------------ the ship in flight

  /** What is in flight is the oldest entries, and the relay is shown them. */
  ghost predicate InFlight(source: nat -> StoredLine, shown: seq<ShipEntry>, s: State) {
    s.inflight.Some? ==>
      var n := |s.inflight.value|;
      && 1 <= n <= |s.buffer| && s.inflight.value == SequencesOf(s.buffer[..n])
      && shown == Shown(source, s.buffer[..n])
  }

  lemma {:induction false} StillInFlight(source: nat -> StoredLine, shown: seq<ShipEntry>, s: State, t: State)
    requires InFlight(source, shown, s) && s.buffer <= t.buffer && t.inflight == s.inflight
    ensures InFlight(source, shown, t)
  {
    if s.inflight.Some? {
      var n := |s.inflight.value|;
      assert t.buffer[..n] == s.buffer[..n];
    }
  }

  lemma {:induction false} AppendsAtTheEnd(s: State, line: nat, bare: bool)
    ensures s.buffer <= Appended(s, line, bare).buffer
  {
  }

  lemma {:induction false} TakesIn(source: nat -> StoredLine, f: Disk.Fifo, shown: seq<ShipEntry>, s: State, line: nat)
    requires Mirrors(source, f, s) && InFlight(source, shown, s)
    ensures
      var t := Appended(s, line, false);
      Mirrors(source, Disk.Enqueued(f, [source(line)]), t) && InFlight(source, shown, t)
  {
    AppendMirrors(source, f, s, line, false);
    AppendsAtTheEnd(s, line, false);
    StillInFlight(source, shown, s, Appended(s, line, false));
    hide Mirrors, InFlight, Disk.Enqueued;
  }

  lemma {:induction false} TakesBack(source: nat -> StoredLine, f: Disk.Fifo, shown: seq<ShipEntry>, s: State,
      line: nat)
    requires Mirrors(source, f, s) && InFlight(source, shown, s)
    ensures
      var t := Appended(s, line, true);
      && Mirrors(source, Disk.Enqueued(f, [source(line).(stream := Unspecified)]), t) && InFlight(source, shown, t)
  {
    AppendMirrors(source, f, s, line, true);
    AppendsAtTheEnd(s, line, true);
    StillInFlight(source, shown, s, Appended(s, line, true));
    hide Mirrors, InFlight, Disk.Enqueued;
  }

  // -------------------------------------------------------------------------- lines handed back

  lemma {:induction false} WantedSplits(spilled: set<nat>, lines: seq<nat>, i: nat)
    requires i <= |lines|
    ensures Wanted(spilled, lines[..i]) <= Wanted(spilled, lines)
    ensures
      var n := |Wanted(spilled, lines[..i])|;
      i < |lines| && lines[i] in spilled ==> n < |Wanted(spilled, lines)| && Wanted(spilled, lines)[n] == lines[i]
    ensures i < |lines| ==>
      Wanted(spilled, lines[..i + 1]) == Wanted(spilled, lines[..i]) + if lines[i] in spilled then [lines[i]] else []
    decreases |lines| - i
  {
    if i < |lines| {
      assert lines[..i + 1][..i] == lines[..i];
      WantedSplits(spilled, lines, i + 1);
    } else {
      assert lines[..i] == lines;
    }
  }

  lemma {:induction false} ReplayOne(w: World, s: State, replayed: seq<nat>, line: nat)
    requires w.overflow && line in s.spilled
    ensures Replayed(w, s, replayed + [line]) == Appended(Replayed(w, s, replayed), line, true)
  {
    assert (replayed + [line])[..|replayed|] == replayed;
  }

  /** The first `i` lines handed back have been gone through, and those wanted among them were stored. */
  ghost predicate ReplayedTo(x: Site, s: State, replay: Replay, i: nat, replayed: seq<nat>) {
    && i <= |replay.lines| && replayed == Wanted(s.spilled, replay.lines[..i])
    && replayed <= Wanted(s.spilled, replay.lines)
    && forall j :: 0 <= j < |replayed| ==> Returns(x, s, replay, j)
  }

  lemma {:induction false} ReplayedNone(x: Site, s: State, replay: Replay)
    ensures ReplayedTo(x, s, replay, 0, [])
  {
  }

  lemma {:induction false} ReplayedAll(x: Site, s: State, replay: Replay, replayed: seq<nat>)
    requires x.overflow && ReplayedTo(x, s, replay, |replay.lines|, replayed)
    ensures IsReplay(x, s, replay, replayed)
  {
    hide Returns;
    assert replay.lines[..|replay.lines|] == replay.lines;
  }

  lemma {:induction false} ReplaySkips(x: Site, s: State, replay: Replay, i: nat, replayed: seq<nat>)
    requires ReplayedTo(x, s, replay, i, replayed) && i < |replay.lines| && replay.lines[i] !in s.spilled
    ensures ReplayedTo(x, s, replay, i + 1, replayed)
  {
    hide Returns;
    WantedSplits(s.spilled, replay.lines, i);
  }

  /** The next line wanted returns exactly when it can be stored behind the ones returned. */
  lemma {:induction false} ReplayTurns(x: Site, s: State, replay: Replay, i: nat, replayed: seq<nat>)
    requires ReplayedTo(x, s, replay, i, replayed) && i < |replay.lines| && replay.lines[i] in s.spilled && x.overflow
    ensures
      var row := x.source(replay.lines[i]).(stream := Unspecified);
      if Fits(x, Replayed(In(x), s, replayed).buffer, row) && replay.commits(|replayed|)
      then ReplayedTo(x, s, replay, i + 1, replayed + [replay.lines[i]])
      else IsReplay(x, s, replay, replayed)
  {
    hide Fits, Replayed;
    WantedSplits(s.spilled, replay.lines, i);
    WantedSplits(s.spilled, replay.lines, i + 1);
    var wanted := Wanted(s.spilled, replay.lines);
    assert wanted[..|replayed|] == replayed;
  }

  // ------------------------------------------------------------------------------ the object

  class StreamingActor {
    const source: nat -> StoredLine
    const batchSize: nat
    const maxBytes: nat
    const shipBatchMaxBytes: nat
    const overflow: bool
    const shipper: Shipper
    /** Durable. */
    var buffer: Disk.Fifo
    var persisted: Option<nat>
    /** In memory. */
    var pendingCheckpoint: Option<nat>
    var inflight: Option<seq<nat>>
    var inflightLines: seq<ShipEntry>
    var blocked: Option<nat>
    var wedgedSince: Option<int>
    var channel: seq<Command>
    var closed: bool
    /** Lines ever handed to the overflow store. */
    var overflowed: set<nat>
    /** The reader at the other end of the channel. */
    var reader: Producer
    /** The protocol state this object is in. */
    ghost var core: State

    ghost function X(): (x: Site)
      ensures x.source == source && x.overflow == overflow && x.batchSize == batchSize && x.maxBytes == maxBytes
      ensures x.shipBatchMaxBytes == shipBatchMaxBytes
    {
      Site(source, batchSize, maxBytes, shipBatchMaxBytes, overflow)
    }

    ghost function W(): (w: World)
      ensures w.overflow == overflow && w.batchSize == batchSize && forall k :: w.blank(k) == IsBlank(source(k).data)
      ensures w == In(X())
    {
      WorldOf(source, batchSize, overflow)
    }

    ghost function Now(): Moment
      reads this
    {
      Moment(core, wedgedSince)
    }

    ghost predicate Valid()
      reads this
    {
      && Mirrors(source, buffer, core) && persisted == core.persisted && pendingCheckpoint == core.pending
      && inflight == core.inflight && blocked == core.blocked && channel == core.channel && closed == core.closed
      && reader == core.producer && overflowed == core.spilled && InFlight(source, inflightLines, core)
    }

    /** A process starting on what an earlier one left: `before` is where that one was. */
    constructor Start(source: nat -> StoredLine, batchSize: nat, maxBytes: nat, shipBatchMaxBytes: nat, overflow: bool,
        shipper: Shipper,
                      buffer: Disk.Fifo, persisted: Option<nat>, overflowed: set<nat>, ghost before: State)
      requires Mirrors(source, buffer, before) && persisted == before.persisted && overflowed == before.spilled
      ensures Valid() && core == Restarted(before) && wedgedSince == None
      ensures X() == Site(source, batchSize, maxBytes, shipBatchMaxBytes, overflow) && this.shipper == shipper
    {
      this.source, this.batchSize, this.maxBytes, this.shipBatchMaxBytes := source, batchSize, maxBytes,
        shipBatchMaxBytes;
      this.overflow, this.shipper, this.buffer, this.persisted := overflow, shipper, buffer, persisted;
      pendingCheckpoint, inflight, inflightLines, blocked, wedgedSince := None, None, [], None, None;
      channel, closed, reader := [], false, Away;
      this.overflowed := overflowed;
      core := Restarted(before);
    }

    lemma {:induction false} Fields()
      requires Valid()
      ensures Mirrors(source, buffer, core) && InFlight(source, inflightLines, core)
      ensures inflight == core.inflight && blocked == core.blocked && channel == core.channel && closed == core.closed
    {
    }

    // ---------------------------------------------------------------- the durable pipeline

    /** Store one line: blank ones are dropped, and a full buffer may spill it. */
    method EnqueueLine(line: nat, commits: bool, spills: bool) returns (ok: bool)
      requires Valid() && blocked.None?
      modifies this`buffer, this`overflowed, this`core
      ensures Valid()
      ensures
        var t := Stored(W(), old(core), line, RoomFor(X(), old(core), line, commits, spills));
        core == t.(blocked := None) && ok == t.blocked.None?
      ensures
        var row := source(line);
        var fits := Disk.QueueBytes(old(buffer).entries) + Disk.StoredBytes(row) <= maxBytes;
        if IsBlank(row.data) then ok && buffer == old(buffer) && overflowed == old(overflowed)
        else if |row.data| < U32_LIMIT && fits && commits then
          ok && buffer == Disk.Enqueued(old(buffer), [row]) && overflowed == old(overflowed)
        else
          && buffer == old(buffer) && (ok <==> |row.data| < U32_LIMIT && !fits && overflow && spills)
          && overflowed == old(overflowed) + if ok then {line} else {}
    {
      hide Mirrors, Disk.Enqueued, IsBlank, InFlight, RoomFor, Disk.QueueBytes, Disk.StoredBytes, Disk.TryEnqueue,
        RowOf;
      if IsBlank(source(line).data) {
        return true;
      }
      ghost var s := core;
      var row := source(line);
      RoomIs(X(), buffer, s, line, commits, spills);
      match Disk.TryEnqueue(buffer, [row], maxBytes, commits) {
        case Ok(q) =>
          TakesIn(source, buffer, inflightLines, s, line);
          buffer := q;
          core := Appended(s, line, false);
          ok := true;
        case Err(Full(_, _)) =>
          ok := overflow && spills;
          if ok {
            SameBuffer(source, buffer, s, s.(spilled := s.spilled + {line}));
            StillInFlight(source, inflightLines, s, s.(spilled := s.spilled + {line}));
            overflowed := overflowed + {line};
            core := s.(spilled := s.spilled + {line});
          }
        case Err(_) => ok := false;
      }
    }

    /** Store a line, or hold it back and so gate intake. */
    method StoreOrBlock(line: nat, commits: bool, spills: bool)
      requires Valid() && blocked.None?
      modifies this`buffer, this`overflowed, this`blocked, this`core
      ensures Valid()
      ensures core == Stored(W(), old(core), line, RoomFor(X(), old(core), line, commits, spills))
    {
      hide IsBlank, RoomFor, Disk.QueueBytes, Disk.StoredBytes;
      var ok := EnqueueLine(line, commits, spills);
      if !ok {
        SameBuffer(source, buffer, core, core.(blocked := Some(line)));
        blocked := Some(line);
        core := core.(blocked := Some(line));
      }
    }

    method RetryBlocked(commits: bool, spills: bool)
      requires Valid()
      modifies this`buffer, this`overflowed, this`blocked, this`core
      ensures Valid() && core == Retried(W(), old(core), RetryRoom(X(), old(core), commits, spills))
    {
      if blocked.Some? {
        var line := blocked.value;
        hide Mirrors, Stored, Fits;
        SameBuffer(source, buffer, core, core.(blocked := None));
        blocked := None;
        core := core.(blocked := None);
        StoreOrBlock(line, commits, spills);
      }
    }

    /** Lines come back from overflow one by one; the first that cannot be stored ends the replay. */
    method ReplayOverflow(replay: Replay) returns (ghost replayed: seq<nat>)
      requires Valid()
      modifies this`buffer, this`core
      ensures Valid() && core == Replayed(W(), old(core), replayed) && IsReplay(X(), old(core), replay, replayed)
    {
      hide ReplayedTo, InFlight, Mirrors, Fits, Disk.TryEnqueue, Disk.QueueBytes, Disk.StoredBytes, Returns, Wanted,
        Disk.Enqueued;
      replayed := [];
      if !overflow {
        return;
      }
      ghost var s, x := core, X();
      var n := 0;
      ReplayedNone(x, s, replay);
      for i := 0 to |replay.lines|
        invariant Valid() && core == Replayed(W(), s, replayed) && n == |replayed|
        invariant ReplayedTo(x, s, replay, i, replayed)
        invariant core == s.(buffer := core.buffer, lastSequence := core.lastSequence)
      {
        hide Replayed, IsReplay;
        var line := replay.lines[i];
        if line !in overflowed {
          ReplaySkips(x, s, replay, i, replayed);
          continue;
        }
        var row := source(line).(stream := Unspecified);
        ReplayTurns(x, s, replay, i, replayed);
        FitsAlike(x, buffer, core, row);
        Disk.TriedOne(buffer, row, maxBytes, replay.commits(n));
        var tried := Disk.TryEnqueue(buffer, [row], maxBytes, replay.commits(n));
        if tried.Err? {
          return;
        }
        ReplayOne(W(), s, replayed, line);
        TakesBack(source, buffer, inflightLines, core, line);
        buffer, n := tried.value, n + 1;
        replayed := replayed + [line];
        core := Appended(core, line, true);
      }
      ReplayedAll(x, s, replay, replayed);
    }

    method SaveCheckpointIfPending(saves: bool)
      requires Valid()
      modifies this`pendingCheckpoint, this`persisted, this`core
      ensures Valid() && core == Saved(old(core), saves)
    {
      EmptyTogether(source, buffer, core);
      SameBuffer(source, buffer, core, Saved(core, saves));
      hide Mirrors;
      if pendingCheckpoint.None? || buffer.entries != [] || !saves {
        return;
      }
      persisted := pendingCheckpoint;
      pendingCheckpoint := None;
      core := Saved(core, saves);
    }

    method Housekeep(replay: Replay, saves: bool) returns (ghost idle: Idle)
      requires Valid()
      modifies this`buffer, this`pendingCheckpoint, this`persisted, this`core
      ensures Valid() && core == Idled(W(), old(core), idle) && IsIdle(X(), old(core), replay, saves, idle)
    {
      hide Mirrors, InFlight, Replayed, Saved, IsReplay;
      ghost var replayed := ReplayOverflow(replay);
      SaveCheckpointIfPending(saves);
      idle := Idle(replayed, saves);
    }

    /** Delete what the relay settled; an emptied buffer is idle time. */
    method ApplyDrainOutcome(outcome: Outcome, sequences: seq<nat>, commits: bool, replay: Replay, saves: bool)
      returns (ghost shipped: Shipped, ghost idle: Idle)
      requires Valid() && Handled(outcome) <= |sequences| && inflight.None?
      modifies this`buffer, this`pendingCheckpoint, this`persisted, this`core
      ensures Valid() && core == Applied(W(), old(core), sequences, shipped, idle)
      ensures shipped == Shipped(Handled(outcome), commits)
      ensures Applies(X(), old(core), sequences, Handled(outcome), commits, replay, saves, core)
    {
      shipped, idle := Shipped(Handled(outcome), commits), Idle([], false);
      if Handled(outcome) == 0 || !commits {
        return;
      }
      var named := sequences[..Handled(outcome)];
      DeleteMirrors(source, buffer, core, named);
      EmptyTogether(source, Disk.Deleted(buffer, named), Deleted(core, named));
      hide Mirrors, Keeping, Taking, Disk.Dropping, Idled, IsIdle;
      buffer := Disk.Deleted(buffer, named);
      core := Deleted(core, named);
      if buffer.entries == [] {
        idle := Housekeep(replay, saves);
      }
    }

    // --------------------------------------------------------------- the select branches

    method OnReceive(commits: bool, spills: bool) returns (ghost step: Step)
      requires Valid() && core.phase.Running? && blocked.None? && channel != []
      modifies this`buffer, this`overflowed, this`blocked, this`channel, this`pendingCheckpoint, this`reader, this`core
      ensures Valid() && Enabled(W(), old(core), step) && core == Next(W(), old(core), step) && core.phase.Running?
      ensures core == Received(X(), old(core), commits, spills)
    {
      KeepsRunning(W(), core);
      step := Receive(CommandRoom(X(), core, commits, spills));
      hide Mirrors, AfterReceive, CommandRoom;
      var ok := HandleCommand(commits, spills);
    }

    /** The ship in flight completes, whatever the relay answered to it. */
    method OnShipDone(relay: nat -> Reply, commits: bool, replay: Replay, saves: bool, retryCommits: bool,
        spills: bool) returns (ghost step: Step)
      requires Valid() && core.phase.Running? && inflight.Some?
      modifies this`buffer, this`overflowed, this`blocked, this`inflight, this`pendingCheckpoint, this`persisted,
        this`core, if shipper.counters == null then {} else {shipper.counters}
      ensures Valid() && Enabled(W(), old(core), step) && core == Next(W(), old(core), step) && core.phase.Running?
      ensures Completes(X(), old(core), ShipCompletes(replay, relay, commits, saves, retryCommits, spills), core)
    {
      hide *;
      KeepsRunning(W(), core);
      Fields();
      ghost var s := core;
      ghost var shipped, idle := LandShip(relay, commits, replay, saves);
      ghost var a := core;
      RetryBlocked(retryCommits, spills);
      ghost var room := RetryRoom(X(), a, retryCommits, spills);
      ShipIs(W(), s, shipped, idle, room);
      step := ShipDone(shipped, idle, room);
      CompletesWith(X(), s, ShipCompletes(replay, relay, commits, saves, retryCommits, spills), a, core);
    }

    /** The relay has answered; what it settled of the ship in flight is applied. */
    method LandShip(relay: nat -> Reply, commits: bool, replay: Replay, saves: bool)
      returns (ghost shipped: Shipped, ghost idle: Idle)
      requires Valid() && inflight.Some?
      modifies this`buffer, this`inflight, this`pendingCheckpoint, this`persisted, this`core,
        if shipper.counters == null then {} else {shipper.counters}
      ensures Valid() && inflight.None? && old(core).inflight == old(inflight)
      ensures core == Applied(W(), old(core).(inflight := None), old(inflight).value, shipped, idle)
      ensures Ships(X(), old(core).(inflight := None), |old(inflight).value|, relay, commits, replay, saves, core)
    {
      hide *;
      var sequences := inflight.value;
      ClearInflight();
      ghost var s := core;
      var outcome, take, attempts := shipper.ShipCappedWithShrink(inflightLines, shipBatchMaxBytes, relay);
      ShipsSo(inflightLines, shipBatchMaxBytes, relay, take, attempts, outcome);
      shipped, idle := ApplyDrainOutcome(outcome, sequences, commits, replay, saves);
      ShipsWith(X(), s, |sequences|, relay, outcome, commits, replay, saves, core);
    }

    method ClearInflight()
      requires Valid()
      modifies this`inflight, this`core
      ensures Valid() && inflight.None? && core == old(core).(inflight := None) && old(core).inflight == old(inflight)
      ensures old(inflight).Some? ==>
        var n := |old(inflight).value|;
        && 1 <= n <= |core.buffer| && old(inflight).value == SequencesOf(core.buffer[..n])
        && inflightLines == Shown(source, core.buffer[..n])
    {
      SameBuffer(source, buffer, core, core.(inflight := None));
      hide Mirrors;
      inflight := None;
      core := core.(inflight := None);
    }

    method EnterPhase(ghost phase: Phase)
      requires Valid()
      modifies this`core
      ensures Valid() && core == old(core).(phase := phase)
    {
      SameBuffer(source, buffer, core, core.(phase := phase));
      hide Mirrors;
      core := core.(phase := phase);
    }

    /** Start shipping the oldest entries unless a ship is in flight; an empty peek is idle time. */
    method PrepareDrain(replay: Replay, saves: bool) returns (ghost idle: Idle)
      requires Valid()
      modifies this`buffer, this`inflight, this`inflightLines, this`pendingCheckpoint, this`persisted, this`core
      ensures Valid() && core == Prepared(W(), old(core), true, idle)
      ensures Prepares(X(), old(core), replay, saves, core)
    {
      idle := Idle([], false);
      if inflight.Some? {
        return;
      }
      var n := Min(batchSize, |buffer.entries|);
      PeekMirrors(source, buffer, core, n);
      hide Mirrors, Idled, IsIdle;
      if n == 0 {
        idle := Housekeep(replay, saves);
      } else {
        inflight := Some(Disk.Sequences(buffer.entries[..n]));
        inflightLines := ToShip(buffer.entries[..n]);
        SameBuffer(source, buffer, core, core.(inflight := inflight));
        core := core.(inflight := inflight);
      }
    }

    /** Retry the held-back line, start a ship, and watch for a wedged shutdown; `forced` ends the loop. */
    method OnTick(now: int, commits: bool, spills: bool, replay: Replay, saves: bool)
        returns (forced: bool, ghost step: Step)
      requires Valid() && core.phase.Running?
      modifies this`buffer, this`overflowed, this`blocked, this`inflight, this`inflightLines, this`pendingCheckpoint,
        this`persisted, this`wedgedSince, this`core
      ensures Valid() && Enabled(W(), old(core), step) && core == Next(W(), old(core), step)
      ensures Ticks(X(), old(Now()), TickFires(replay, now, commits, spills, saves), Now())
      ensures if forced then core.phase.Settling? else core.phase.Running?
      ensures
        var overdue := old(wedgedSince).Some? && now - old(wedgedSince).value >= WEDGED_SHUTDOWN_GRACE;
        forced <==> blocked.Some? && closed && overdue
      ensures !forced ==> wedgedSince == if blocked.Some?
        && closed then (if old(wedgedSince).Some? then old(wedgedSince) else Some(now)) else None
    {
      hide Mirrors, InFlight, Retried, Prepared, Prepares, RetryRoom;
      ghost var s, x := core, X();
      ghost var room := RetryRoom(x, s, commits, spills);
      RetryBlocked(commits, spills);
      ghost var idle := PrepareDrain(replay, saves);
      ghost var p := core;
      PhaseKept(W(), s, room, idle);
      forced := false;
      if blocked.Some? && closed {
        if wedgedSince.None? {
          wedgedSince := Some(now);
        }
        forced := now - wedgedSince.value >= WEDGED_SHUTDOWN_GRACE;
      } else {
        wedgedSince := None;
      }
      step := Tick(room, true, idle, forced);
      if forced {
        EnterPhase(Settling);
      }
      assert Now() == Watched(p, old(wedgedSince), now);
    }

    // ----------------------------------------------------------------------- shutdown

    /** Settle or abandon the ship in flight, retry the held-back line, and work off the channel if it got in. */
    method SettleAll(e: Ending) returns (ghost landed: State, ghost step: Step)
      requires Valid() && core.phase.Settling?
      modifies this, if shipper.counters == null then {} else {shipper.counters}
      ensures step.Settle? && Valid() && Enabled(W(), old(core), step) && core == Next(W(), old(core), step)
      ensures Lands(X(), e, old(core), landed) && core == TriedAgain(X(), e, landed) && inflight.None?
    {
      hide Valid, Retried, Remaining, Landed, Lands, RetryRoom, WorkedOff, AfterSettle, Rooms;
      ghost var s, x := core, X();
      ghost var finished, idle := SettleInflight(e);
      landed := core;
      ghost var room := RetryRoom(x, landed, e.stores(0), e.spills(0));
      RetryBlocked(e.stores(0), e.spills(0));
      ghost var rooms := [];
      Fields();
      if blocked.None? {
        rooms := Rooms(x, e, 1, core);
        WorkedOffRemains(x, e, 1, core);
        DrainRemainingCommands(e);
      }
      SettledIs(W(), s, finished, idle, room, rooms);
      EnterPhase(Draining);
      step := Settle(finished, idle, room, rooms);
    }

    method SettleInflight(e: Ending) returns (ghost finished: Option<Shipped>, ghost idle: Idle)
      requires Valid()
      modifies this`buffer, this`inflight, this`pendingCheckpoint, this`persisted, this`core,
        if shipper.counters == null then {} else {shipper.counters}
      ensures Valid() && core == Landed(W(), old(core), finished, idle) && Lands(X(), e, old(core), core)
      ensures inflight.None?
    {
      hide Valid, Applied, Ships;
      finished, idle := None, Idle([], false);
      if inflight.Some? && e.finishes {
        ghost var shipped;
        shipped, idle := LandShip(e.relays(0), e.commits(0), e.replay, e.saves);
        finished := Some(shipped);
      } else {
        ClearInflight();
      }
    }

    /** Commands left in the channel, up to the first line there is no room for. */
    method DrainRemainingCommands(e: Ending)
      requires Valid() && blocked.None?
      modifies this`buffer, this`overflowed, this`blocked, this`channel, this`pendingCheckpoint, this`reader, this`core
      ensures Valid() && core == WorkedOff(X(), e, 1, old(core))
    {
      var i := 1;
      hide Mirrors, InFlight, AfterReceive, CommandRoom;
      while channel != []
        invariant Valid() && blocked.None? && WorkedOff(X(), e, i, core) == WorkedOff(X(), e, 1, old(core))
        decreases |channel|
      {
        ghost var before := core;
        var ok := HandleCommand(e.stores(i), e.spills(i));
        if !ok {
          GiveUp(before);
          return;
        }
        i := i + 1;
      }
    }

    /** The line there is no room for, and every command after it, are dropped. */
    method GiveUp(ghost before: State)
      requires Valid()
      modifies this`blocked, this`channel, this`core
      ensures Valid() && core == old(core).(blocked := None, channel := [],
        lost := before.lost + Queued(W(), before.channel))
    {
      ghost var t := core.(blocked := None, channel := [], lost := before.lost + Queued(W(), before.channel));
      SameBuffer(source, buffer, core, t);
      blocked, channel := None, [];
      core := t;
    }

    method HandleCommand(commits: bool, spills: bool) returns (ok: bool)
      requires Valid() && blocked.None? && channel != []
      modifies this`buffer, this`overflowed, this`blocked, this`channel, this`pendingCheckpoint, this`reader, this`core
      ensures Valid() && core == AfterReceive(W(), old(core), CommandRoom(X(), old(core), commits, spills))
      ensures ok == blocked.None? && |channel| == |old(channel)| - 1
    {
      var command := channel[0];
      SameBuffer(source, buffer, core, core.(channel := channel[1..]));
      channel := channel[1..];
      core := core.(channel := channel);
      hide Mirrors, Stored, IsBlank, Fits;
      match command {
        case Enqueue(line) =>
          StoreOrBlock(line, commits, spills);
        case SetCheckpoint(upto) =>
          SameBuffer(source, buffer, core, core.(pending := Some(upto)));
          pendingCheckpoint := Some(upto);
          core := core.(pending := Some(upto));
        case GetCheckpoint =>
          SameBuffer(source, buffer, core, Resumed(core));
          if reader.Waiting? {
            reader := Reading(if pendingCheckpoint.Some? then pendingCheckpoint.value
              else if persisted.Some? then persisted.value else 0, {});
          }
          core := Resumed(core);
      }
      ok := blocked.None?;
    }

    /** One inline drain of the shutdown. */
    method DrainCycle(e: Ending, i: nat) returns (ghost step: Step)
      requires Valid() && core.phase.Draining? && !IsEmpty() && inflight.None?
      modifies this`buffer, this`pendingCheckpoint, this`persisted, this`core,
        if shipper.counters == null then {} else {shipper.counters}
      ensures step.DrainMore? && Valid() && Enabled(W(), old(core), step) && core == Next(W(), old(core), step)
      ensures Drains(X(), e, i, old(core), core)
    {
      hide *;
      EmptyIsEmpty();
      Fields();
      var n := if batchSize <= |buffer.entries| then batchSize else |buffer.entries|;
      PeekMirrors(source, buffer, core, n);
      ghost var s, x := core, X();
      if n == 0 {
        ghost var before := Housekeep(e.replay, e.saves);
        step := DrainMore(Shipped(0, false), before, Idle([], false));
        DrainsIdly(x, e, i, s, before, core);
      } else {
        var shown := ToShip(buffer.entries[..n]);
        var outcome, take, attempts := shipper.ShipCappedWithShrink(shown, shipBatchMaxBytes, e.relays(i + 1));
        ShipsSo(shown, shipBatchMaxBytes, e.relays(i + 1), take, attempts, outcome);
        ghost var shipped, after := ApplyDrainOutcome(outcome, Disk.Sequences(buffer.entries[..n]), e.commits(i + 1),
          e.replay, e.saves);
        step := DrainMore(shipped, Idle([], false), after);
        ShipsWith(x, s, n, e.relays(i + 1), outcome, e.commits(i + 1), e.replay, e.saves, core);
        DrainsShipping(x, e, i, s, shipped, after, core);
      }
    }

    method FinishUp(saves: bool) returns (ghost step: Step)
      requires Valid() && core.phase.Draining?
      modifies this`pendingCheckpoint, this`persisted, this`core
      ensures Valid() && Enabled(W(), old(core), step) && core == Next(W(), old(core), step)
      ensures core == Saved(old(core), saves).(phase := Done)
    {
      hide Valid, Saved;
      SaveCheckpointIfPending(saves);
      EnterPhase(Done);
      step := Finish(saves);
    }

    // ------------------------------------------------------------------- a whole life

    /** The reader sends a line, a checkpoint covering only lines it has sent, or a question; or drops its handle. */
    method OnReader(act: ReaderAct) returns (ghost step: Option<Step>)
      requires Valid() && core.phase.Running?
      modifies this`channel, this`reader, this`closed, this`core
      ensures Valid() && Took(W(), old(core), step, core) && core.phase.Running?
      ensures step == ActAnswer(old(core), act)
    {
      hide Mirrors, InFlight;
      step := None;
      if closed || (!act.DropHandle? && |channel| >= STREAM_CHANNEL_CAPACITY) {
        return;
      }
      match act {
        case Line(line) =>
          if !reader.Reading? {
            return;
          }
          step := Some(SendLine(line));
          channel := channel + [Enqueue(line)];
          reader := reader.(sent := reader.sent + {line});
        case Checkpoint(upto) =>
          if !reader.Reading? || !HasSent(reader, upto) {
            return;
          }
          step := Some(SendCheckpoint(upto));
          channel := channel + [SetCheckpoint(upto)];
        case Ask =>
          if reader.Waiting? {
            return;
          }
          step := Some(AskCheckpoint);
          channel := channel + [GetCheckpoint];
          reader := Waiting;
        case DropHandle =>
          step := Some(Close);
          closed, reader := true, Away;
      }
      SameBuffer(source, buffer, core, Next(W(), core, step.value));
      StillInFlight(source, inflightLines, core, Next(W(), core, step.value));
      core := Next(W(), core, step.value);
    }

    /** One turn of the select loop; `over` when the loop ends. */
    method OnEvent(event: Event) returns (over: bool, ghost step: Option<Step>)
      requires Valid() && core.phase.Running?
      modifies this, if shipper.counters == null then {} else {shipper.counters}
      ensures Valid() && Took(W(), old(core), step, core)
      ensures if over then core.phase.Settling? else core.phase.Running?
      ensures Leads(X(), old(Now()), event, Now())
    {
      over, step := false, None;
      hide Mirrors, InFlight, AfterReceive, AfterShip, AfterTick, Completes, Ticks, ActAnswer, CommandRoom;
      match event {
        case ReaderActs(act) =>
          step := OnReader(act);
        case CommandReady(commits, spills) =>
          if blocked.None? && channel != [] {
            ghost var s := OnReceive(commits, spills);
            step := Some(s);
          } else if blocked.None? && closed {
            EnterPhase(Settling);
            over, step := true, Some(SeeClosed);
          }
        case ShipCompletes(replay, relay, commits, saves, retryCommits, spills) =>
          if inflight.Some? {
            ghost var s := OnShipDone(relay, commits, replay, saves, retryCommits, spills);
            step := Some(s);
          } else {
            NothingCompletes(X(), core, event);
          }
        case TickFires(replay, now, commits, spills, saves) =>
          ghost var s;
          over, s := OnTick(now, commits, spills, replay, saves);
          step := Some(s);
      }
    }

    /** The select loop over any schedule of events, then the shutdown; either may be cut short by a crash. */
    method Run(life: Life, ghost trace0: seq<State>, ghost steps0: seq<Step>)
        returns (ghost trace: seq<State>, ghost steps: seq<Step>)
      requires Valid() && core.phase.Running? && Reaches(W(), trace0, steps0, core)
      modifies this, if shipper.counters == null then {} else {shipper.counters}
      ensures Valid() && Reaches(W(), trace, steps, core)
      ensures RunsToEnd(X(), old(Now()), life, core)
    {
      trace, steps := trace0, steps0;
      var events := life.events;
      assert events[..0] == [];
      var over, i := false, 0;
      hide Valid, Reaches, Took, Leads, ShutsDown;
      while !over && i < |events|
        invariant i <= |events| && Valid() && Reaches(W(), trace, steps, core)
        invariant if over then core.phase.Settling? else core.phase.Running?
        invariant Runs(X(), old(Now()), events[..i], Now())
        decreases |events| - i
      {
        hide Runs;
        ghost var m, step := Now(), None;
        over, step := OnEvent(events[i]);
        RunsGrow(X(), old(Now()), events, i, m, Now());
        trace, steps := Reached(W(), trace, steps, m.state, step, core);
        i := i + 1;
      }
      RunsStop(X(), old(Now()), events, i, Now());
      ghost var m := Now();
      if over && life.ending.shutsDown {
        trace, steps := ShutDown(life.ending, trace, steps);
      }
      assert Runs(X(), old(Now()), life.events, m);
    }

    /** After the loop: settle, drain for at most as many rounds as the deadline allows, save, stop. */
    method ShutDown(e: Ending, ghost trace0: seq<State>, ghost steps0: seq<Step>)
        returns (ghost trace: seq<State>, ghost steps: seq<Step>)
      requires Valid() && core.phase.Settling? && Reaches(W(), trace0, steps0, core)
      modifies this, if shipper.counters == null then {} else {shipper.counters}
      ensures Valid() && Reaches(W(), trace, steps, core)
      ensures ShutsDown(X(), e, old(core), core)
    {
      hide Valid, Reaches, AfterSettle, AfterDrainMore, Lands, DrainsOut, TriedAgain, Saved, Drains;
      ghost var s, step, landed := core, SeeClosed, core;
      SettleDrains(W(), s);
      landed, step := SettleAll(e);
      trace, steps := Reached(W(), trace0, steps0, s, Some(step), core);
      ghost var b := core;
      trace, steps := DrainOut(e, trace, steps);
      s := core;
      step := FinishUp(e.saves);
      trace, steps := Reached(W(), trace, steps, s, Some(step), core);
    }

    method DrainOut(e: Ending, ghost trace0: seq<State>, ghost steps0: seq<Step>)
        returns (ghost trace: seq<State>, ghost steps: seq<Step>)
      requires Valid() && core.phase.Draining? && inflight.None? && Reaches(W(), trace0, steps0, core)
      modifies this`buffer, this`pendingCheckpoint, this`persisted, this`core,
        if shipper.counters == null then {} else {shipper.counters}
      ensures Valid() && core.phase.Draining? && Reaches(W(), trace, steps, core)
      ensures DrainsOut(X(), e, 0, old(core), core)
    {
      hide *;
      trace, steps := trace0, steps0;
      var i := 0;
      while i < e.rounds && buffer.entries != []
        invariant i <= e.rounds && Valid() && core.phase.Draining? && Reaches(W(), trace, steps, core)
        invariant forall t :: DrainsOut(X(), e, i, core, t) ==> DrainsOut(X(), e, 0, old(core), t)
      {
        ghost var s := core;
        EmptyIsEmpty();
        DrainDrains(W(), s);
        ghost var step := DrainCycle(e, i);
        DrainsOn(X(), e, i, s, core);
        TookOne(W(), s, step, core);
        trace, steps := Reached(W(), trace, steps, s, Some(step), core);
        i := i + 1;
      }
      EmptyIsEmpty();
      DrainsNoMore(X(), e, i, core);
    }

    lemma {:induction false} EmptyIsEmpty()
      requires Valid()
      ensures IsEmpty() <==> core.buffer == []
      ensures IsEmpty() <==> buffer.entries == []
    {
      EmptyTogether(source, buffer, core);
    }

    predicate IsEmpty()
      reads this
    {
      buffer.entries == []
    }
  }

  ghost predicate Reaches(w: World, trace: seq<State>, steps: seq<Step>, s: State) {
    IsRun(w, trace, steps) && trace[|steps|] == s
  }

  lemma {:induction false} Reached(w: World, trace0: seq<State>, steps0: seq<Step>, s: State, step: Option<Step>,
      t: State)
    returns (trace: seq<State>, steps: seq<Step>)
    requires Reaches(w, trace0, steps0, s) && Took(w, s, step, t)
    ensures Reaches(w, trace, steps, t)
  {
    if step.None? {
      trace, steps := trace0, steps0;
    } else {
      ExtendRun(w, trace0, steps0, step.value);
      trace, steps := trace0 + [t], steps0 + [step.value];
    }
    hide Next, Enabled;
  }

  lemma {:induction false} TookOne(w: World, s: State, step: Step, t: State)
    requires Enabled(w, s, step) && t == Next(w, s, step)
    ensures Took(w, s, Some(step), t)
  {
  }

  lemma {:induction false} Crashes(w: World, s: State)
    ensures Took(w, s, Some(Crash), Restarted(s))
  {
  }

  lemma {:induction false} CoversNoLostLine(w: World, trace: seq<State>, steps: seq<Step>, s: State, k: nat)
    requires Reaches(w, trace, steps, s) && s.persisted.Some? && k < s.persisted.value
    ensures Gone(w, s, k)
  {
    CheckpointsCoverNoLostLine(w, trace, steps, |steps|, k);
  }

  lemma {:induction false} SettleDrains(w: World, s: State)
    requires s.phase.Settling?
    ensures forall step :: Enabled(w, s, step) && step.Settle? ==> Next(w, s, step).phase.Draining?
  {
    hide Applied, Retried, Remaining;
  }

  lemma {:induction false} DrainDrains(w: World, s: State)
    requires s.phase.Draining?
    ensures forall step :: Enabled(w, s, step) && step.DrainMore? ==> Next(w, s, step).phase.Draining?
  {
    forall step | Enabled(w, s, step) && step.DrainMore?
      ensures Next(w, s, step).phase.Draining?
    {
      var n := Min(w.batchSize, |s.buffer|);
      ReplayKeeps(w, s, step.before.replayed);
      if step.shipped.handled <= n {
        ReplayKeeps(w, Deleted(s, SequencesOf(s.buffer[..n])[..step.shipped.handled]), step.after.replayed);
      }
    }
    hide Replayed, Keeping, Taking;
  }

  // ------------------------------------------------------------ one process after another

  /**
   Any number of processes on the same buffer file, each ending in a shutdown or a crash. In the
   end, as at every point between, no line the persisted checkpoint covers can still be lost.
   */
  method Live(source: nat -> StoredLine, batchSize: nat, maxBytes: nat, shipBatchMaxBytes: nat, overflow: bool,
      shipper: Shipper, lives: seq<Life>)
    returns (buffer: Disk.Fifo, persisted: Option<nat>, ghost trace: seq<State>, ghost steps: seq<Step>,
      ghost last: State, ghost w: World)
    modifies if shipper.counters == null then {} else {shipper.counters}
    ensures w == WorldOf(source, batchSize, overflow) && Reaches(w, trace, steps, last)
    ensures Mirrors(source, buffer, last) && persisted == last.persisted && w.overflow == overflow
    ensures forall k :: w.blank(k) == IsBlank(source(k).data)
    ensures persisted.Some? ==> forall k :: 0 <= k < persisted.value ==> Gone(w, last, k)
    ensures LivesOn(Site(source, batchSize, maxBytes, shipBatchMaxBytes, overflow), Fresh, lives, last)
  {
    var overflowed: set<nat> := {};
    ghost var x := Site(source, batchSize, maxBytes, shipBatchMaxBytes, overflow);
    buffer, persisted, last := Disk.Fifo([], 0), None, Fresh;
    trace, steps := [Fresh], [];
    w := WorldOf(source, batchSize, overflow);
    assert lives[..0] == [];
    assert Reaches(w, trace, steps, last);
    hide Mirrors, Reaches, Took, Gone, IsBlank;
    for i := 0 to |lives|
      invariant Reaches(w, trace, steps, last) && Mirrors(source, buffer, last) && persisted == last.persisted
        && overflowed == last.spilled
      invariant LivesOn(x, Fresh, lives[..i], last)
    {
      hide LivesOn, RunsToEnd;
      var actor := new StreamingActor.Start(source, batchSize, maxBytes, shipBatchMaxBytes, overflow, shipper, buffer,
        persisted, overflowed, last);
      Crashes(w, last);
      trace, steps := Reached(w, trace, steps, last, Some(Crash), actor.core);
      trace, steps := actor.Run(lives[i], trace, steps);
      LivesGrow(x, Fresh, lives, i, last, actor.core);
      buffer, persisted, overflowed, last := actor.buffer, actor.persisted, actor.overflowed, actor.core;
    }
    assert lives[..|lives|] == lives;
    forall k | persisted.Some? && 0 <= k < persisted.value
      ensures Gone(w, last, k)
    {
      CoversNoLostLine(w, trace, steps, last, k);
    }
  }

  // --------------------------------------------------------------- the steps are the answers

  lemma {:induction false} ShipsWith(x: Site, s: State, n: nat, relay: nat -> Reply, outcome: Outcome, commits: bool,
      replay: Replay, saves: bool, t: State)
    requires n <= |s.buffer| && Handled(outcome) <= n
    requires ShipsAs(Shown(x.source, s.buffer[..n]), x.shipBatchMaxBytes, relay, outcome)
    requires Applies(x, s, SequencesOf(s.buffer[..n]), Handled(outcome), commits, replay, saves, t)
    ensures Ships(x, s, n, relay, commits, replay, saves, t)
  {
    hide ShipsAs, Applies;
  }

  lemma {:induction false} CompletesWith(x: Site, s: State, e: Event, a: State, t: State)
    requires e.ShipCompletes? && s.inflight.Some?
    requires Ships(x, s.(inflight := None), |s.inflight.value|, e.relay, e.commits, e.replay, e.saves, a)
    requires t == Retried(In(x), a, RetryRoom(x, a, e.retryCommits, e.spills))
    ensures Completes(x, s, e, t)
  {
    hide Ships, Retried, RetryRoom;
  }

  lemma {:induction false} NothingCompletes(x: Site, s: State, e: Event)
    requires e.ShipCompletes? && s.inflight.None?
    ensures Completes(x, s, e, s)
  {
  }

  lemma {:induction false} RunsGrow(x: Site, m: Moment, events: seq<Event>, i: nat, r: Moment, t: Moment)
    requires i < |events| && r.state.phase.Running?
    requires Runs(x, m, events[..i], r) && Leads(x, r, events[i], t)
    ensures Runs(x, m, events[..i + 1], t)
  {
    hide Leads;
    assert events[..i + 1][..i] == events[..i];
  }

  /** Nothing happens after the loop has ended. */
  lemma {:induction false} RunsStop(x: Site, m: Moment, events: seq<Event>, i: nat, t: Moment)
    requires i <= |events| && Runs(x, m, events[..i], t) && (i < |events| ==> !t.state.phase.Running?)
    ensures Runs(x, m, events, t)
    decreases |events| - i
  {
    hide Leads;
    if i < |events| {
      assert events[..i + 1][..i] == events[..i];
      RunsStop(x, m, events, i + 1, t);
    } else {
      assert events[..i] == events;
    }
  }

  lemma {:induction false} DrainsIdly(x: Site, e: Ending, i: nat, s: State, before: Idle, t: State)
    requires s.phase.Draining? && s.buffer != [] && x.batchSize == 0
    requires IsIdle(x, s, e.replay, e.saves, before) && t == Idled(In(x), s, before)
    ensures
      var step := DrainMore(Shipped(0, false), before, Idle([], false));
      Enabled(In(x), s, step) && t == Next(In(x), s, step) && Drains(x, e, i, s, t)
  {
    hide IsIdle, Idled;
  }

  lemma {:induction false} DrainsShipping(x: Site, e: Ending, i: nat, s: State, shipped: Shipped, after: Idle, t: State)
    requires s.phase.Draining? && s.buffer != [] && x.batchSize > 0
    requires
      var n := if x.batchSize <= |s.buffer| then x.batchSize else |s.buffer|;
      && Ships(x, s, n, e.relays(i + 1), e.commits(i + 1), e.replay, e.saves, t)
      && t == Applied(In(x), s, SequencesOf(s.buffer[..n]), shipped, after)
    ensures
      var step := DrainMore(shipped, Idle([], false), after);
      Enabled(In(x), s, step) && t == Next(In(x), s, step) && Drains(x, e, i, s, t)
  {
    hide Ships, Applied, Idled;
  }

  lemma {:induction false} DrainsOn(x: Site, e: Ending, i: nat, s: State, b: State)
    requires i < e.rounds && s.buffer != [] && Drains(x, e, i, s, b)
    ensures forall t :: DrainsOut(x, e, i + 1, b, t) ==> DrainsOut(x, e, i, s, t)
  {
    hide Drains;
  }

  lemma {:induction false} DrainsNoMore(x: Site, e: Ending, i: nat, s: State)
    requires i >= e.rounds || s.buffer == []
    ensures DrainsOut(x, e, i, s, s)
  {
  }

  lemma {:induction false} LivesGrow(x: Site, s: State, lives: seq<Life>, i: nat, r: State, t: State)
    requires i < |lives| && LivesOn(x, s, lives[..i], r) && RunsToEnd(x, Moment(Restarted(r), None), lives[i], t)
    ensures LivesOn(x, s, lives[..i + 1], t)
  {
    hide RunsToEnd;
    assert lives[..i + 1][..i] == lives[..i];
  }

  lemma {:induction false} ShipIs(w: World, s: State, shipped: Shipped, idle: Idle, room: Room)
    requires s.phase.Running? && s.inflight.Some?
    ensures Enabled(w, s, ShipDone(shipped, idle, room))
    ensures Next(w, s, ShipDone(shipped, idle, room)) == AfterShip(w, s, shipped, idle, room)
      == Retried(w, Applied(w, s.(inflight := None), s.inflight.value, shipped, idle), room)
  {
  }

  lemma {:induction false} KeepsRunning(w: World, s: State)
    requires s.phase.Running?
    ensures forall room :: s.channel != [] ==> AfterReceive(w, s, room).phase.Running?
    ensures forall shipped, idle, room :: s.inflight.Some? ==> AfterShip(w, s, shipped, idle, room).phase.Running?
  {
    if s.inflight.Some? {
      forall shipped, idle, room
        ensures AfterShip(w, s, shipped, idle, room).phase.Running?
      {
        var q := s.(inflight := None);
        if shipped.handled <= |s.inflight.value| {
          ReplayKeeps(w, Deleted(q, s.inflight.value[..shipped.handled]), idle.replayed);
        }
      }
    }
  }

  lemma {:induction false} ReplayKeeps(w: World, s: State, lines: seq<nat>)
    ensures
      var t := Replayed(w, s, lines);
      t.blocked == s.blocked && t.closed == s.closed && t.phase == s.phase && t.inflight == s.inflight
    decreases |lines|
  {
    if lines != [] {
      ReplayKeeps(w, s, lines[..|lines| - 1]);
    }
  }

  lemma {:induction false} KeepsBlocked(w: World, s: State)
    ensures
      forall idle ::
        var t := Idled(w, s, idle);
        t.blocked == s.blocked && t.closed == s.closed && t.phase == s.phase
  {
    forall idle: Idle
      ensures Idled(w, s, idle).blocked == s.blocked && Idled(w, s, idle).closed == s.closed
        && Idled(w, s, idle).phase == s.phase
    {
      ReplayKeeps(w, s, idle.replayed);
    }
  }

  lemma {:induction false} PhaseKept(w: World, s: State, room: Room, idle: Idle)
    ensures
      var t := Prepared(w, Retried(w, s, room), true, idle);
      t.phase == s.phase && t.closed == s.closed
  {
    KeepsBlocked(w, Retried(w, s, room));
    hide Idled;
  }

  /** The ship in flight has been applied or abandoned. */
  function Landed(w: World, s: State, finished: Option<Shipped>, idle: Idle): State {
    if s.inflight.Some? && finished.Some? then Applied(w, s.(inflight := None), s.inflight.value, finished.value, idle)
    else s.(inflight := None)
  }

  lemma {:induction false} SettledIs(w: World, s: State, finished: Option<Shipped>, idle: Idle, room: Room,
      rooms: seq<Room>)
    ensures
      var r := Retried(w, Landed(w, s, finished, idle), room);
      AfterSettle(w, s, finished, idle, room, rooms)
        == (if r.blocked.None? then Remaining(w, r, rooms) else r).(phase := Draining)
  {
    hide Applied, Retried, Remaining;
  }

  /** What the channel's lines were told, one command after another. */
  ghost function Rooms(x: Site, e: Ending, i: nat, s: State): seq<Room>
    decreases |s.channel|
  {
    if s.channel == [] then []
    else
      var room := CommandRoom(x, s, e.stores(i), e.spills(i));
      var t := AfterReceive(In(x), s, room);
      [room] + if t.blocked.Some? then [] else Rooms(x, e, i + 1, t)
  }

  lemma {:induction false} WorkedOffRemains(x: Site, e: Ending, i: nat, s: State)
    requires s.blocked.None?
    ensures WorkedOff(x, e, i, s) == Remaining(In(x), s, Rooms(x, e, i, s))
    decreases |s.channel|
  {
    if s.channel != [] {
      var room := CommandRoom(x, s, e.stores(i), e.spills(i));
      var t := AfterReceive(In(x), s, room);
      var rooms := Rooms(x, e, i, s);
      assert rooms[0] == room;
      if t.blocked.None? {
        WorkedOffRemains(x, e, i + 1, t);
        assert rooms[1..] == Rooms(x, e, i + 1, t);
      }
    }
  }
}
