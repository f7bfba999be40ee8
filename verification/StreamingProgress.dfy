/**
 An orderly end of the streaming actor leaves nothing behind. When the lines still on their way fit
 into the buffer, nothing comes back from overflow, and the relay settles something in every round,
 the buffer and the channel end up empty, nothing is given up, and the newest checkpoint is persisted.
 */
module StreamingProgress {
  import opened Common
  import opened EntryCodec
  import Disk = DiskBuffers
  import opened Shipping
  import opened StreamingProtocol
  import opened StreamingSafety
  import opened StreamingOrder
  import opened StreamingTicks

  // -------------------------------------------------------------------- the newest checkpoint

  /** The checkpoint to resume from once the commands have been handled. */
  ghost function Newest(s: State, commands: seq<Command>): Option<nat> {
    if commands == [] then if s.pending.Some? then s.pending else s.persisted
    else
      var last := commands[|commands| - 1];
      if last.SetCheckpoint? then Some(last.upto) else Newest(s, commands[..|commands| - 1])
  }

  lemma {:induction false} NewestAfter(s: State, t: State, commands: seq<Command>)
    requires commands != [] && Newest(t, []) == Newest(s, commands[..1])
    ensures Newest(t, commands[1..]) == Newest(s, commands)
    decreases |commands|
  {
    if |commands| > 1 {
      var n := |commands| - 1;
      assert commands[1..][..n - 1] == commands[..n][1..] && commands[..n][..1] == commands[..1];
      NewestAfter(s, t, commands[..n]);
    } else {
      assert commands[..1] == commands;
    }
  }

  lemma {:induction false} NewestAlike(s: State, t: State, commands: seq<Command>)
    requires Newest(t, []) == Newest(s, [])
    ensures Newest(t, commands) == Newest(s, commands)
  {
    if commands != [] {
      NewestAlike(s, t, commands[..|commands| - 1]);
    }
  }

  // ------------------------------------------------------------------------------- room enough

  ghost function LinesBytes(x: Site, lines: seq<nat>): nat {
    if lines == [] then 0 else Disk.StoredBytes(x.source(lines[0])) + LinesBytes(x, lines[1..])
  }

  /** The lines fit into the buffer next to what is in it, and none is too long. */
  ghost predicate Ample(x: Site, buffer: seq<StreamEntry>, lines: seq<nat>) {
    && BufferBytes(x, buffer) + LinesBytes(x, lines) <= x.maxBytes
    && forall i :: 0 <= i < |lines| ==> |x.source(lines[i]).data| < U32_LIMIT
  }

  lemma {:induction false} AmpleTakes(x: Site, s: State, line: nat, rest: seq<nat>, spills: bool)
    requires Ample(x, s.buffer, [line] + rest)
    ensures RoomFor(x, s, line, true, spills) == Taken && Ample(x, Appended(s, line, false).buffer, rest)
  {
    hide Disk.StoredBytes;
    var lines := [line] + rest;
    assert lines[1..] == rest && lines[0] == line;
    var t := Appended(s, line, false);
    assert t.buffer[..|s.buffer|] == s.buffer;
    assert forall i :: 0 <= i < |rest| ==> rest[i] == lines[i + 1];
  }

  /** What is left of the buffer when its oldest entries go weighs no more. */
  lemma {:induction false} SuffixWeighsLess(x: Site, buffer: seq<StreamEntry>, h: nat)
    requires h <= |buffer|
    ensures BufferBytes(x, buffer[h..]) <= BufferBytes(x, buffer)
  {
    if h < |buffer| {
      var n := |buffer| - 1;
      SuffixWeighsLess(x, buffer[..n], h);
      assert buffer[h..][..n - h] == buffer[..n][h..];
    }
  }

  lemma {:induction false} AmpleSuffix(x: Site, buffer: seq<StreamEntry>, h: nat, lines: seq<nat>)
    requires h <= |buffer| && Ample(x, buffer, lines)
    ensures Ample(x, buffer[h..], lines)
  {
    SuffixWeighsLess(x, buffer, h);
  }

  // ---------------------------------------------------------------------------------- a ship

  /** Nothing comes back from overflow. */
  ghost predicate NothingReturns(x: Site, e: Ending) {
    !x.overflow || e.replay.lines == []
  }

  lemma {:induction false} IdlesBySaving(x: Site, e: Ending, s: State, t: State)
    requires NothingReturns(x, e) && Idles(x, s, e.replay, e.saves, t)
    ensures t == Saved(s, e.saves)
  {
    var idle :| IsIdle(x, s, e.replay, e.saves, idle) && t == Idled(In(x), s, idle);
    assert idle.replayed == [];
    hide Saved;
  }

  /** The two states differ in the oldest `h` entries and in whether the pending checkpoint is persisted. */
  ghost predicate Lightened(s: State, h: nat, t: State) {
    && h <= |s.buffer| && t.buffer == s.buffer[h..] && t.lastSequence == s.lastSequence && t.inflight == s.inflight
    && t.blocked == s.blocked && t.channel == s.channel && t.lost == s.lost && t.spilled == s.spilled
    && t.phase == s.phase && Newest(t, []) == Newest(s, [])
  }

  lemma {:induction false} DeletesThePrefix(s: State, n: nat, h: nat)
    requires InSequence(s.buffer, s.lastSequence) && h <= n <= |s.buffer|
    ensures Lightened(s, h, Deleted(s, SequencesOf(s.buffer[..n])[..h]))
  {
    KeepingPrefix(s.buffer, s.lastSequence, h, |s.buffer|);
    assert s.buffer[..|s.buffer|] == s.buffer;
    assert SequencesOf(s.buffer[..n])[..h] == SequencesOf(s.buffer)[..h];
    hide Keeping, Taking;
  }

  lemma {:induction false} ShipLightens(x: Site, e: Ending, s: State, n: nat, relay: nat -> Reply, commits: bool,
      t: State) returns (h: nat)
    requires InSequence(s.buffer, s.lastSequence) && NothingReturns(x, e)
    requires Ships(x, s, n, relay, commits, e.replay, e.saves, t)
    ensures Lightened(s, h, t) && |t.buffer| == |s.buffer| - h
    ensures commits && Obliges(x, relay, s, n) ==> h > 0
  {
    hide Deleted, Idles, ShipsAs;
    var outcome :|
      && ShipsAs(Shown(x.source, s.buffer[..n]), x.shipBatchMaxBytes, relay, outcome) && Handled(outcome) <= n
      && Applies(x, s, SequencesOf(s.buffer[..n]), Handled(outcome), commits, e.replay, e.saves, t);
    h := if commits then Handled(outcome) else 0;
    if h > 0 {
      DeletesThePrefix(s, n, h);
      var d := Deleted(s, SequencesOf(s.buffer[..n])[..h]);
      if d.buffer == [] {
        IdlesBySaving(x, e, d, t);
      }
    }
  }

  /** The relay settles something of the oldest `n` entries. */
  ghost predicate Obliges(x: Site, relay: nat -> Reply, s: State, n: nat)
    requires n <= |s.buffer|
  {
    forall outcome :: ShipsAs(Shown(x.source, s.buffer[..n]), x.shipBatchMaxBytes, relay, outcome) ==>
      Handled(outcome) > 0
  }

  lemma {:induction false} SuffixInSequence(s: State, h: nat, t: State)
    requires InSequence(s.buffer, s.lastSequence) && Lightened(s, h, t)
    ensures InSequence(t.buffer, t.lastSequence)
  {
  }

  lemma {:induction false} LightenedByNone(s: State)
    ensures Lightened(s, 0, s)
  {
  }

  lemma {:induction false} LightenedTwice(s: State, h: nat, b: State, k: nat, t: State)
    requires Lightened(s, h, b) && Lightened(b, k, t)
    ensures Lightened(s, h + k, t)
  {
    assert s.buffer[h..][k..] == s.buffer[h + k..];
  }

  // ------------------------------------------------------------------------- the channel

  /** Some of the lines have been stored, `rest` still fits, and nothing was given up on the way. */
  ghost predicate Stores(x: Site, s: State, lines: seq<nat>, t: State, rest: seq<nat>) {
    && t.blocked.None? && t.lost == s.lost && t.spilled == s.spilled && t.inflight == s.inflight
    && InSequence(t.buffer, t.lastSequence) && Ample(x, t.buffer, rest)
    && |t.buffer| + |rest| <= |s.buffer| + |lines|
  }

  lemma {:induction false} StoresOne(x: Site, s: State, line: nat, rest: seq<nat>, spills: bool)
    requires s.blocked.None? && InSequence(s.buffer, s.lastSequence) && Ample(x, s.buffer, [line] + rest)
    ensures
      var t := Stored(In(x), s, line, RoomFor(x, s, line, true, spills));
      && Stores(x, s, [line] + rest, t, rest) && t.channel == s.channel && t.pending == s.pending
      && t.persisted == s.persisted
  {
    AmpleTakes(x, s, line, rest, spills);
    AmpleWithout(x, s.buffer, line, rest);
    AppendGrows(s, line, false);
    hide IsBlank, InSequence, Ample, RoomFor;
  }

  lemma {:induction false} HandlesOne(x: Site, s: State, spills: bool)
    requires s.channel != [] && s.blocked.None? && InSequence(s.buffer, s.lastSequence)
    requires Ample(x, s.buffer, Queued(In(x), s.channel))
    ensures
      var t := AfterReceive(In(x), s, CommandRoom(x, s, true, spills));
      && t.channel == s.channel[1..] && Stores(x, s, Queued(In(x), s.channel), t, Queued(In(x), t.channel))
      && Newest(t, []) == Newest(s, s.channel[..1])
  {
    hide Queued, InSequence, Ample, RoomFor, Stored, IsBlank;
    var first, popped := s.channel[0], s.(channel := s.channel[1..]);
    var rest := Queued(In(x), popped.channel);
    QueuedHead(In(x), s.channel);
    assert s.channel[..1][..0] == [] && [] + rest == rest;
    if first.Enqueue? {
      assert RoomFor(x, s, first.line, true, spills) == RoomFor(x, popped, first.line, true, spills) by {
        RoomAlike(x, s, popped, first.line, spills);
      }
      if In(x).blank(first.line) {
        BlankStays(In(x), popped, first.line, CommandRoom(x, s, true, spills));
      } else {
        StoresOne(x, popped, first.line, rest, spills);
      }
    }
  }

  lemma {:induction false} BlankStays(w: World, s: State, line: nat, room: Room)
    requires w.blank(line)
    ensures Stored(w, s, line, room) == s
  {
  }

  lemma {:induction false} RoomAlike(x: Site, s: State, t: State, line: nat, spills: bool)
    requires t.buffer == s.buffer
    ensures RoomFor(x, t, line, true, spills) == RoomFor(x, s, line, true, spills)
  {
  }

  /** The channel is worked off with every line in it stored. */
  lemma {:induction false} WorksOffEverything(x: Site, e: Ending, i: nat, s: State)
    requires s.blocked.None? && InSequence(s.buffer, s.lastSequence)
    requires Ample(x, s.buffer, Queued(In(x), s.channel)) && forall k :: e.stores(k)
    ensures
      var t := WorkedOff(x, e, i, s);
      && t.channel == [] && Stores(x, s, Queued(In(x), s.channel), t, []) && Newest(t, []) == Newest(s, s.channel)
    decreases |s.channel|
  {
    if s.channel == [] {
      assert Queued(In(x), s.channel) == [];
    } else {
      hide AfterReceive, Queued, InSequence, Ample, CommandRoom;
      var t := AfterReceive(In(x), s, CommandRoom(x, s, e.stores(i), e.spills(i)));
      HandlesOne(x, s, e.spills(i));
      WorksOffEverything(x, e, i + 1, t);
      NewestAfter(s, t, s.channel);
    }
  }

  /** The line held back gets in. */
  lemma {:induction false} RetriesWithRoom(x: Site, s: State, spills: bool)
    requires InSequence(s.buffer, s.lastSequence) && Ample(x, s.buffer, Held(s) + Queued(In(x), s.channel))
    ensures
      var r := Retried(In(x), s, RetryRoom(x, s, true, spills));
      var rest := Queued(In(x), s.channel);
      && Stores(x, s, Held(s) + rest, r, rest) && r.channel == s.channel && Newest(r, []) == Newest(s, [])
  {
    hide Queued, InSequence, Ample, RoomFor, Stored, IsBlank;
    var rest := Queued(In(x), s.channel);
    if s.blocked.None? {
      assert [] + rest == rest;
    } else {
      var line, popped := s.blocked.value, s.(blocked := None);
      RoomAlike(x, s, popped, line, spills);
      StoresOne(x, popped, line, rest, spills);
    }
  }

  /** Everything on its way is in the buffer before the last drains begin. */
  lemma {:induction false} TriesAgainWithRoom(x: Site, e: Ending, s: State)
    requires InSequence(s.buffer, s.lastSequence)
    requires Ample(x, s.buffer, Held(s) + Queued(In(x), s.channel)) && forall k :: e.stores(k)
    ensures
      var t := TriedAgain(x, e, s);
      && t.channel == [] && Stores(x, s, Held(s) + Queued(In(x), s.channel), t, [])
      && Newest(t, []) == Newest(s, s.channel)
  {
    hide Queued, InSequence, Ample, RetryRoom, Retried, WorkedOff;
    var r := Retried(In(x), s, RetryRoom(x, s, e.stores(0), e.spills(0)));
    RetriesWithRoom(x, s, e.spills(0));
    WorksOffEverything(x, e, 1, r);
    NewestAlike(s, r, s.channel);
  }

  lemma {:induction false} AmpleWithout(x: Site, buffer: seq<StreamEntry>, line: nat, rest: seq<nat>)
    requires Ample(x, buffer, [line] + rest)
    ensures Ample(x, buffer, rest)
  {
    var lines := [line] + rest;
    assert lines[1..] == rest && forall i :: 0 <= i < |rest| ==> rest[i] == lines[i + 1];
  }

  // ------------------------------------------------------------------------- the last drains

  /** The relay obliges, and the removal commits, in every round from `i` on that is reached. */
  ghost predicate ObligesThroughout(x: Site, e: Ending, i: nat, s: State)
    decreases if i < e.rounds then e.rounds - i else 0
  {
    i >= e.rounds || s.buffer == [] ||
    (&& e.commits(i + 1) && Obliges(x, e.relays(i + 1), s, Min(x.batchSize, |s.buffer|))
     && forall b :: Drains(x, e, i, s, b) ==> ObligesThroughout(x, e, i + 1, b))
  }

  lemma {:induction false} DrainsEmptyTheBuffer(x: Site, e: Ending, i: nat, s: State, t: State)
    requires InSequence(s.buffer, s.lastSequence) && NothingReturns(x, e) && x.batchSize > 0
    requires DrainsOut(x, e, i, s, t) && ObligesThroughout(x, e, i, s) && i + |s.buffer| <= e.rounds
    ensures Lightened(s, |s.buffer|, t)
    decreases if i < e.rounds then e.rounds - i else 0
  {
    hide InSequence, Obliges, Lightened, Ships, NothingReturns;
    if i >= e.rounds || s.buffer == [] {
      LightenedByNone(s);
    } else {
      var b :| Drains(x, e, i, s, b) && DrainsOut(x, e, i + 1, b, t);
      var n := Min(x.batchSize, |s.buffer|);
      var h := ShipLightens(x, e, s, n, e.relays(i + 1), e.commits(i + 1), b);
      SuffixInSequence(s, h, b);
      DrainsEmptyTheBuffer(x, e, i + 1, b, t);
      LightenedTwice(s, h, b, |b.buffer|, t);
    }
  }

  // ----------------------------------------------------------------------- the orderly end

  /** Everything on its way is in the buffer, and nothing else has changed that matters. */
  lemma {:induction false} LandsAndTriesAgain(x: Site, e: Ending, s: State, a: State)
    requires Tidy(s) && NothingReturns(x, e) && Lands(x, e, s, a) && forall k :: e.stores(k)
    requires Ample(x, s.buffer, Held(s) + Queued(In(x), s.channel))
    ensures
      var b := TriedAgain(x, e, a);
      && b.channel == [] && b.blocked.None? && b.lost == s.lost && b.spilled == s.spilled
      && InSequence(b.buffer, b.lastSequence)
      && |b.buffer| <= |s.buffer| + |Held(s)| + |Queued(In(x), s.channel)|
      && Newest(b, []) == Newest(s, s.channel)
  {
    hide Lands, InSequence, Queued, TriedAgain, Ample, NothingReturns, Newest;
    var h := LandingLightens(x, e, s, a);
    SuffixInSequence(s.(inflight := None), h, a);
    AmpleSuffix(x, s.buffer, h, Held(s) + Queued(In(x), s.channel));
    TriesAgainWithRoom(x, e, a);
    NewestSame(s);
    NewestAlike(s, a, s.channel);
  }

  lemma {:induction false} NewestSame(s: State)
    ensures Newest(s.(inflight := None), []) == Newest(s, [])
  {
  }

  lemma {:induction false} EndsEmpty(x: Site, e: Ending, s: State, t: State)
    requires Tidy(s) && ShutsDown(x, e, s, t)
    requires NothingReturns(x, e) && x.batchSize > 0 && forall k :: e.stores(k)
    requires Ample(x, s.buffer, Held(s) + Queued(In(x), s.channel))
    requires |s.buffer| + |Held(s)| + |Queued(In(x), s.channel)| <= e.rounds
    requires forall a :: Lands(x, e, s, a) ==> ObligesThroughout(x, e, 0, TriedAgain(x, e, a))
    ensures t.buffer == [] && t.channel == [] && t.blocked.None? && t.lost == s.lost && t.spilled == s.spilled
    ensures e.saves ==> t.pending.None? && t.persisted == Newest(s, s.channel)
  {
    hide Lands, DrainsOut, ObligesThroughout, InSequence, Queued, TriedAgain, Ample, NothingReturns, Newest, Tidy, Held;
    var a, c :|
      && Lands(x, e, s, a) && DrainsOut(x, e, 0, TriedAgain(x, e, a), c) && t == Saved(c, e.saves).(phase := Done);
    LandsAndTriesAgain(x, e, s, a);
    DrainsEmptyTheBuffer(x, e, 0, TriedAgain(x, e, a), c);
    SavesTheNewest(c, t, e.saves);
  }

  /**
   The loop has ended at `s` and the shutdown ran to its end at `t`. If the line held back and those in
   the channel fit, nothing comes back from overflow, there are rounds enough and the relay settles
   something in each, then nothing is left in the buffer, the channel or held back, and nothing is given
   up or spilled on the way out. So each line this process was left with or accepted is settled, was
   spilled, or had been given up before. A save that succeeds persists the newest checkpoint sent.
   */
  lemma {:induction false} OrderlyEndLeavesNothingBehind(x: Site, e: Ending, trace: seq<State>, steps: seq<Step>,
      i: nat)
    requires IsRun(In(x), trace, steps) && i < |trace| && ShutsDown(x, e, trace[i], trace[|steps|])
    requires NothingReturns(x, e) && x.batchSize > 0 && forall k :: e.stores(k)
    requires Ample(x, trace[i].buffer, Held(trace[i]) + Queued(In(x), trace[i].channel))
    requires |trace[i].buffer| + |Held(trace[i])| + |Queued(In(x), trace[i].channel)| <= e.rounds
    requires forall a :: Lands(x, e, trace[i], a) ==> ObligesThroughout(x, e, 0, TriedAgain(x, e, a))
    ensures
      var s, t := trace[i], trace[|steps|];
      && t.buffer == [] && t.channel == [] && t.blocked.None? && t.lost == s.lost && t.spilled == s.spilled
      && (forall k :: k in t.backlog || k in t.accepted ==> Gone(In(x), t, k) || k in s.lost)
      && (e.saves ==> t.pending.None? && t.persisted == Newest(s, s.channel))
  {
    hide ShutsDown, NothingReturns, Ample, Queued, Held, ObligesThroughout, Lands, TriedAgain, Newest, Gone,
      AllSomewhere, Enabled, Next, Tidy;
    var w, s, t := In(x), trace[i], trace[|steps|];
    InFlightIsTheOldestPrefix(w, trace, steps, i);
    EndsEmpty(x, e, s, t);
    EveryAcceptedLineIsSomewhere(w, trace, steps, |steps|);
    NothingOnItsWay(w, t);
  }

  lemma {:induction false} SavesTheNewest(c: State, t: State, saves: bool)
    requires c.buffer == [] && t == Saved(c, saves).(phase := Done)
    ensures Newest(t, []) == Newest(c, [])
    ensures saves ==> t.pending.None? && t.persisted == Newest(c, [])
  {
  }

  lemma {:induction false} NothingOnItsWay(w: World, t: State)
    requires AllSomewhere(w, t) && t.buffer == [] && t.channel == [] && t.blocked.None?
    ensures forall k :: k in t.backlog || k in t.accepted ==> Gone(w, t, k) || k in t.lost
  {
    forall k | k in t.backlog || k in t.accepted
      ensures Gone(w, t, k) || k in t.lost
    {
      assert Somewhere(w, t, k);
    }
  }

  lemma {:induction false} LandingLightens(x: Site, e: Ending, s: State, a: State) returns (h: nat)
    requires Tidy(s) && NothingReturns(x, e) && Lands(x, e, s, a)
    ensures Lightened(s.(inflight := None), h, a)
  {
    hide Ships, Lightened;
    if s.inflight.Some? && e.finishes {
      h := ShipLightens(x, e, s.(inflight := None), |s.inflight.value|, e.relays(0), e.commits(0), a);
    } else {
      h := 0;
      LightenedByNone(a);
    }
  }
}
