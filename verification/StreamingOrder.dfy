/** Order and conservation in the streaming actor: the ship in flight, and where every sent line is. */
module StreamingOrder {
  import opened Common
  import opened StreamingProtocol
  import opened StreamingSafety

  // ----------------------------------------------------------- the ship in flight is the oldest prefix

  ghost predicate InSequence(buffer: seq<StreamEntry>, last: nat) {
    && (forall i :: 0 <= i < |buffer| ==> buffer[i].sequence <= last)
    && forall i, j :: 0 <= i < j < |buffer| ==> buffer[i].sequence < buffer[j].sequence
  }

  /** The sequences are those of the oldest entries. */
  ghost predicate OldestPrefix(sequences: seq<nat>, buffer: seq<StreamEntry>) {
    1 <= |sequences| <= |buffer| && sequences == SequencesOf(buffer[..|sequences|])
  }

  ghost predicate Tidy(s: State) {
    && InSequence(s.buffer, s.lastSequence)
    && (s.inflight.Some? ==> OldestPrefix(s.inflight.value, s.buffer))
    && (s.phase.Draining? || s.phase.Done? ==> s.inflight.None?)
    && |s.channel| <= STREAM_CHANNEL_CAPACITY
    && (s.lost != [] ==> s.closed && s.channel == [] && s.blocked.None?)
  }

  /** The buffer only grew at its end; the rest that matters here is as it was. */
  ghost predicate GrewAtEnd(s: State, t: State) {
    && s.buffer <= t.buffer && InSequence(t.buffer, t.lastSequence)
    && t.channel == s.channel && t.phase == s.phase && t.closed == s.closed && t.lost == s.lost
  }

  lemma {:induction false} PrefixStays(sequences: seq<nat>, a: seq<StreamEntry>, b: seq<StreamEntry>)
    requires OldestPrefix(sequences, a) && a <= b
    ensures OldestPrefix(sequences, b)
  {
    assert b[..|sequences|] == a[..|sequences|];
  }

  lemma {:induction false} AppendGrows(s: State, line: nat, bare: bool)
    requires InSequence(s.buffer, s.lastSequence)
    ensures GrewAtEnd(s, Appended(s, line, bare))
  {
  }

  lemma {:induction false} StoreGrows(w: World, s: State, line: nat, room: Room)
    requires InSequence(s.buffer, s.lastSequence)
    ensures GrewAtEnd(s, Stored(w, s, line, room)) && Stored(w, s, line, room).inflight == s.inflight
  {
    AppendGrows(s, line, false);
  }

  lemma {:induction false} RetryGrows(w: World, s: State, room: Room)
    requires InSequence(s.buffer, s.lastSequence)
    ensures GrewAtEnd(s, Retried(w, s, room)) && Retried(w, s, room).inflight == s.inflight
    ensures s.blocked.None? ==> Retried(w, s, room).blocked.None?
  {
    if s.blocked.Some? {
      StoreGrows(w, s.(blocked := None), s.blocked.value, room);
    }
  }

  lemma {:induction false} ReplayGrows(w: World, s: State, lines: seq<nat>)
    requires InSequence(s.buffer, s.lastSequence)
    ensures GrewAtEnd(s, Replayed(w, s, lines))
    ensures Replayed(w, s, lines).inflight == s.inflight && Replayed(w, s, lines).blocked == s.blocked
    decreases |lines|
  {
    if lines != [] && w.overflow {
      var n := |lines| - 1;
      ReplayGrows(w, s, lines[..n]);
      AppendGrows(Replayed(w, s, lines[..n]), lines[n], true);
    }
  }

  lemma {:induction false} IdleGrows(w: World, s: State, idle: Idle)
    requires InSequence(s.buffer, s.lastSequence)
    ensures GrewAtEnd(s, Idled(w, s, idle))
    ensures Idled(w, s, idle).inflight == s.inflight && Idled(w, s, idle).blocked == s.blocked
  {
    ReplayGrows(w, s, idle.replayed);
    hide Replayed;
  }

  /** Deleting the sequences of the oldest entries leaves the others, in order. */
  lemma {:induction false} KeepingPrefix(buffer: seq<StreamEntry>, last: nat, h: nat, n: nat)
    requires InSequence(buffer, last) && h <= n <= |buffer|
    ensures Keeping(buffer[..n], SequencesOf(buffer)[..h]) == buffer[h..n]
    ensures Taking(buffer[..n], SequencesOf(buffer)[..h]) == LinesOf(buffer[..h])
  {
    var named := SequencesOf(buffer)[..h];
    if n == h {
      TakingAll(buffer, named, h);
    } else {
      KeepingPrefix(buffer, last, h, n - 1);
      assert buffer[..n][..n - 1] == buffer[..n - 1];
      assert buffer[n - 1].sequence !in named;
      assert buffer[h..n] == buffer[h..n - 1] + [buffer[n - 1]];
    }
  }

  lemma {:induction false} TakingAll(buffer: seq<StreamEntry>, named: seq<nat>, n: nat)
    requires n <= |buffer| && forall i :: 0 <= i < n ==> buffer[i].sequence in named
    ensures Keeping(buffer[..n], named) == [] && Taking(buffer[..n], named) == LinesOf(buffer[..n])
  {
    if n > 0 {
      TakingAll(buffer, named, n - 1);
      assert buffer[..n][..n - 1] == buffer[..n - 1];
      assert LinesOf(buffer[..n]) == LinesOf(buffer[..n - 1]) + [buffer[n - 1].line];
    }
  }

  lemma {:induction false} DeletePrefix(s: State, sequences: seq<nat>, h: nat)
    requires InSequence(s.buffer, s.lastSequence) && OldestPrefix(sequences, s.buffer) && h <= |sequences|
    ensures
      var t := Deleted(s, sequences[..h]);
      t.buffer == s.buffer[h..] && t.settledNow == s.settledNow + LinesOf(s.buffer[..h])
        && InSequence(t.buffer, t.lastSequence)
  {
    assert sequences[..h] == SequencesOf(s.buffer)[..h];
    KeepingPrefix(s.buffer, s.lastSequence, h, |s.buffer|);
    assert s.buffer[..|s.buffer|] == s.buffer;
  }

  /** Applying an outcome touches the buffer and the slots only. */
  ghost predicate OnlyBuffer(s: State, t: State) {
    && InSequence(t.buffer, t.lastSequence) && t.inflight == s.inflight && t.blocked == s.blocked
    && t.channel == s.channel && t.phase == s.phase && t.closed == s.closed && t.lost == s.lost
  }

  lemma {:induction false} ApplyTidies(w: World, s: State, sequences: seq<nat>, shipped: Shipped, idle: Idle)
    requires InSequence(s.buffer, s.lastSequence) && OldestPrefix(sequences, s.buffer)
    ensures OnlyBuffer(s, Applied(w, s, sequences, shipped, idle))
  {
    if shipped.handled <= |sequences| {
      DeletePrefix(s, sequences, shipped.handled);
      IdleGrows(w, Deleted(s, sequences[..shipped.handled]), idle);
    }
    hide Idled, Keeping, Taking, InSequence, OldestPrefix;
  }

  lemma {:induction false} TickTidies(w: World, s: State, room: Room, peeks: bool, idle: Idle, elapsed: bool)
    requires Tidy(s) && s.phase.Running?
    ensures Tidy(AfterTick(w, s, room, peeks, idle, elapsed))
  {
    var r := Retried(w, s, room);
    RetryGrows(w, s, room);
    if s.inflight.Some? {
      PrefixStays(s.inflight.value, s.buffer, r.buffer);
    }
    IdleGrows(w, r, idle);
    var n := Min(w.batchSize, |r.buffer|);
    assert n > 0 ==> OldestPrefix(SequencesOf(r.buffer[..n]), r.buffer);
    hide Idled, Retried, OldestPrefix, InSequence;
  }

  lemma {:induction false} ShipTidies(w: World, s: State, shipped: Shipped, idle: Idle, room: Room)
    requires Tidy(s) && s.inflight.Some?
    ensures Tidy(AfterShip(w, s, shipped, idle, room))
  {
    var q := s.(inflight := None);
    ApplyTidies(w, q, s.inflight.value, shipped, idle);
    RetryGrows(w, Applied(w, q, s.inflight.value, shipped, idle), room);
    hide Applied, Retried, OldestPrefix, InSequence;
  }

  lemma {:induction false} ReceiveTidies(w: World, s: State, room: Room)
    requires Tidy(s) && s.channel != []
    ensures
      var t := AfterReceive(w, s, room);
      Tidy(t) && t.inflight == s.inflight && t.phase == s.phase && t.closed == s.closed
  {
    var r := s.(channel := s.channel[1..]);
    if s.channel[0].Enqueue? {
      StoreGrows(w, r, s.channel[0].line, room);
      if s.inflight.Some? {
        PrefixStays(s.inflight.value, s.buffer, Stored(w, r, s.channel[0].line, room).buffer);
      }
    }
    hide Stored, OldestPrefix, InSequence;
  }

  lemma {:induction false} RemainingTidies(w: World, s: State, rooms: seq<Room>)
    requires Tidy(s) && s.blocked.None? && s.closed && s.inflight.None?
    ensures
      var t := Remaining(w, s, rooms);
      Tidy(t) && t.inflight.None? && t.closed
    decreases |s.channel|
  {
    if s.channel != [] {
      var room := if rooms == [] then Refused else rooms[0];
      ReceiveTidies(w, s, room);
      var t := AfterReceive(w, s, room);
      if t.blocked.None? {
        RemainingTidies(w, t, if rooms == [] then [] else rooms[1..]);
      }
    }
  }

  lemma {:induction false} SettleTidies(w: World, s: State, finished: Option<Shipped>, idle: Idle, room: Room,
      rooms: seq<Room>)
    requires Tidy(s) && s.phase.Settling? && s.closed
    ensures Tidy(AfterSettle(w, s, finished, idle, room, rooms))
  {
    var q := s.(inflight := None);
    var t := q;
    if s.inflight.Some? && finished.Some? {
      ApplyTidies(w, q, s.inflight.value, finished.value, idle);
      t := Applied(w, q, s.inflight.value, finished.value, idle);
    }
    RetryGrows(w, t, room);
    var r := Retried(w, t, room);
    assert Tidy(r);
    hide Applied, Retried, Remaining, InSequence, OldestPrefix;
    if r.blocked.None? {
      RemainingTidies(w, r, rooms);
    }
  }

  lemma {:induction false} DrainTidies(w: World, s: State, shipped: Shipped, before: Idle, after: Idle)
    requires Tidy(s) && s.inflight.None?
    ensures Tidy(AfterDrainMore(w, s, shipped, before, after))
  {
    IdleGrows(w, s, before);
    var n := Min(w.batchSize, |s.buffer|);
    if n > 0 {
      assert OldestPrefix(SequencesOf(s.buffer[..n]), s.buffer);
      ApplyTidies(w, s, SequencesOf(s.buffer[..n]), shipped, after);
    }
    hide Applied, Idled, InSequence, OldestPrefix;
  }

  lemma {:induction false} StepTidies(w: World, s: State, step: Step)
    requires Tidy(s) && Inv(w, s) && Enabled(w, s, step)
    ensures Tidy(Next(w, s, step))
  {
    hide AfterReceive, AfterShip, AfterTick, AfterSettle, AfterDrainMore, InSequence, OldestPrefix;
    match step
    case Receive(room) => ReceiveTidies(w, s, room);
    case ShipDone(shipped, idle, room) => ShipTidies(w, s, shipped, idle, room);
    case Tick(room, peeks, idle, elapsed) => TickTidies(w, s, room, peeks, idle, elapsed);
    case Settle(finished, idle, room, rooms) => SettleTidies(w, s, finished, idle, room, rooms);
    case DrainMore(shipped, before, after) => DrainTidies(w, s, shipped, before, after);
    case _ =>
  }

  /**
   In every reachable state there is at most one ship in flight, its sequences are the oldest
   prefix of the buffer until its outcome is applied, and the channel is within its capacity.
   */
  lemma {:induction false} InFlightIsTheOldestPrefix(w: World, trace: seq<State>, steps: seq<Step>, i: nat)
    requires IsRun(w, trace, steps) && i < |trace|
    ensures Tidy(trace[i])
  {
    if i > 0 {
      InFlightIsTheOldestPrefix(w, trace, steps, i - 1);
      RunsKeepInv(w, trace, steps, i - 1);
      StepTidies(w, trace[i - 1], steps[i - 1]);
    }
  }

  // ------------------------------------------------------------------------ conservation

  /** Lines past the channel, oldest first: settled, buffered, held back. */
  ghost function Pipe(s: State): seq<nat> {
    s.settledNow + LinesOf(s.buffer) + Held(s)
  }

  /** What this process started from and accepted, in order, is where it now is, in order. */
  ghost predicate Conserved(w: World, s: State) {
    s.backlog + s.accepted == Pipe(s) + Queued(w, s.channel) + s.lost
  }

  ghost predicate SameFlow(s: State, t: State) {
    && t.backlog == s.backlog && t.accepted == s.accepted && t.channel == s.channel && t.lost == s.lost
    && Pipe(t) == Pipe(s)
  }

  lemma {:induction false} StoreFlows(w: World, s: State, line: nat, room: Room)
    requires !w.overflow && s.blocked.None?
    ensures Pipe(Stored(w, s, line, room)) == Pipe(s) + if w.blank(line) then [] else [line]
  {
    var t := Stored(w, s, line, room);
    if t.buffer != s.buffer {
      assert LinesOf(t.buffer) == LinesOf(s.buffer) + [line];
    }
  }

  lemma {:induction false} RetryFlows(w: World, s: State, room: Room)
    requires !w.overflow && (s.blocked.Some? ==> !w.blank(s.blocked.value))
    ensures SameFlow(s, Retried(w, s, room))
  {
    if s.blocked.Some? {
      var q := s.(blocked := None);
      StoreFlows(w, q, s.blocked.value, room);
      assert Pipe(s) == Pipe(q) + [s.blocked.value];
    }
  }

  lemma {:induction false} DeleteFlows(s: State, sequences: seq<nat>, h: nat)
    requires InSequence(s.buffer, s.lastSequence) && OldestPrefix(sequences, s.buffer) && h <= |sequences|
    ensures SameFlow(s, Deleted(s, sequences[..h]))
  {
    DeletePrefix(s, sequences, h);
    LinesSplit(s.buffer, h);
    hide Keeping, Taking, InSequence, OldestPrefix, LinesOf;
    Regroup(s.settledNow, LinesOf(s.buffer[..h]), LinesOf(s.buffer[h..]), Held(s));
  }

  lemma {:induction false} LinesSplit(buffer: seq<StreamEntry>, h: nat)
    requires h <= |buffer|
    ensures LinesOf(buffer) == LinesOf(buffer[..h]) + LinesOf(buffer[h..])
  {
  }

  lemma {:induction false} Regroup(a: seq<nat>, b: seq<nat>, c: seq<nat>, d: seq<nat>)
    ensures (a + b) + c + d == a + (b + c) + d
  {
  }

  lemma {:induction false} IdleFlows(w: World, s: State, idle: Idle)
    requires !w.overflow
    ensures SameFlow(s, Idled(w, s, idle))
  {
  }

  lemma {:induction false} ApplyFlows(w: World, s: State, sequences: seq<nat>, shipped: Shipped, idle: Idle)
    requires !w.overflow && InSequence(s.buffer, s.lastSequence) && OldestPrefix(sequences, s.buffer)
    ensures SameFlow(s, Applied(w, s, sequences, shipped, idle))
  {
    if shipped.handled <= |sequences| {
      DeleteFlows(s, sequences, shipped.handled);
      IdleFlows(w, Deleted(s, sequences[..shipped.handled]), idle);
    }
    hide Idled, Keeping, Taking, InSequence, OldestPrefix, Pipe, Deleted;
  }

  lemma {:induction false} SameFlowConserves(w: World, s: State, t: State)
    requires SameFlow(s, t) && Conserved(w, s)
    ensures Conserved(w, t)
  {
    hide Pipe, Queued;
  }

  /** The head of the channel, if it is a line that counts. */
  ghost function Head(w: World, c: Command): seq<nat> {
    if c.Enqueue? && !w.blank(c.line) then [c.line] else []
  }

  lemma {:induction false} ReceiveMoves(w: World, s: State, room: Room)
    requires !w.overflow && s.blocked.None? && s.channel != []
    ensures
      var t := AfterReceive(w, s, room);
      && Pipe(t) == Pipe(s) + Head(w, s.channel[0])
      && t.channel == s.channel[1..] && t.lost == s.lost && t.backlog == s.backlog && t.accepted == s.accepted
  {
    var r := s.(channel := s.channel[1..]);
    if s.channel[0].Enqueue? {
      StoreFlows(w, r, s.channel[0].line, room);
    }
  }

  lemma {:induction false} ReceiveConserves(w: World, s: State, room: Room)
    requires !w.overflow && Conserved(w, s) && s.blocked.None? && s.channel != []
    ensures Conserved(w, AfterReceive(w, s, room))
  {
    ReceiveMoves(w, s, room);
    QueuedHead(w, s.channel);
    var h := Head(w, s.channel[0]);
    hide Pipe, Queued, AfterReceive, Head;
    Regroup(Pipe(s), h, Queued(w, s.channel[1..]), s.lost);
  }

  lemma {:induction false} RemainingConserves(w: World, s: State, rooms: seq<Room>)
    requires !w.overflow && Conserved(w, s) && s.blocked.None? && s.lost == []
    ensures Conserved(w, Remaining(w, s, rooms))
    decreases |s.channel|
  {
    if s.channel != [] {
      var room := if rooms == [] then Refused else rooms[0];
      var t := AfterReceive(w, s, room);
      if t.blocked.None? {
        ReceiveConserves(w, s, room);
        RemainingConserves(w, t, if rooms == [] then [] else rooms[1..]);
      } else {
        GivingUpConserves(w, s, Remaining(w, s, rooms));
      }
    }
  }

  lemma {:induction false} GivingUpConserves(w: World, s: State, t: State)
    requires Conserved(w, s) && s.lost == [] && t.lost == s.lost + Queued(w, s.channel) && t.channel == []
      && t.blocked == s.blocked
    requires t.backlog == s.backlog && t.accepted == s.accepted && t.settledNow == s.settledNow && t.buffer == s.buffer
    ensures Conserved(w, t)
  {
    assert Pipe(t) == Pipe(s);
  }

  lemma {:induction false} SettleConserves(w: World, s: State, finished: Option<Shipped>, idle: Idle, room: Room,
      rooms: seq<Room>)
    requires !w.overflow && Conserved(w, s) && Tidy(s) && s.phase.Settling? && NeverHoldsBlank(w, s)
    ensures Conserved(w, AfterSettle(w, s, finished, idle, room, rooms))
  {
    var q := s.(inflight := None);
    SameFlowConserves(w, s, q);
    var t := q;
    if s.inflight.Some? && finished.Some? {
      ApplyFlows(w, q, s.inflight.value, finished.value, idle);
      ApplyTidies(w, q, s.inflight.value, finished.value, idle);
      t := Applied(w, q, s.inflight.value, finished.value, idle);
      SameFlowConserves(w, q, t);
    }
    RetryFlows(w, t, room);
    RetryGrows(w, t, room);
    var r := Retried(w, t, room);
    SameFlowConserves(w, t, r);
    hide Applied, Retried, Remaining, InSequence, OldestPrefix, Conserved;
    if r.blocked.None? {
      RemainingStart(w, s, r, rooms);
      SameFlowConserves(w, Remaining(w, r, rooms), Remaining(w, r, rooms).(phase := Draining));
    } else {
      SameFlowConserves(w, r, r.(phase := Draining));
    }
  }

  /** Nothing is lost before the channel is worked off. */
  lemma {:induction false} RemainingStart(w: World, s: State, r: State, rooms: seq<Room>)
    requires !w.overflow && Conserved(w, r) && r.blocked.None? && r.lost == s.lost && r.channel == s.channel && Tidy(s)
    ensures Conserved(w, Remaining(w, r, rooms))
  {
    if s.lost == [] {
      RemainingConserves(w, r, rooms);
    }
  }

  ghost predicate NeverHoldsBlank(w: World, s: State) {
    s.blocked.Some? ==> !w.blank(s.blocked.value)
  }

  lemma {:induction false} TickConserves(w: World, s: State, room: Room, peeks: bool, idle: Idle, elapsed: bool)
    requires !w.overflow && Conserved(w, s) && NeverHoldsBlank(w, s)
    ensures Conserved(w, AfterTick(w, s, room, peeks, idle, elapsed))
  {
    var r := Retried(w, s, room);
    RetryFlows(w, s, room);
    SameFlowConserves(w, s, r);
    IdleFlows(w, r, idle);
    var t := Prepared(w, r, peeks, idle);
    assert SameFlow(r, t);
    SameFlowConserves(w, r, t);
    SameFlowConserves(w, t, AfterTick(w, s, room, peeks, idle, elapsed));
  }

  lemma {:induction false} ShipConserves(w: World, s: State, shipped: Shipped, idle: Idle, room: Room)
    requires !w.overflow && Conserved(w, s) && Tidy(s) && s.inflight.Some? && NeverHoldsBlank(w, s)
    ensures Conserved(w, AfterShip(w, s, shipped, idle, room))
  {
    var q := s.(inflight := None);
    SameFlowConserves(w, s, q);
    ApplyFlows(w, q, s.inflight.value, shipped, idle);
    ApplyTidies(w, q, s.inflight.value, shipped, idle);
    var t := Applied(w, q, s.inflight.value, shipped, idle);
    hide Applied, Retried, Conserved, Pipe;
    SameFlowConserves(w, q, t);
    RetryFlows(w, t, room);
    SameFlowConserves(w, t, Retried(w, t, room));
  }

  lemma {:induction false} DrainConserves(w: World, s: State, shipped: Shipped, before: Idle, after: Idle)
    requires !w.overflow && Conserved(w, s) && Tidy(s)
    ensures Conserved(w, AfterDrainMore(w, s, shipped, before, after))
  {
    IdleFlows(w, s, before);
    var n := Min(w.batchSize, |s.buffer|);
    if n > 0 {
      assert OldestPrefix(SequencesOf(s.buffer[..n]), s.buffer);
      ApplyFlows(w, s, SequencesOf(s.buffer[..n]), shipped, after);
    }
    hide Applied, Idled, InSequence, OldestPrefix, Pipe, Conserved;
    SameFlowConserves(w, s, AfterDrainMore(w, s, shipped, before, after));
  }

  lemma {:induction false} SendConserves(w: World, s: State, step: Step)
    requires Conserved(w, s) && Tidy(s) && Enabled(w, s, step)
      && (step.SendLine? || step.SendCheckpoint? || step.AskCheckpoint?)
    ensures Conserved(w, Next(w, s, step))
  {
    var t := Next(w, s, step);
    var c := t.channel[|s.channel|];
    QueuedAppend(w, s.channel, [c]);
    QueuedOne(w, c);
    assert s.lost == [];
    hide Queued;
    assert t.accepted == s.accepted + Head(w, c);
    assert t.channel == s.channel + [c] && Pipe(t) == Pipe(s);
    hide Pipe, Head;
    SendAlgebra(s.backlog, s.accepted, Head(w, c), Pipe(s), Queued(w, s.channel));
  }

  lemma {:induction false} QueuedOne(w: World, c: Command)
    ensures Queued(w, [c]) == Head(w, c)
  {
    assert [c][..0] == [];
  }

  lemma {:induction false} SendAlgebra(a: seq<nat>, b: seq<nat>, h: seq<nat>, p: seq<nat>, q: seq<nat>)
    requires a + b == p + q + []
    ensures a + (b + h) == p + (q + h) + []
  {
    assert a + (b + h) == (a + b) + h;
  }

  lemma {:induction false} CrashConserves(w: World, s: State)
    ensures Conserved(w, Restarted(s))
  {
  }

  /** Only a line that was not blank is ever held back. */
  lemma {:induction false} StepNeverHoldsBlank(w: World, s: State, step: Step)
    requires Enabled(w, s, step) && NeverHoldsBlank(w, s)
    ensures NeverHoldsBlank(w, Next(w, s, step))
  {
    if step.Settle? {
      var t := if s.inflight.Some? && step.finished.Some? then Applied(w, s.(inflight := None), s.inflight.value,
        step.finished.value, step.idle) else s.(inflight := None);
      KeepsBlocked(w, s.(inflight := None), if s.inflight.Some? then s.inflight.value
        else [], if step.finished.Some? then step.finished.value else Shipped(0, false), step.idle);
      var r := Retried(w, t, step.room);
      if r.blocked.None? {
        RemainingHoldsNothing(w, r, step.rooms);
      }
    } else if step.ShipDone? {
      KeepsBlocked(w, s.(inflight := None), s.inflight.value, step.shipped, step.idle);
    } else if step.Tick? {
      ReplayKeepsBlocked(w, Retried(w, s, step.room), step.idle.replayed);
    } else if step.DrainMore? {
      ReplayKeepsBlocked(w, s, step.before.replayed);
      KeepsBlocked(w, s, SequencesOf(s.buffer[..Min(w.batchSize, |s.buffer|)]), step.shipped, step.after);
    }
    hide Applied, Replayed, Remaining, Keeping, Taking;
  }

  lemma {:induction false} ReplayKeepsBlocked(w: World, s: State, lines: seq<nat>)
    ensures Replayed(w, s, lines).blocked == s.blocked
    decreases |lines|
  {
    if lines != [] {
      ReplayKeepsBlocked(w, s, lines[..|lines| - 1]);
    }
  }

  lemma {:induction false} KeepsBlocked(w: World, s: State, sequences: seq<nat>, shipped: Shipped, idle: Idle)
    ensures Applied(w, s, sequences, shipped, idle).blocked == s.blocked
  {
    if shipped.handled <= |sequences| {
      ReplayKeepsBlocked(w, Deleted(s, sequences[..shipped.handled]), idle.replayed);
    }
  }

  lemma {:induction false} RemainingHoldsNothing(w: World, s: State, rooms: seq<Room>)
    requires s.blocked.None?
    ensures Remaining(w, s, rooms).blocked.None?
    decreases |s.channel|
  {
    if s.channel != [] {
      var t := AfterReceive(w, s, if rooms == [] then Refused else rooms[0]);
      if t.blocked.None? {
        RemainingHoldsNothing(w, t, if rooms == [] then [] else rooms[1..]);
      }
    }
  }

  lemma {:induction false} StepConserves(w: World, s: State, step: Step)
    requires !w.overflow && Conserved(w, s) && Tidy(s) && NeverHoldsBlank(w, s) && Enabled(w, s, step)
    ensures Conserved(w, Next(w, s, step))
  {
    hide AfterReceive, AfterShip, AfterTick, AfterSettle, AfterDrainMore, Conserved, Tidy, Restarted;
    match step
    case SendLine(_) => SendConserves(w, s, step);
    case SendCheckpoint(_) => SendConserves(w, s, step);
    case AskCheckpoint => SendConserves(w, s, step);
    case Close => SameFlowConserves(w, s, Next(w, s, step));
    case Receive(room) => ReceiveConserves(w, s, room);
    case SeeClosed => SameFlowConserves(w, s, Next(w, s, step));
    case ShipDone(shipped, idle, room) => ShipConserves(w, s, shipped, idle, room);
    case Tick(room, peeks, idle, elapsed) => TickConserves(w, s, room, peeks, idle, elapsed);
    case Settle(finished, idle, room, rooms) => SettleConserves(w, s, finished, idle, room, rooms);
    case DrainMore(shipped, before, after) => DrainConserves(w, s, shipped, before, after);
    case Finish(saves) => SameFlowConserves(w, s, Next(w, s, step));
    case Crash => CrashConserves(w, s);
  }

  /**
   Without an overflow store, in every reachable state: the backlog this process started on
   followed by the non-blank lines it accepted is, in the same order, the lines settled, then the
   buffer, then the line held back, then the channel, then what a forced shutdown gave up.
   */
  lemma {:induction false} EveryLineIsSomewhere(w: World, trace: seq<State>, steps: seq<Step>, i: nat)
    requires IsRun(w, trace, steps) && i < |trace| && !w.overflow
    ensures Conserved(w, trace[i]) && NeverHoldsBlank(w, trace[i])
  {
    if i > 0 {
      EveryLineIsSomewhere(w, trace, steps, i - 1);
      InFlightIsTheOldestPrefix(w, trace, steps, i - 1);
      StepConserves(w, trace[i - 1], steps[i - 1]);
      StepNeverHoldsBlank(w, trace[i - 1], steps[i - 1]);
    }
  }

  // -------------------------------------------------------- with an overflow store as well

  /** Line `k` is settled, spilled or buffered, or held back, in the channel or given up. */
  ghost predicate Somewhere(w: World, s: State, k: nat) {
    Safe(w, s, k) || OnItsWay(s, |s.channel|, k) || k in s.lost
  }

  ghost predicate AllSomewhere(w: World, s: State) {
    forall k :: k in s.backlog || k in s.accepted ==> Somewhere(w, s, k)
  }

  ghost predicate SameHistory(s: State, t: State) {
    t.backlog == s.backlog && t.accepted == s.accepted && t.lost == s.lost
  }

  lemma {:induction false} AdvanceLosesNone(w: World, s: State, t: State)
    requires AllSomewhere(w, s) && Advances(w, s, t) && SameHistory(s, t)
    ensures AllSomewhere(w, t)
  {
    hide Safe, Gone;
    forall k | k in t.backlog || k in t.accepted
      ensures Somewhere(w, t, k)
    {
      assert Somewhere(w, s, k);
    }
  }

  lemma {:induction false} ReplayHistory(w: World, s: State, lines: seq<nat>)
    ensures SameHistory(s, Replayed(w, s, lines))
    decreases |lines|
  {
    if lines != [] {
      ReplayHistory(w, s, lines[..|lines| - 1]);
    }
  }

  lemma {:induction false} ApplyHistory(w: World, s: State, sequences: seq<nat>, shipped: Shipped, idle: Idle)
    ensures SameHistory(s, Applied(w, s, sequences, shipped, idle))
  {
    if shipped.handled <= |sequences| {
      ReplayHistory(w, Deleted(s, sequences[..shipped.handled]), idle.replayed);
    }
    hide Replayed, Keeping, Taking;
  }

  lemma {:induction false} RetryHistory(w: World, s: State, room: Room)
    ensures SameHistory(s, Retried(w, s, room))
  {
  }

  lemma {:induction false} PrepareHistory(w: World, s: State, peeks: bool, idle: Idle)
    ensures SameHistory(s, Prepared(w, s, peeks, idle))
  {
    ReplayHistory(w, s, idle.replayed);
    hide Replayed;
  }

  /** The same lines in the same places. */
  lemma {:induction false} SamePlaces(w: World, s: State, t: State)
    requires AllSomewhere(w, s) && SameHistory(s, t)
    requires t.buffer == s.buffer && t.settled == s.settled && t.spilled == s.spilled
    requires t.blocked == s.blocked && t.channel == s.channel
    ensures AllSomewhere(w, t)
  {
    SameFate(w, s, t);
    hide Safe;
    forall k | k in t.backlog || k in t.accepted
      ensures Somewhere(w, t, k)
    {
      assert Somewhere(w, s, k);
    }
  }

  lemma {:induction false} SendKeepsSomewhere(w: World, s: State, step: Step)
    requires AllSomewhere(w, s) && Enabled(w, s, step)
      && (step.SendLine? || step.SendCheckpoint? || step.AskCheckpoint?)
    ensures AllSomewhere(w, Next(w, s, step))
  {
    var t := Next(w, s, step);
    SameFate(w, s, t);
    hide Safe;
    assert s.channel == t.channel[..|s.channel|] && t.channel == t.channel[..|t.channel|];
    forall k | k in t.backlog || k in t.accepted
      ensures Somewhere(w, t, k)
    {
      if k in s.backlog || k in s.accepted {
        assert Somewhere(w, s, k);
        assert Enqueue(k) in s.channel ==> Enqueue(k) in t.channel;
      } else {
        assert t.channel[|s.channel|] == Enqueue(k);
      }
    }
  }

  /** Handling a command stores its line, spills it or holds it back. */
  lemma {:induction false} ReceiveKeepsSomewhere(w: World, s: State, room: Room, k: nat)
    requires Somewhere(w, s, k) && s.blocked.None? && s.channel != []
    ensures Somewhere(w, AfterReceive(w, s, room), k)
  {
    var r := s.(channel := s.channel[1..]);
    var t := AfterReceive(w, s, room);
    SameFate(w, s, r);
    assert s.channel[..|s.channel|] == s.channel && t.channel[..|t.channel|] == t.channel;
    assert Enqueue(k) in s.channel ==> s.channel[0] == Enqueue(k) || Enqueue(k) in s.channel[1..];
    match s.channel[0]
    case Enqueue(line) =>
      StoreAdvances(w, r, line, room);
      hide Safe, Gone, Stored;
    case SetCheckpoint(_) =>
      SameFate(w, s, t);
      hide Safe;
    case GetCheckpoint =>
      SameFate(w, s, t);
      hide Safe;
  }

  lemma {:induction false} ReceiveHistory(w: World, s: State, room: Room)
    requires s.channel != []
    ensures SameHistory(s, AfterReceive(w, s, room))
  {
  }

  lemma {:induction false} QueuedHas(w: World, commands: seq<Command>, k: nat)
    requires Enqueue(k) in commands && !w.blank(k)
    ensures k in Queued(w, commands)
  {
    var n := |commands| - 1;
    if commands[n] != Enqueue(k) {
      assert Enqueue(k) in commands[..n];
      QueuedHas(w, commands[..n], k);
    }
  }

  /** Working off the channel at shutdown: what is not stored is given up by name. */
  lemma {:induction false} RemainingKeepsSomewhere(w: World, s: State, rooms: seq<Room>, k: nat)
    requires Somewhere(w, s, k) && s.blocked.None?
    ensures Somewhere(w, Remaining(w, s, rooms), k)
    decreases |s.channel|
  {
    if s.channel != [] {
      var room := if rooms == [] then Refused else rooms[0];
      var t := AfterReceive(w, s, room);
      ReceiveKeepsSomewhere(w, s, room, k);
      ReceiveHistory(w, s, room);
      if t.blocked.Some? {
        var v := Remaining(w, s, rooms);
        SameFate(w, t, v);
        GivesUp(w, s, room, k);
        hide Safe, AfterReceive;
      } else {
        hide AfterReceive, Safe;
        RemainingKeepsSomewhere(w, t, if rooms == [] then [] else rooms[1..], k);
      }
    }
  }

  lemma {:induction false} GivesUp(w: World, s: State, room: Room, k: nat)
    requires Somewhere(w, s, k) && s.blocked.None? && s.channel != [] && AfterReceive(w, s, room).blocked.Some?
    ensures Safe(w, AfterReceive(w, s, room), k) || k in s.lost || k in Queued(w, s.channel)
  {
    assert s.channel[..|s.channel|] == s.channel;
    if Enqueue(k) in s.channel && !w.blank(k) {
      QueuedHas(w, s.channel, k);
    }
    hide Queued;
  }

  lemma {:induction false} RemainingHistory(w: World, s: State, rooms: seq<Room>)
    requires s.blocked.None?
    ensures Remaining(w, s, rooms).accepted == s.accepted && Remaining(w, s, rooms).backlog == s.backlog
    decreases |s.channel|
  {
    if s.channel != [] {
      var t := AfterReceive(w, s, if rooms == [] then Refused else rooms[0]);
      if t.blocked.None? {
        RemainingHistory(w, t, if rooms == [] then [] else rooms[1..]);
      }
    }
  }

  lemma {:induction false} SettleKeepsSomewhere(w: World, s: State, finished: Option<Shipped>, idle: Idle, room: Room,
      rooms: seq<Room>)
    requires AllSomewhere(w, s) && SlotsSound(w, s)
    ensures AllSomewhere(w, AfterSettle(w, s, finished, idle, room, rooms))
  {
    var q := s.(inflight := None);
    SlotsForward(w, s, q);
    SamePlaces(w, s, q);
    hide AllSomewhere, SlotsSound, Applied, Retried, Remaining;
    var t := q;
    if s.inflight.Some? && finished.Some? {
      ApplyKeepsSlots(w, q, s.inflight.value, finished.value, idle);
      ApplyHistory(w, q, s.inflight.value, finished.value, idle);
      t := Applied(w, q, s.inflight.value, finished.value, idle);
      AdvanceLosesNone(w, q, t);
    }
    RetryKeepsSlots(w, t, room);
    RetryHistory(w, t, room);
    var r := Retried(w, t, room);
    AdvanceLosesNone(w, t, r);
    if r.blocked.None? {
      RemainingKeepsAll(w, r, rooms);
      SamePlaces(w, Remaining(w, r, rooms), Remaining(w, r, rooms).(phase := Draining));
    } else {
      SamePlaces(w, r, r.(phase := Draining));
    }
  }

  lemma {:induction false} RemainingKeepsAll(w: World, s: State, rooms: seq<Room>)
    requires AllSomewhere(w, s) && s.blocked.None?
    ensures AllSomewhere(w, Remaining(w, s, rooms))
  {
    hide Somewhere, Remaining;
    RemainingHistory(w, s, rooms);
    forall k | k in s.backlog || k in s.accepted
      ensures Somewhere(w, Remaining(w, s, rooms), k)
    {
      RemainingKeepsSomewhere(w, s, rooms, k);
    }
  }

  lemma {:induction false} TickKeepsSomewhere(w: World, s: State, room: Room, peeks: bool, idle: Idle, elapsed: bool)
    requires AllSomewhere(w, s) && SlotsSound(w, s)
    ensures AllSomewhere(w, AfterTick(w, s, room, peeks, idle, elapsed))
  {
    hide AllSomewhere, SlotsSound, Prepared, Retried;
    var r := Retried(w, s, room);
    RetryKeepsSlots(w, s, room);
    RetryHistory(w, s, room);
    AdvanceLosesNone(w, s, r);
    PrepareKeepsSlots(w, r, peeks, idle);
    PrepareHistory(w, r, peeks, idle);
    var t := Prepared(w, r, peeks, idle);
    AdvanceLosesNone(w, r, t);
    SamePlaces(w, t, t.(phase := Settling));
  }

  lemma {:induction false} ShipKeepsSomewhere(w: World, s: State, shipped: Shipped, idle: Idle, room: Room)
    requires AllSomewhere(w, s) && SlotsSound(w, s) && s.inflight.Some?
    ensures AllSomewhere(w, AfterShip(w, s, shipped, idle, room))
  {
    var q := s.(inflight := None);
    SlotsForward(w, s, q);
    SamePlaces(w, s, q);
    hide AllSomewhere, SlotsSound, Applied, Retried;
    var t := Applied(w, q, s.inflight.value, shipped, idle);
    ApplyKeepsSlots(w, q, s.inflight.value, shipped, idle);
    ApplyHistory(w, q, s.inflight.value, shipped, idle);
    AdvanceLosesNone(w, q, t);
    RetryKeepsSlots(w, t, room);
    RetryHistory(w, t, room);
    AdvanceLosesNone(w, t, Retried(w, t, room));
  }

  lemma {:induction false} DrainKeepsSomewhere(w: World, s: State, shipped: Shipped, before: Idle, after: Idle)
    requires AllSomewhere(w, s) && SlotsSound(w, s)
    ensures AllSomewhere(w, AfterDrainMore(w, s, shipped, before, after))
  {
    hide AllSomewhere, SlotsSound, Applied, Replayed, Saved;
    var n := Min(w.batchSize, |s.buffer|);
    if n == 0 {
      IdleKeepsSlots(w, s, before);
      IdleHistory(w, s, before);
      AdvanceLosesNone(w, s, Idled(w, s, before));
    } else {
      ApplyKeepsSlots(w, s, SequencesOf(s.buffer[..n]), shipped, after);
      ApplyHistory(w, s, SequencesOf(s.buffer[..n]), shipped, after);
      AdvanceLosesNone(w, s, Applied(w, s, SequencesOf(s.buffer[..n]), shipped, after));
    }
  }

  lemma {:induction false} IdleHistory(w: World, s: State, idle: Idle)
    ensures SameHistory(s, Idled(w, s, idle))
  {
    ReplayHistory(w, s, idle.replayed);
    hide Replayed;
  }

  lemma {:induction false} ReceiveKeepsAll(w: World, s: State, room: Room)
    requires AllSomewhere(w, s) && s.blocked.None? && s.channel != []
    ensures AllSomewhere(w, AfterReceive(w, s, room))
  {
    hide Somewhere, AfterReceive;
    ReceiveHistory(w, s, room);
    forall k | k in s.backlog || k in s.accepted
      ensures Somewhere(w, AfterReceive(w, s, room), k)
    {
      ReceiveKeepsSomewhere(w, s, room, k);
    }
  }

  lemma {:induction false} FinishKeepsSomewhere(w: World, s: State, saves: bool)
    requires AllSomewhere(w, s)
    ensures AllSomewhere(w, Saved(s, saves).(phase := Done))
  {
    SamePlaces(w, s, Saved(s, saves).(phase := Done));
  }

  lemma {:induction false} CrashKeepsSomewhere(w: World, s: State)
    ensures AllSomewhere(w, Restarted(s))
  {
  }

  lemma {:induction false} StepKeepsSomewhere(w: World, s: State, step: Step)
    requires Inv(w, s) && AllSomewhere(w, s) && Enabled(w, s, step)
    ensures AllSomewhere(w, Next(w, s, step))
  {
    assert SlotsSound(w, s);
    hide AfterReceive, AfterShip, AfterTick, AfterSettle, AfterDrainMore, AllSomewhere, Inv, SlotsSound, Restarted,
      Saved;
    match step
    case SendLine(_) => SendKeepsSomewhere(w, s, step);
    case SendCheckpoint(_) => SendKeepsSomewhere(w, s, step);
    case AskCheckpoint => SendKeepsSomewhere(w, s, step);
    case Close => SamePlaces(w, s, Next(w, s, step));
    case Receive(room) => ReceiveKeepsAll(w, s, room);
    case SeeClosed => SamePlaces(w, s, Next(w, s, step));
    case ShipDone(shipped, idle, room) => ShipKeepsSomewhere(w, s, shipped, idle, room);
    case Tick(room, peeks, idle, elapsed) => TickKeepsSomewhere(w, s, room, peeks, idle, elapsed);
    case Settle(finished, idle, room, rooms) => SettleKeepsSomewhere(w, s, finished, idle, room, rooms);
    case DrainMore(shipped, before, after) => DrainKeepsSomewhere(w, s, shipped, before, after);
    case Finish(saves) => FinishKeepsSomewhere(w, s, saves);
    case Crash => CrashKeepsSomewhere(w, s);
  }

  /**
   With or without an overflow store, in every reachable state: each line of the backlog this
   process started on and each non-blank line it accepted is settled, spilled, buffered, held back,
   in the channel, or given up by a forced shutdown.
   */
  lemma {:induction false} EveryAcceptedLineIsSomewhere(w: World, trace: seq<State>, steps: seq<Step>, i: nat)
    requires IsRun(w, trace, steps) && i < |trace|
    ensures AllSomewhere(w, trace[i])
  {
    if i > 0 {
      hide AllSomewhere, Inv, Next, Enabled;
      EveryAcceptedLineIsSomewhere(w, trace, steps, i - 1);
      RunsKeepInv(w, trace, steps, i - 1);
      StepKeepsSomewhere(w, trace[i - 1], steps[i - 1]);
    }
  }
}
