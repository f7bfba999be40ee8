/**
 The streaming actor as a transition system: one producer, a bounded command channel, one task that
 owns the durable buffer, at most one ship in flight, a blocked line that gates intake, a forced
 shutdown, and crashes. Lines are named by their position in the source's stream; a checkpoint is
 the position up to which lines have been sent.
 */
module StreamingProtocol {
  import opened Common

  const STREAM_CHANNEL_CAPACITY := 128

  /** Which lines are blank, the peek size, and whether an overflow store is configured. */
  datatype World = World(blank: nat -> bool, batchSize: nat, overflow: bool)

  datatype Command = Enqueue(line: nat) | SetCheckpoint(upto: nat) | GetCheckpoint

  /**
   The reader: not connected, awaiting its resume point, or resumed at line `from` and since then
   having sent the lines `sent`, in any order.
   */
  datatype Producer = Away | Waiting | Reading(from: nat, sent: set<nat>)

  datatype Phase = Running | Settling | Draining | Done

  /** A line in the buffer; a bare one has come back from overflow, without its stream. */
  datatype StreamEntry = StreamEntry(sequence: nat, line: nat, bare: bool)

  datatype State = State(
    // durable
    buffer: seq<StreamEntry>,
    lastSequence: nat,
    persisted: Option<nat>,
    spilled: set<nat>,
    // this process
    pending: Option<nat>,
    inflight: Option<seq<nat>>,
    blocked: Option<nat>,
    channel: seq<Command>,
    closed: bool,
    phase: Phase,
    producer: Producer,
    // history: every line that left the buffer on the relay's word, and this process's lines in order
    settled: set<nat>,
    backlog: seq<nat>,
    accepted: seq<nat>,
    settledNow: seq<nat>,
    lost: seq<nat>)

  const Fresh := State([], 0, None, {}, None, None, None, [], false, Running, Away, {}, [], [], [], [])

  /** What the buffer, and then the overflow store, say to one line. */
  datatype Room = Taken | Spilled | Refused

  /** What happens once the buffer is found empty: lines replayed from overflow, and whether a save succeeds. */
  datatype Idle = Idle(replayed: seq<nat>, saves: bool)

  /** A completed ship: how many leading entries were handled (zero when deferred), and whether the delete commits. */
  datatype Shipped = Shipped(handled: nat, commits: bool)

  datatype Step =
    | SendLine(line: nat)
    | SendCheckpoint(upto: nat)
    | AskCheckpoint
    | Close
    | Receive(room: Room)
    | SeeClosed
    | ShipDone(shipped: Shipped, idle: Idle, room: Room)
    | Tick(room: Room, peeks: bool, idle: Idle, elapsed: bool)
    | Settle(finished: Option<Shipped>, idle: Idle, room: Room, rooms: seq<Room>)
    | DrainMore(shipped: Shipped, before: Idle, after: Idle)
    | Finish(saves: bool)
    | Crash

  function LinesOf(buffer: seq<StreamEntry>): (r: seq<nat>)
    ensures |r| == |buffer| && forall i :: 0 <= i < |r| ==> r[i] == buffer[i].line
  {
    seq(|buffer|, i requires 0 <= i < |buffer| => buffer[i].line)
  }

  function SequencesOf(buffer: seq<StreamEntry>): (r: seq<nat>)
    ensures |r| == |buffer| && forall i :: 0 <= i < |r| ==> r[i] == buffer[i].sequence
  {
    seq(|buffer|, i requires 0 <= i < |buffer| => buffer[i].sequence)
  }

  // ------------------------------------------------------------------ building blocks

  function Appended(s: State, line: nat, bare: bool): State {
    s.(buffer := s.buffer + [StreamEntry(s.lastSequence + 1, line, bare)], lastSequence := s.lastSequence + 1)
  }

  /** A blank line is handled by dropping it; one there is no room for gates intake. */
  function Stored(w: World, s: State, line: nat, room: Room): State {
    if w.blank(line) then s
    else if room.Taken? then Appended(s, line, false)
    else if room.Spilled? && w.overflow then s.(spilled := s.spilled + {line})
    else s.(blocked := Some(line))
  }

  function Retried(w: World, s: State, room: Room): State {
    if s.blocked.None? then s else Stored(w, s.(blocked := None), s.blocked.value, room)
  }

  /** Lines come back from overflow in any number and order. */
  function Replayed(w: World, s: State, lines: seq<nat>): State
    decreases |lines|
  {
    if lines == [] || !w.overflow then s
    else
      var t := Replayed(w, s, lines[..|lines| - 1]);
      if lines[|lines| - 1] in s.spilled then Appended(t, lines[|lines| - 1], true) else t
  }

  function Saved(s: State, saves: bool): State {
    if s.pending.None? || s.buffer != [] || !saves then s else s.(persisted := s.pending, pending := None)
  }

  function Idled(w: World, s: State, idle: Idle): State {
    Saved(Replayed(w, s, idle.replayed), idle.saves)
  }

  function Keeping(buffer: seq<StreamEntry>, named: seq<nat>): seq<StreamEntry> {
    if buffer == [] then []
    else
      var n := |buffer| - 1;
      if buffer[n].sequence in named then Keeping(buffer[..n], named) else Keeping(buffer[..n], named) + [buffer[n]]
  }

  /** The lines a delete takes out, oldest first. */
  function Taking(buffer: seq<StreamEntry>, named: seq<nat>): seq<nat> {
    if buffer == [] then []
    else
      var n := |buffer| - 1;
      if buffer[n].sequence in named then Taking(buffer[..n], named) + [buffer[n].line] else Taking(buffer[..n], named)
  }

  function Deleted(s: State, named: seq<nat>): State {
    s.(buffer := Keeping(s.buffer, named),
       settled := s.settled + (set l | l in Taking(s.buffer, named)),
       settledNow := s.settledNow + Taking(s.buffer, named))
  }

  /** Delete what was handled; an emptied buffer replays overflow and may save the checkpoint. */
  function Applied(w: World, s: State, sequences: seq<nat>, shipped: Shipped, idle: Idle): State {
    if shipped.handled == 0 || shipped.handled > |sequences| || !shipped.commits then s
    else
      var t := Deleted(s, sequences[..shipped.handled]);
      if t.buffer == [] then Idled(w, t, idle) else t
  }

  // ------------------------------------------------------------------------- the steps

  function AfterReceive(w: World, s: State, room: Room): State
    requires s.channel != []
  {
    var t := s.(channel := s.channel[1..]);
    match s.channel[0]
    case Enqueue(line) => Stored(w, t, line, room)
    case SetCheckpoint(upto) => t.(pending := Some(upto))
    case GetCheckpoint => Resumed(t)
  }

  /** The reader resumes at the pending checkpoint, else at the persisted one, else at the start. */
  function Resumed(s: State): State {
    if !s.producer.Waiting? then s
    else
      s.(producer := Reading(
        if s.pending.Some? then s.pending.value
        else if s.persisted.Some? then s.persisted.value
        else 0, {}))
  }

  function AfterShip(w: World, s: State, shipped: Shipped, idle: Idle, room: Room): State
    requires s.inflight.Some?
  {
    Retried(w, Applied(w, s.(inflight := None), s.inflight.value, shipped, idle), room)
  }

  function AfterTick(w: World, s: State, room: Room, peeks: bool, idle: Idle, elapsed: bool): State {
    var t := Prepared(w, Retried(w, s, room), peeks, idle);
    if t.blocked.Some? && t.closed && elapsed then t.(phase := Settling) else t
  }

  /** Start a ship of the oldest entries unless one is in flight; an empty peek is idle time. */
  function Prepared(w: World, s: State, peeks: bool, idle: Idle): State {
    if s.inflight.Some? || !peeks then s
    else
      var n := Min(w.batchSize, |s.buffer|);
      if n == 0 then Idled(w, s, idle) else s.(inflight := Some(SequencesOf(s.buffer[..n])))
  }

  function AfterSettle(w: World, s: State, finished: Option<Shipped>, idle: Idle, room: Room, rooms: seq<Room>): State {
    var t :=
      if s.inflight.Some? && finished.Some? then Applied(w, s.(inflight := None), s.inflight.value, finished.value,
        idle)
      else s.(inflight := None);
    var r := Retried(w, t, room);
    (if r.blocked.None? then Remaining(w, r, rooms) else r).(phase := Draining)
  }

  /** Work off the channel; at the first line there is no room for, that line and all after it are dropped. */
  function Remaining(w: World, s: State, rooms: seq<Room>): State
    requires s.blocked.None?
    decreases |s.channel|
  {
    if s.channel == [] then s
    else
      var room := if rooms == [] then Refused else rooms[0];
      var t := AfterReceive(w, s, room);
      if t.blocked.Some? then
        t.(blocked := None, channel := [], lost := s.lost + Queued(w, s.channel))
      else Remaining(w, t, if rooms == [] then [] else rooms[1..])
  }

  function AfterDrainMore(w: World, s: State, shipped: Shipped, before: Idle, after: Idle): State {
    var n := Min(w.batchSize, |s.buffer|);
    if n == 0 then Idled(w, s, before) else Applied(w, s, SequencesOf(s.buffer[..n]), shipped, after)
  }

  /** Only the buffer, the overflow store and the persisted checkpoint survive; a new process starts on them. */
  function Restarted(s: State): State {
    State(s.buffer, s.lastSequence, s.persisted, s.spilled, None, None, None, [], false, Running, Away,
          s.settled, LinesOf(s.buffer), [], [], [])
  }

  predicate CanSend(s: State) {
    !s.closed && !s.phase.Done? && |s.channel| < STREAM_CHANNEL_CAPACITY
  }

  /** A checkpoint may only cover lines the same reader resumed past or has sent. */
  predicate HasSent(p: Producer, upto: nat)
    requires p.Reading?
  {
    forall k :: p.from <= k < upto ==> k in p.sent
  }

  predicate Enabled(w: World, s: State, step: Step) {
    match step
    case SendLine(_) => CanSend(s) && s.producer.Reading?
    case SendCheckpoint(upto) => CanSend(s) && s.producer.Reading? && HasSent(s.producer, upto)
    case AskCheckpoint => CanSend(s) && !s.producer.Waiting?
    case Close => !s.closed
    case Receive(_) => s.phase.Running? && s.blocked.None? && s.channel != []
    case SeeClosed => s.phase.Running? && s.blocked.None? && s.channel == [] && s.closed
    case ShipDone(_, _, _) => s.phase.Running? && s.inflight.Some?
    case Tick(_, _, _, _) => s.phase.Running?
    case Settle(_, _, _, _) => s.phase.Settling?
    case DrainMore(_, _, _) => s.phase.Draining? && s.buffer != []
    case Finish(_) => s.phase.Draining?
    case Crash => true
  }

  function Next(w: World, s: State, step: Step): State
    requires Enabled(w, s, step)
  {
    match step
    case SendLine(l) =>
      s.(channel := s.channel + [Enqueue(l)], producer := s.producer.(sent := s.producer.sent + {l}),
         accepted := if w.blank(l) then s.accepted else s.accepted + [l])
    case SendCheckpoint(upto) => s.(channel := s.channel + [SetCheckpoint(upto)])
    case AskCheckpoint => s.(channel := s.channel + [GetCheckpoint], producer := Waiting)
    case Close => s.(closed := true, producer := Away)
    case Receive(room) => AfterReceive(w, s, room)
    case SeeClosed => s.(phase := Settling)
    case ShipDone(shipped, idle, room) => AfterShip(w, s, shipped, idle, room)
    case Tick(room, peeks, idle, elapsed) => AfterTick(w, s, room, peeks, idle, elapsed)
    case Settle(finished, idle, room, rooms) => AfterSettle(w, s, finished, idle, room, rooms)
    case DrainMore(shipped, before, after) => AfterDrainMore(w, s, shipped, before, after)
    case Finish(saves) => Saved(s, saves).(phase := Done)
    case Crash => Restarted(s)
  }

  ghost predicate IsRun(w: World, trace: seq<State>, steps: seq<Step>) {
    && |trace| == |steps| + 1 && trace[0] == Fresh
    && forall i :: 0 <= i < |steps| ==> Enabled(w, trace[i], steps[i]) && trace[i + 1] == Next(w, trace[i], steps[i])
  }

  // ---------------------------------------------------------------- lines on their way

  /** The non-blank lines among some commands, in order. */
  function Queued(w: World, commands: seq<Command>): seq<nat> {
    if commands == [] then []
    else
      var rest := Queued(w, commands[..|commands| - 1]);
      var last := commands[|commands| - 1];
      if last.Enqueue? && !w.blank(last.line) then rest + [last.line] else rest
  }

  function Held(s: State): seq<nat> {
    if s.blocked.None? then [] else [s.blocked.value]
  }

  lemma {:induction false} QueuedAppend(w: World, a: seq<Command>, b: seq<Command>)
    ensures Queued(w, a + b) == Queued(w, a) + Queued(w, b)
  {
    if b == [] {
      assert a + b == a;
    } else {
      var n := |b| - 1;
      assert (a + b)[..|a| + n] == a + b[..n];
      QueuedAppend(w, a, b[..n]);
    }
  }

  lemma {:induction false} QueuedHead(w: World, commands: seq<Command>)
    requires commands != []
    ensures Queued(w, commands)
         == (if commands[0].Enqueue? && !w.blank(commands[0].line) then [commands[0].line] else [])
           + Queued(w, commands[1..])
  {
    assert commands == [commands[0]] + commands[1..];
    QueuedAppend(w, [commands[0]], commands[1..]);
    assert [commands[0]][..0] == [];
  }
}
