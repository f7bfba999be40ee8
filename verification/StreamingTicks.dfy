/**
 What the streaming actor has to do at each wakeup, given everything the outside world decides: what
 the relay answers, which commits and overflow writes succeed, what the overflow store hands back.
 Said over the protocol state alone, and leaving the actor no choice.
 */
module StreamingTicks {
  import opened Common
  import opened EntryCodec
  import Disk = DiskBuffers
  import opened Shipping
  import opened StreamingProtocol

  /** Grace, in milliseconds, before a blocked line with all handles gone forces the shutdown. */
  const WEDGED_SHUTDOWN_GRACE := 2_000

  /** The lines the source brings, and the actor's settings. */
  datatype Site = Site(source: nat -> StoredLine, batchSize: nat, maxBytes: nat, shipBatchMaxBytes: nat, overflow: bool)

  ghost function WorldOf(source: nat -> StoredLine, batchSize: nat, overflow: bool): World {
    World((k: nat) => IsBlank(source(k).data), batchSize, overflow)
  }

  ghost function In(x: Site): World {
    WorldOf(x.source, x.batchSize, x.overflow)
  }

  // ---------------------------------------------------------------------- the outside world

  datatype ReaderAct = Line(line: nat) | Checkpoint(upto: nat) | Ask | DropHandle

  /** Lines the overflow store hands back, and whether storing the next of them commits. */
  datatype Replay = Replay(lines: seq<nat>, commits: nat -> bool)

  /** A wakeup of the select loop, with everything the outside world decides about it. */
  datatype Event =
    | ReaderActs(act: ReaderAct)
    | CommandReady(commits: bool, spills: bool)
    | ShipCompletes(replay: Replay, relay: nat -> Reply, commits: bool, saves: bool, retryCommits: bool, spills: bool)
    | TickFires(replay: Replay, now: int, commits: bool, spills: bool, saves: bool)

  /** How the process ends: by a crash, or by a shutdown with what the world brings to it. */
  datatype Ending = Ending(shutsDown: bool, finishes: bool, rounds: nat, relays: nat -> (nat -> Reply),
    commits: nat -> bool, replay: Replay, saves: bool, stores: nat -> bool, spills: nat -> bool)

  datatype Life = Life(events: seq<Event>, ending: Ending)

  // ------------------------------------------------------------------------ what there is room for

  /** What is stored for a line: a bare one has lost its stream. */
  function RowOf(source: nat -> StoredLine, e: StreamEntry): StoredLine {
    if e.bare then source(e.line).(stream := Unspecified) else source(e.line)
  }

  ghost function BufferBytes(x: Site, buffer: seq<StreamEntry>): nat {
    if buffer == [] then 0
    else BufferBytes(x, buffer[..|buffer| - 1]) + Disk.StoredBytes(RowOf(x.source, buffer[|buffer| - 1]))
  }

  ghost predicate Fits(x: Site, buffer: seq<StreamEntry>, row: StoredLine) {
    |row.data| < U32_LIMIT && BufferBytes(x, buffer) + Disk.StoredBytes(row) <= x.maxBytes
  }

  /** A line that fits is stored if that commits; one short enough that does not fit may be spilled. */
  ghost function RoomFor(x: Site, s: State, line: nat, commits: bool, spills: bool): Room {
    var row := x.source(line);
    if Fits(x, s.buffer, row) then if commits then Taken else Refused
    else if |row.data| < U32_LIMIT && x.overflow && spills then Spilled
    else Refused
  }

  ghost function RetryRoom(x: Site, s: State, commits: bool, spills: bool): Room {
    if s.blocked.None? then Taken else RoomFor(x, s, s.blocked.value, commits, spills)
  }

  ghost function CommandRoom(x: Site, s: State, commits: bool, spills: bool): Room
    requires s.channel != []
  {
    if s.channel[0].Enqueue? then RoomFor(x, s, s.channel[0].line, commits, spills) else Taken
  }

  // --------------------------------------------------------------------------- idle housekeeping

  /** The lines that were spilled, in the order they are handed back. */
  ghost function Wanted(spilled: set<nat>, lines: seq<nat>): seq<nat> {
    if lines == [] then []
    else
      var n := |lines| - 1;
      Wanted(spilled, lines[..n]) + if lines[n] in spilled then [lines[n]] else []
  }

  /** The `i`-th line wanted can be stored behind the ones before it. */
  ghost predicate Returns(x: Site, s: State, replay: Replay, i: nat)
    requires i < |Wanted(s.spilled, replay.lines)|
  {
    var wanted := Wanted(s.spilled, replay.lines);
    var row := x.source(wanted[i]).(stream := Unspecified);
    Fits(x, Replayed(In(x), s, wanted[..i]).buffer, row) && replay.commits(i)
  }

  /** The lines handed back are stored up to the first that cannot be; without a store there are none. */
  ghost predicate IsReplay(x: Site, s: State, replay: Replay, replayed: seq<nat>) {
    if !x.overflow then replayed == []
    else
      && replayed <= Wanted(s.spilled, replay.lines)
      && (forall i :: 0 <= i < |replayed| ==> Returns(x, s, replay, i))
      && (|replayed| < |Wanted(s.spilled, replay.lines)| ==> !Returns(x, s, replay, |replayed|))
  }

  ghost predicate IsIdle(x: Site, s: State, replay: Replay, saves: bool, idle: Idle) {
    idle.saves == saves && IsReplay(x, s, replay, idle.replayed)
  }

  ghost predicate Idles(x: Site, s: State, replay: Replay, saves: bool, t: State) {
    exists idle :: IsIdle(x, s, replay, saves, idle) && t == Idled(In(x), s, idle)
  }

  // ---------------------------------------------------------------------------------- shipping

  function Shown(source: nat -> StoredLine, buffer: seq<StreamEntry>): (r: seq<ShipEntry>)
    ensures |r| == |buffer|
    ensures forall i :: 0 <= i < |r| ==>
      r[i] == ShipEntry(RowOf(source, buffer[i]).data, RowOf(source, buffer[i]).stream)
  {
    seq(|buffer|, i requires 0 <= i < |buffer| =>
      ShipEntry(RowOf(source, buffer[i]).data, RowOf(source, buffer[i]).stream))
  }

  /** The handled sequences leave the buffer, and one emptied by that is idle. */
  ghost predicate Applies(x: Site, s: State, sequences: seq<nat>, handled: nat, commits: bool, replay: Replay,
      saves: bool, t: State)
    requires handled <= |sequences|
  {
    if handled == 0 || !commits then t == s
    else
      var d := Deleted(s, sequences[..handled]);
      if d.buffer == [] then Idles(x, d, replay, saves, t) else t == d
  }

  /** The relay is shown the oldest `n` entries, and what it settles of them is applied. */
  ghost predicate Ships(x: Site, s: State, n: nat, relay: nat -> Reply, commits: bool, replay: Replay, saves: bool,
      t: State)
  {
    && n <= |s.buffer|
    && exists outcome ::
         && ShipsAs(Shown(x.source, s.buffer[..n]), x.shipBatchMaxBytes, relay, outcome) && Handled(outcome) <= n
         && Applies(x, s, SequencesOf(s.buffer[..n]), Handled(outcome), commits, replay, saves, t)
  }

  /** Start a ship unless one is in flight; an empty peek is idle time. */
  ghost predicate Prepares(x: Site, s: State, replay: Replay, saves: bool, t: State) {
    var n := Min(x.batchSize, |s.buffer|);
    if s.inflight.Some? then t == s
    else if n == 0 then Idles(x, s, replay, saves, t)
    else t == s.(inflight := Some(SequencesOf(s.buffer[..n])))
  }

  // ------------------------------------------------------------------------------- the wakeups

  /** The actor's state, and since when it has been seen to be wedged. */
  datatype Moment = Moment(state: State, wedged: Option<int>)

  /** The step an act of the reader comes to: none while it may not be taken. */
  ghost function ActAnswer(s: State, act: ReaderAct): Option<Step> {
    match act
    case Line(line) => if CanSend(s) && s.producer.Reading? then Some(SendLine(line)) else None
    case Checkpoint(upto) =>
      if CanSend(s) && s.producer.Reading? && HasSent(s.producer, upto) then Some(SendCheckpoint(upto)) else None
    case Ask => if CanSend(s) && !s.producer.Waiting? then Some(AskCheckpoint) else None
    case DropHandle => if s.closed then None else Some(Close)
  }

  ghost predicate Took(w: World, s: State, step: Option<Step>, t: State) {
    if step.None? then t == s else Enabled(w, s, step.value) && t == Next(w, s, step.value)
  }

  /** Intake is gated while a line is held back; a closed channel worked off ends the loop. */
  ghost function Received(x: Site, s: State, commits: bool, spills: bool): State {
    if s.blocked.Some? then s
    else if s.channel != [] then AfterReceive(In(x), s, CommandRoom(x, s, commits, spills))
    else if s.closed then s.(phase := Settling)
    else s
  }

  ghost predicate Completes(x: Site, s: State, e: Event, t: State)
    requires e.ShipCompletes?
  {
    if s.inflight.None? then t == s
    else
      var n, landed := |s.inflight.value|, s.(inflight := None);
      exists a ::
        && Ships(x, landed, n, e.relay, e.commits, e.replay, e.saves, a)
        && t == Retried(In(x), a, RetryRoom(x, a, e.retryCommits, e.spills))
  }

  /** A line held back with all handles gone wedges the actor; past the grace that ends the loop. */
  ghost function Watched(s: State, wedged: Option<int>, now: int): Moment {
    if s.blocked.None? || !s.closed then Moment(s, None)
    else
      var since := if wedged.Some? then wedged.value else now;
      Moment(if now - since >= WEDGED_SHUTDOWN_GRACE then s.(phase := Settling) else s, Some(since))
  }

  ghost predicate Ticks(x: Site, m: Moment, e: Event, t: Moment)
    requires e.TickFires?
  {
    var r := Retried(In(x), m.state, RetryRoom(x, m.state, e.commits, e.spills));
    exists p :: Prepares(x, r, e.replay, e.saves, p) && t == Watched(p, m.wedged, e.now)
  }

  /** The event leads from one moment to the other. */
  ghost predicate Leads(x: Site, m: Moment, e: Event, t: Moment) {
    match e
    case ReaderActs(act) => t.wedged == m.wedged && Took(In(x), m.state, ActAnswer(m.state, act), t.state)
    case CommandReady(commits, spills) => t == m.(state := Received(x, m.state, commits, spills))
    case ShipCompletes(_, _, _, _, _, _) => t.wedged == m.wedged && Completes(x, m.state, e, t.state)
    case TickFires(_, _, _, _, _) => Ticks(x, m, e, t)
  }

  /** The events, one after another, until the loop ends. */
  ghost predicate Runs(x: Site, m: Moment, events: seq<Event>, t: Moment) {
    if events == [] then t == m
    else
      var front, last := events[..|events| - 1], events[|events| - 1];
      exists r :: Runs(x, m, front, r) && if r.state.phase.Running? then Leads(x, r, last, t) else t == r
  }

  // -------------------------------------------------------------------------------- the shutdown

  /** The ship in flight is waited for and applied, or abandoned. */
  ghost predicate Lands(x: Site, e: Ending, s: State, t: State) {
    if s.inflight.Some? && e.finishes then
      Ships(x, s.(inflight := None), |s.inflight.value|, e.relays(0), e.commits(0), e.replay, e.saves, t)
    else t == s.(inflight := None)
  }

  /** The rest of the channel, up to the first line there is no room for. */
  ghost function WorkedOff(x: Site, e: Ending, i: nat, s: State): State
    decreases |s.channel|
  {
    if s.channel == [] then s
    else
      var t := AfterReceive(In(x), s, CommandRoom(x, s, e.stores(i), e.spills(i)));
      if t.blocked.Some? then t.(blocked := None, channel := [], lost := s.lost + Queued(In(x), s.channel))
      else WorkedOff(x, e, i + 1, t)
  }

  ghost function TriedAgain(x: Site, e: Ending, s: State): State {
    var r := Retried(In(x), s, RetryRoom(x, s, e.stores(0), e.spills(0)));
    (if r.blocked.None? then WorkedOff(x, e, 1, r) else r).(phase := Draining)
  }

  ghost predicate Drains(x: Site, e: Ending, i: nat, s: State, t: State) {
    var n := Min(x.batchSize, |s.buffer|);
    if n == 0 then Idles(x, s, e.replay, e.saves, t)
    else Ships(x, s, n, e.relays(i + 1), e.commits(i + 1), e.replay, e.saves, t)
  }

  /** Drains until the buffer is empty or the rounds are used up. */
  ghost predicate DrainsOut(x: Site, e: Ending, i: nat, s: State, t: State)
    decreases if i < e.rounds then e.rounds - i else 0
  {
    if i >= e.rounds || s.buffer == [] then t == s
    else exists b :: Drains(x, e, i, s, b) && DrainsOut(x, e, i + 1, b, t)
  }

  ghost predicate ShutsDown(x: Site, e: Ending, s: State, t: State) {
    exists a, c ::
      && Lands(x, e, s, a) && DrainsOut(x, e, 0, TriedAgain(x, e, a), c)
      && t == Saved(c, e.saves).(phase := Done)
  }

  /** The events and then the ending. */
  ghost predicate RunsToEnd(x: Site, m: Moment, life: Life, t: State) {
    exists r ::
      && Runs(x, m, life.events, r)
      && if r.state.phase.Settling? && life.ending.shutsDown then ShutsDown(x, life.ending, r.state, t)
         else t == r.state
  }

  ghost predicate LivesOn(x: Site, s: State, lives: seq<Life>, t: State) {
    if lives == [] then t == s
    else
      var front, last := lives[..|lives| - 1], lives[|lives| - 1];
      exists r :: LivesOn(x, s, front, r) && RunsToEnd(x, Moment(Restarted(r), None), last, t)
  }

  // ----------------------------------------------------------------- there is only one answer

  lemma {:induction false} OneReplay(x: Site, s: State, replay: Replay, a: seq<nat>, b: seq<nat>)
    requires IsReplay(x, s, replay, a) && IsReplay(x, s, replay, b)
    ensures a == b
  {
    hide Returns, Wanted;
  }

  lemma {:induction false} IdlesAlike(x: Site, s: State, replay: Replay, saves: bool, a: State, b: State)
    requires Idles(x, s, replay, saves, a) && Idles(x, s, replay, saves, b)
    ensures a == b
  {
    hide IsReplay, Idled;
    var i :| IsIdle(x, s, replay, saves, i) && a == Idled(In(x), s, i);
    var j :| IsIdle(x, s, replay, saves, j) && b == Idled(In(x), s, j);
    OneReplay(x, s, replay, i.replayed, j.replayed);
  }

  lemma {:induction false} AppliesAlike(x: Site, s: State, sequences: seq<nat>, handled: nat, commits: bool,
      replay: Replay, saves: bool, a: State, b: State)
    requires handled <= |sequences| && Applies(x, s, sequences, handled, commits, replay, saves, a)
    requires Applies(x, s, sequences, handled, commits, replay, saves, b)
    ensures a == b
  {
    hide Idles, Deleted;
    if handled > 0 && commits && Deleted(s, sequences[..handled]).buffer == [] {
      IdlesAlike(x, Deleted(s, sequences[..handled]), replay, saves, a, b);
    }
  }

  lemma {:induction false} ShipsAlike(x: Site, s: State, n: nat, relay: nat -> Reply, commits: bool, replay: Replay,
      saves: bool, a: State, b: State)
    requires n > 0 && Ships(x, s, n, relay, commits, replay, saves, a)
    requires Ships(x, s, n, relay, commits, replay, saves, b)
    ensures a == b
  {
    hide ShipsAs, Applies;
    var o :|
      && ShipsAs(Shown(x.source, s.buffer[..n]), x.shipBatchMaxBytes, relay, o) && Handled(o) <= n
      && Applies(x, s, SequencesOf(s.buffer[..n]), Handled(o), commits, replay, saves, a);
    var p :|
      && ShipsAs(Shown(x.source, s.buffer[..n]), x.shipBatchMaxBytes, relay, p) && Handled(p) <= n
      && Applies(x, s, SequencesOf(s.buffer[..n]), Handled(p), commits, replay, saves, b);
    OneOutcome(Shown(x.source, s.buffer[..n]), x.shipBatchMaxBytes, relay, o, p);
    AppliesAlike(x, s, SequencesOf(s.buffer[..n]), Handled(o), commits, replay, saves, a, b);
  }

  lemma {:induction false} PreparesAlike(x: Site, s: State, replay: Replay, saves: bool, a: State, b: State)
    requires Prepares(x, s, replay, saves, a) && Prepares(x, s, replay, saves, b)
    ensures a == b
  {
    hide Idles;
    if s.inflight.None? && Min(x.batchSize, |s.buffer|) == 0 {
      IdlesAlike(x, s, replay, saves, a, b);
    }
  }

  /** The outside world leaves the actor no choice; a ship in flight has at least one entry. */
  lemma {:induction false} LeadsToOneMoment(x: Site, m: Moment, e: Event, a: Moment, b: Moment)
    requires m.state.inflight.Some? ==> m.state.inflight.value != []
    requires Leads(x, m, e, a) && Leads(x, m, e, b)
    ensures a == b
  {
    hide Ships, Prepares, Received, RetryRoom, Retried, ActAnswer, Next, Enabled;
    match e {
      case ShipCompletes(replay, relay, commits, saves, retryCommits, spills) =>
        var s := m.state;
        if s.inflight.Some? {
          var n, landed := |s.inflight.value|, s.(inflight := None);
          var p :|
            && Ships(x, landed, n, relay, commits, replay, saves, p)
            && a.state == Retried(In(x), p, RetryRoom(x, p, retryCommits, spills));
          var q :|
            && Ships(x, landed, n, relay, commits, replay, saves, q)
            && b.state == Retried(In(x), q, RetryRoom(x, q, retryCommits, spills));
          ShipsAlike(x, landed, n, relay, commits, replay, saves, p, q);
        }
      case TickFires(replay, now, commits, spills, saves) =>
        var r := Retried(In(x), m.state, RetryRoom(x, m.state, commits, spills));
        var p :| Prepares(x, r, replay, saves, p) && a == Watched(p, m.wedged, now);
        var q :| Prepares(x, r, replay, saves, q) && b == Watched(q, m.wedged, now);
        PreparesAlike(x, r, replay, saves, p, q);
      case _ =>
    }
  }
}
