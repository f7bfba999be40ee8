/**
 The file delivery protocol as a transition system: read, idle check, flush, drain, overflow replay,
 checkpoint and crash/restart are atomic steps over a file, per-stream assemblers, a durable queue,
 an overflow store, a batch tracker and a saved checkpoint.
 */
module DeliveryProtocol {
  import opened Common
  import opened LogFiles
  import opened BatchTracking
  import opened EntryAssembly
  import opened StreamAssembly
  import opened StreamAssemblyRuns
  import opened SpillFiles

  /**
   What does not change during a run: the file's content as it will be read, its inode, the
   multi-line settings if any, whether the reader is the Kubernetes one, whether there is an
   overflow store, and how many bytes a row of the durable buffer takes and the buffer may hold.
   */
  datatype Setup = Setup(
    file: LogFile, inode: nat, assembly: Option<AssemblerConfig>, kubernetes: bool, overflow: bool,
    rowBytes: Emission -> nat, maxBytes: nat)

  ghost predicate Proper(u: Setup) {
    EveryLineSpansBytes(u.file) && (u.assembly.Some? ==> u.assembly.value.maxLines > 0)
  }

  /** A durable queue entry: the lines of one event (a single line without aggregation). */
  datatype Entry = Entry(sequence: nat, group: Emission)

  datatype Core = Core(
    // durable
    queue: seq<Entry>,
    lastSequence: nat,
    checkpoint: Option<nat>,
    onDisk: Files<Emission>,
    // volatile
    position: nat,
    slots: seq<StreamSlot>,
    tracker: Tracker,
    blocked: bool,
    closing: bool,
    // history: where this session started reading, what it stored, and what became of lines
    origin: nat,
    log: seq<Emission>,
    settled: set<Held>,
    spilled: seq<Emission>,
    dropped: set<Held>,
    skipped: set<Held>)

  /**
   Result of appending to the durable buffer: stored, no room, or another error. Without room the
   groups are offered to the overflow store one by one; `spills` are those it takes.
   */
  datatype StoreOutcome = Stored | NoRoom(spills: set<nat>) | StoreFailed

  datatype Step =
    | Read(count: nat, times: seq<int>, outcome: StoreOutcome)
    | IdleCheck(now: int, outcome: StoreOutcome)
    | FlushAll(outcome: StoreOutcome)
    | Drain(handled: nat, release: bool)
    | DrainAndReplay(handled: nat, release: bool, accepted: nat)
    | Tend(op: Upkeep)
    | SaveCheckpoint(saved: bool)
    | Restart(end: nat)

  function Line(u: Setup, k: nat): Held
    requires k < |u.file|
  {
    LineOf(u.file, u.inode, k)
  }

  predicate AllNonempty(groups: seq<Emission>) {
    forall i :: 0 <= i < |groups| ==> groups[i].lines != []
  }

  /** Every line in a list of groups. */
  function LinesIn(groups: seq<Emission>): (r: set<Held>)
    ensures forall h :: h in r <==> exists i :: 0 <= i < |groups| && h in groups[i].lines
  {
    set i, j | 0 <= i < |groups| && 0 <= j < |groups[i].lines| :: groups[i].lines[j]
  }

  function EntryLines(queue: seq<Entry>): (r: set<Held>)
    ensures forall h :: h in r <==> exists i :: 0 <= i < |queue| && h in queue[i].group.lines
  {
    set i, j | 0 <= i < |queue| && 0 <= j < |queue[i].group.lines| :: queue[i].group.lines[j]
  }

  function Entries(groups: seq<Emission>, base: nat): (r: seq<Entry>)
    ensures |r| == |groups|
    ensures forall i :: 0 <= i < |r| ==> r[i] == Entry(base + 1 + i, groups[i])
  {
    seq(|groups|, i requires 0 <= i < |groups| => Entry(base + 1 + i, groups[i]))
  }

  function FirstStart(g: Emission): nat
    requires g.lines != []
  {
    g.lines[0].ctx.start
  }

  function LastEnd(g: Emission): nat
    requires g.lines != []
  {
    g.lines[|g.lines| - 1].ctx.end
  }

  /** Track each stored group against its own buffer sequence. */
  function TrackGroups(t: Tracker, inode: nat, groups: seq<Emission>, base: nat): (r: Tracker)
    requires AllNonempty(groups)
  {
    if groups == [] then t
    else
      var n := |groups| - 1;
      Tracked(TrackGroups(t, inode, groups[..n], base), FirstStart(groups[n]), LastEnd(groups[n]), inode, base + 1 + n,
        base + 1 + n)
  }

  /** The groups the overflow store takes, or the ones it does not; without a store it takes none. */
  function Picked(u: Setup, groups: seq<Emission>, spills: set<nat>, taken: bool): seq<Emission> {
    if groups == [] then []
    else
      var n := |groups| - 1;
      Picked(u, groups[..n], spills, taken) + if (u.overflow && n in spills) == taken then [groups[n]] else []
  }

  /** A spilled event comes back without its stream. */
  function Untagged(groups: seq<Emission>): (r: seq<Emission>)
    ensures |r| == |groups| && forall i :: 0 <= i < |r| ==> r[i] == Emission(Unspecified, groups[i].lines)
  {
    seq(|groups|, i requires 0 <= i < |groups| => Emission(Unspecified, groups[i].lines))
  }

  function Store(u: Setup, s: Core, groups: seq<Emission>, outcome: StoreOutcome): Core
    requires AllNonempty(groups)
  {
    if groups == [] then s
    else
      match outcome
      case Stored =>
        s.(queue := s.queue + Entries(groups, s.lastSequence),
           lastSequence := s.lastSequence + |groups|,
           tracker := TrackGroups(s.tracker, u.inode, groups, s.lastSequence),
           log := s.log + groups)
      case NoRoom(spills) =>
        var refused := Picked(u, groups, spills, false);
        s.(blocked := s.blocked || refused != [],
           onDisk := Written(s.onDisk, Picked(u, groups, spills, true)),
           spilled := s.spilled + Picked(u, groups, spills, true),
           dropped := s.dropped + LinesIn(refused))
      case StoreFailed => s.(dropped := s.dropped + LinesIn(groups))
  }

  /** The lines one read hands over. */
  function Arrivals(u: Setup, from: nat, times: seq<int>): (r: seq<Arrival>)
    requires from + |times| <= |u.file|
    ensures |r| == |times|
    ensures forall i :: 0 <= i < |r| ==> r[i] == Arrival(u.file[from + i].stream, Line(u, from + i), times[i])
  {
    seq(|times|, i requires 0 <= i < |times| => Arrival(u.file[from + i].stream, Line(u, from + i), times[i]))
  }

  /** Without aggregation every non-blank line is its own entry and blank lines are skipped. */
  function KeptGroups(arrivals: seq<Arrival>): (r: seq<Emission>)
    ensures AllNonempty(r)
  {
    if arrivals == [] then []
    else
      var n := |arrivals| - 1;
      KeptGroups(arrivals[..n])
      + if IsBlank(arrivals[n].held.line) then [] else [Emission(arrivals[n].stream, [arrivals[n].held])]
  }

  function Taken(u: Setup, slots: seq<StreamSlot>, arrivals: seq<Arrival>): (p: Progress)
    ensures AllNonempty(p.emissions)
  {
    match u.assembly
    case None => Progress(KeptGroups(arrivals), slots)
    case Some(c) => FeedAll(c, slots, arrivals)
  }

  /** The furthest offset a checkpoint may reach: the oldest line an assembler still holds. */
  function Ceiling(u: Setup, s: Core): Option<nat> {
    if u.assembly.None? then None else BufferedStart(s.slots)
  }

  function CheckpointOffset(u: Setup, s: Core): (r: Option<nat>) {
    match Safe(s.tracker)
    case None => None
    case Some(cp) =>
      match Ceiling(u, s)
      case None => Some(cp.offset)
      case Some(m) => Some(Min(cp.offset, m))
  }

  /** A reader reopened with nothing to resume from tails from the end of the file. */
  predicate Resumes(u: Setup, s: Core) {
    s.checkpoint.Some? && !(u.kubernetes && s.checkpoint.value == 0)
  }

  /** How many lines the pipeline asks the overflow store for at a time. */
  const REPLAY_BATCH: nat := 1000

  /**
   Assemblers are flushed on the way out only: nothing is read or checked for idleness after it.
   Lines come back from the overflow store right after a drain that empties the queue, and only when
   there is a finished file.
   */
  predicate Enabled(u: Setup, s: Core, step: Step) {
    match step
    case Read(count, times, _) => !s.closing && !s.blocked && 1 <= count == |times| && s.position + count <= |u.file|
    case IdleCheck(_, _) => !s.closing && u.assembly.Some?
    case FlushAll(_) => !s.closing && u.assembly.Some?
    case Drain(handled, _) => handled <= |s.queue|
    case DrainAndReplay(handled, _, accepted) =>
      && u.overflow && 0 < handled == |s.queue| && s.onDisk.finished != []
      && accepted <= |Returned(s.onDisk, REPLAY_BATCH)|
    case Tend(op) => u.overflow && Applies(s.onDisk, op)
    case SaveCheckpoint(_) => true
    case Restart(end) => s.position <= end <= |u.file|
  }

  function GroupsBytes(u: Setup, groups: seq<Emission>): nat {
    if groups == [] then 0 else GroupsBytes(u, groups[..|groups| - 1]) + u.rowBytes(groups[|groups| - 1])
  }

  function Groups(queue: seq<Entry>): (r: seq<Emission>)
    ensures |r| == |queue| && forall i :: 0 <= i < |r| ==> r[i] == queue[i].group
  {
    seq(|queue|, i requires 0 <= i < |queue| => queue[i].group)
  }

  /** All of the groups fit into the buffer next to what is queued. */
  predicate Room(u: Setup, queue: seq<Entry>, groups: seq<Emission>) {
    GroupsBytes(u, Groups(queue)) + GroupsBytes(u, groups) <= u.maxBytes
  }

  /** An append that is stored had room, and one refused for lack of room had none; any append may fail. */
  predicate Allows(u: Setup, queue: seq<Entry>, groups: seq<Emission>, outcome: StoreOutcome) {
    groups != [] ==> (outcome.Stored? ==> Room(u, queue, groups)) && (outcome.NoRoom? ==> !Room(u, queue, groups))
  }

  /** What the step comes to agrees with the room there is. */
  predicate Possible(u: Setup, s: Core, step: Step)
    requires Enabled(u, s, step)
  {
    match step
    case Read(_, times, outcome) =>
      Allows(u, s.queue, Taken(u, s.slots, Arrivals(u, s.position, times)).emissions, outcome)
    case IdleCheck(now, outcome) =>
      Allows(u, s.queue, Collect(u.assembly.value, s.slots, OnTimeout(now)).emissions, outcome)
    case FlushAll(outcome) => Allows(u, s.queue, Collect(u.assembly.value, s.slots, OnFlush).emissions, outcome)
    case DrainAndReplay(_, _, accepted) =>
      Room(u, [], Untagged(Returned(s.onDisk, REPLAY_BATCH)[..accepted]))
    case _ => true
  }

  function Collected(u: Setup, s: Core, mode: DrainMode, outcome: StoreOutcome): Core
    requires u.assembly.Some?
  {
    var p := Collect(u.assembly.value, s.slots, mode);
    Store(u, s.(slots := p.slots), p.emissions, outcome)
  }

  function Restarted(u: Setup, s: Core, end: nat): Core
    requires end <= |u.file|
  {
    var reset := s.(slots := InitialSlots, tracker := EmptyTracker, blocked := false, closing := false, log := [],
                    onDisk := Abandoned(s.onDisk));
    if Resumes(u, s) then
      var at := LinesBelow(u.file, s.checkpoint.value);
      reset.(position := at, origin := at)
    else
      reset.(position := end, origin := end,
             skipped := s.skipped + (set k | 0 <= k < end && !Covered(u, s, k) :: Line(u, k)))
  }

  function AfterRead(u: Setup, s: Core, times: seq<int>, outcome: StoreOutcome): Core
    requires s.position + |times| <= |u.file|
  {
    var p := Taken(u, s.slots, Arrivals(u, s.position, times));
    Store(u, s.(position := s.position + |times|, slots := p.slots), p.emissions, outcome)
  }

  function AfterDrain(s: Core, handled: nat, release: bool): Core
    requires handled <= |s.queue|
  {
    s.(queue := s.queue[handled..],
       settled := s.settled + EntryLines(s.queue[..handled]),
       tracker := AckOldestTimes(s.tracker, handled),
       blocked := s.blocked && !release)
  }

  /**
   The overflow store hands back its oldest lines and forgets them. As many as the buffer accepts are
   queued again, and no batch is tracked for them.
   */
  function AfterReplay(s: Core, accepted: nat): Core
    requires accepted <= |Returned(s.onDisk, REPLAY_BATCH)|
  {
    s.(queue := s.queue + Entries(Untagged(Returned(s.onDisk, REPLAY_BATCH)[..accepted]), s.lastSequence),
       lastSequence := s.lastSequence + accepted,
       onDisk := Replayed(s.onDisk, REPLAY_BATCH))
  }

  function AfterSave(u: Setup, s: Core, saved: bool): Core {
    var offset := CheckpointOffset(u, s);
    if offset.None? || !saved then s
    else s.(checkpoint := offset, tracker := Drained(s.tracker))
  }

  function Next(u: Setup, s: Core, step: Step): Core
    requires Enabled(u, s, step)
  {
    match step
    case Read(_, times, outcome) => AfterRead(u, s, times, outcome)
    case IdleCheck(now, outcome) => Collected(u, s, OnTimeout(now), outcome)
    case FlushAll(outcome) => Collected(u, s.(closing := true), OnFlush, outcome)
    case Drain(handled, release) => AfterDrain(s, handled, release)
    case DrainAndReplay(handled, release, accepted) => AfterReplay(AfterDrain(s, handled, release), accepted)
    case Tend(op) => s.(onDisk := Tended(s.onDisk, op))
    case SaveCheckpoint(saved) => AfterSave(u, s, saved)
    case Restart(end) => Restarted(u, s, end)
  }

  /** A blank line that the non-aggregating path never enqueues. */
  predicate BlankSkipped(u: Setup, k: nat)
    requires k < |u.file|
  {
    u.assembly.None? && IsBlank(u.file[k].payload)
  }

  /** The line did not get into the durable buffer: the overflow store took it, or it is lost. */
  predicate NotStored(s: Core, h: Held) {
    h in LinesIn(s.spilled) || h in s.dropped
  }

  /**
   Line `k` is delivered, adjudicated or dropped as oversized, still durable, handed to the overflow
   store, or known to be gone.
   */
  predicate Covered(u: Setup, s: Core, k: nat)
    requires k < |u.file|
  {
    || Line(u, k) in s.settled
    || Line(u, k) in EntryLines(s.queue)
    || BlankSkipped(u, k)
    || NotStored(s, Line(u, k))
    || Line(u, k) in s.skipped
  }

  /** Line `k` sits in its stream's assembler. */
  predicate HeldBack(u: Setup, s: Core, k: nat)
    requires k < |u.file|
  {
    Line(u, k) in HeldBy(s.slots, u.file[k].stream)
  }
}
