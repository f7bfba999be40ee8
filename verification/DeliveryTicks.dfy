/**
 What the file pipeline has to do at each tick, given everything the outside world decides: how the
 file has grown, what the relay answers, which commits and overflow writes succeed. Said over the
 protocol state alone, and leaving the pipeline no choice.
 */
module DeliveryTicks {
  import opened Common
  import opened LogFiles
  import opened EntryAssembly
  import opened StreamAssembly
  import opened SpillFiles
  import opened DeliveryProtocol
  import opened EntryCodec
  import opened Shipping

  /** The bytes of a group: its joined lines. */
  function Datum(g: Emission): bytes {
    Join(Lines(g.lines))
  }

  /** What a row for the group takes. */
  function RowBytes(g: Emission): nat {
    HEADER_BYTES + |Datum(g)| + |Trailer(g.stream)|
  }

  function SetupOf(file: LogFile, inode: nat, assembly: Option<AssemblerConfig>, kubernetes: bool, overflow: bool,
      maxBytes: nat): Setup {
    Setup(file, inode, assembly, kubernetes, overflow, RowBytes, maxBytes)
  }

  ghost predicate Weighs(u: Setup) {
    forall g :: u.rowBytes(g) == RowBytes(g)
  }

  // ------------------------------------------------------------------- adaptive batches

  /** How much of the range between the smallest and the largest batch the pressure is worth. */
  function Worth(pressure: real, width: nat): real {
    width as real * ((pressure - 0.1) / 0.9)
  }

  /** How many entries to peek: the minimum while pressure is low, then linearly up to the maximum. */
  function AdaptiveBatchSize(pressure: real, min: nat, max: nat): (n: nat)
    requires 0.0 <= pressure <= 1.0 && min <= max
    ensures min <= n <= max
    ensures pressure <= 0.1 ==> n == min
    ensures pressure == 1.0 ==> n == max
    ensures pressure >= 0.1 ==> (n - min) as real <= Worth(pressure, max - min) < (n - min) as real + 1.0
  {
    if pressure < 0.1 then min
    else
      WorthWithin(pressure, max - min);
      min + Worth(pressure, max - min).Floor
  }

  lemma {:induction false} WorthWithin(pressure: real, width: nat)
    requires 0.1 <= pressure <= 1.0
    ensures 0.0 <= Worth(pressure, width) <= width as real
    ensures pressure == 1.0 ==> Worth(pressure, width) == width as real
    ensures pressure == 0.1 ==> Worth(pressure, width) == 0.0
  {
    ScaleGrows(width as real, 0.0, (pressure - 0.1) / 0.9);
    ScaleGrows(width as real, (pressure - 0.1) / 0.9, 1.0);
  }

  lemma {:induction false} ScaleGrows(width: real, s: real, t: real)
    requires width >= 0.0 && s <= t
    ensures width * s <= width * t
  {
  }

  lemma {:induction false} WorthGrows(p: real, q: real, width: nat)
    requires p <= q
    ensures Worth(p, width) <= Worth(q, width)
  {
    ScaleGrows(width as real, (p - 0.1) / 0.9, (q - 0.1) / 0.9);
  }

  lemma {:induction false} MorePressureNeverShrinks(p: real, q: real, min: nat, max: nat)
    requires 0.0 <= p <= q <= 1.0 && min <= max
    ensures AdaptiveBatchSize(p, min, max) <= AdaptiveBatchSize(q, min, max)
  {
    hide AdaptiveBatchSize, Worth;
    WorthGrows(p, q, max - min);
  }

  // ---------------------------------------------------------------------- the outside world

  datatype PipelineConfig = PipelineConfig(batchSize: nat, shipBatchSize: nat, shipBatchMax: nat,
    shipBatchMaxBytes: nat)

  /** Whether an append commits, and which writes to the overflow store succeed when there is no room. */
  datatype Append = Append(commits: bool, spills: nat -> bool)

  /** When the lines the overflow store hands back were spilled, and whether storing each of them commits. */
  datatype Requeue = Requeue(timestampNs: nat -> Timestamp, commits: nat -> bool)

  /** A tick of the select loop, with everything the outside world decides about it. */
  datatype Tick =
    | ReadTick(grown: nat, pending: nat, clock: nat -> int, nowNs: Timestamp, append: Append)
    | DrainTick(relay: nat -> Reply, commits: bool, requeue: Requeue)
    | CheckpointTick(saves: bool)
    | AssemblerTick(now: int, nowNs: Timestamp, append: Append)
    | OverflowTick(op: Upkeep)

  /** A process dies, or shuts down: reads once more, flushes, drains for a number of rounds, and saves. */
  datatype Ending =
    | Crash
    | ShutDown(
        grown: nat, pending: nat, clock: nat -> int, nowNs: Timestamp, appends: (Append, Append), rounds: nat,
        upkeep: nat -> seq<Upkeep>, relays: nat -> (nat -> Reply), commits: nat -> bool, requeues: nat -> Requeue,
        saves: bool)

  /** One life of the process: where the file ends when it opens, what happens, and how it ends. */
  datatype Life = Life(end: nat, schedule: seq<Tick>, ending: Ending)

  /** One protocol step, or none. */
  ghost predicate Took(u: Setup, s: Core, step: Option<Step>, t: Core) {
    if step.None? then t == s
    else Enabled(u, s, step.value) && Possible(u, s, step.value) && t == Next(u, s, step.value)
  }

  // -------------------------------------------------------------------------- the answers

  /** No entry is too long for the buffer's length field. */
  ghost predicate AllEncodable(groups: seq<Emission>) {
    forall i :: 0 <= i < |groups| ==> |Datum(groups[i])| < U32_LIMIT
  }

  /** The groups offered to the overflow store that it takes. */
  function SpillsOf(overflow: bool, count: nat, accepts: nat -> bool): set<nat> {
    if overflow then set i | 0 <= i < count && accepts(i) else {}
  }

  /** What storing the groups comes to. */
  ghost function StoreAnswer(u: Setup, queue: seq<Entry>, groups: seq<Emission>, append: Append): StoreOutcome {
    if groups == [] then Stored
    else if !AllEncodable(groups) then StoreFailed
    else if !Room(u, queue, groups) then NoRoom(SpillsOf(u.overflow, |groups|, append.spills))
    else if append.commits then Stored
    else StoreFailed
  }

  lemma {:induction false} AnswerAllowed(u: Setup, queue: seq<Entry>, groups: seq<Emission>, append: Append)
    ensures Allows(u, queue, groups, StoreAnswer(u, queue, groups, append))
  {
    hide Room, AllEncodable;
  }

  function Clocked(clock: nat -> int, n: nat): (r: seq<int>)
    ensures |r| == n && forall i :: 0 <= i < n ==> r[i] == clock(i)
  {
    seq(n, i requires 0 <= i < n => clock(i))
  }

  /** How many lines a read takes. */
  function ReadCount(u: Setup, batchSize: nat, s: Core, grown: nat): nat {
    if s.blocked || s.position >= Min(grown, |u.file|) then 0 else Min(batchSize, Min(grown, |u.file|) - s.position)
  }

  ghost function ReadAnswer(u: Setup, batchSize: nat, s: Core, grown: nat, clock: nat -> int, append: Append):
      Option<Step> {
    var n := ReadCount(u, batchSize, s, grown);
    if n == 0 then None
    else
      var times := Clocked(clock, n);
      var taken := Taken(u, s.slots, Arrivals(u, s.position, times));
      Some(Read(n, times, StoreAnswer(u, s.queue, taken.emissions, append)))
  }

  ghost function CheckAnswer(u: Setup, s: Core, now: int, append: Append): Option<Step> {
    if u.assembly.None? then None
    else
      var p := Collect(u.assembly.value, s.slots, OnTimeout(now));
      Some(IdleCheck(now, StoreAnswer(u, s.queue, p.emissions, append)))
  }

  ghost function FlushAnswer(u: Setup, s: Core, append: Append): Option<Step> {
    if u.assembly.None? then None
    else
      var p := Collect(u.assembly.value, s.slots, OnFlush);
      Some(FlushAll(StoreAnswer(u, s.queue, p.emissions, append)))
  }

  ghost function TendAnswer(u: Setup, s: Core, op: Upkeep): Option<Step> {
    if u.overflow && Applies(s.onDisk, op) then Some(Tend(op)) else None
  }

  /** How full the queue makes the buffer; one when it may hold nothing. */
  ghost function PressureOf(u: Setup, queue: seq<Entry>): (p: real)
    ensures 0.0 <= p <= 1.0
  {
    var bytes := GroupsBytes(u, Groups(queue));
    if bytes >= u.maxBytes then 1.0 else ShareOf(bytes, u.maxBytes)
  }

  ghost function ShareOf(part: nat, whole: nat): (p: real)
    requires part < whole
    ensures 0.0 <= p < 1.0
  {
    part as real / whole as real
  }

  /** What a drain peeks. */
  ghost function PeekCount(u: Setup, config: PipelineConfig, queue: seq<Entry>): (n: nat)
    requires config.shipBatchSize <= config.shipBatchMax
    ensures n <= |queue|
  {
    Min(AdaptiveBatchSize(PressureOf(u, queue), config.shipBatchSize, config.shipBatchMax), |queue|)
  }

  function Shown(queue: seq<Entry>): (r: seq<ShipEntry>)
    ensures |r| == |queue|
    ensures forall i :: 0 <= i < |r| ==> r[i] == ShipEntry(Datum(queue[i].group), queue[i].group.stream)
  {
    seq(|queue|, i requires 0 <= i < |queue| => ShipEntry(Datum(queue[i].group), queue[i].group.stream))
  }

  /** What the overflow store hands back. */
  ghost function BackAgain(s: Core): seq<Emission> {
    Returned(s.onDisk, REPLAY_BATCH)
  }

  /** The `i`-th line handed back can be stored behind the ones before it. */
  ghost predicate Fits(u: Setup, groups: seq<Emission>, requeue: Requeue, i: nat)
    requires i < |groups|
  {
    |Datum(groups[i])| < U32_LIMIT && Room(u, [], Untagged(groups[..i + 1])) && requeue.commits(i)
  }

  /** The first `n` lines handed back are stored, up to the first that cannot be. */
  ghost predicate IsRequeued(u: Setup, groups: seq<Emission>, requeue: Requeue, n: nat) {
    && n <= |groups| && (forall i :: 0 <= i < n ==> Fits(u, groups, requeue, i))
    && (n < |groups| ==> !Fits(u, groups, requeue, n))
  }

  /** The handled prefix goes, and when that empties the queue a finished overflow file comes back. */
  ghost predicate Drains(u: Setup, s: Core, handled: nat, requeue: Requeue, step: Step)
    requires handled <= |s.queue|
  {
    var release := PressureOf(u, s.queue[handled..]) < 0.9;
    if handled == |s.queue| && u.overflow && s.onDisk.finished != [] then
      && step.DrainAndReplay? && step.handled == handled && step.release == release
      && IsRequeued(u, BackAgain(s), requeue, step.accepted)
    else step == Drain(handled, release)
  }

  ghost predicate DrainAnswers(u: Setup, config: PipelineConfig, s: Core, relay: nat -> Reply, commits: bool,
      requeue: Requeue, step: Option<Step>)
    requires config.shipBatchSize <= config.shipBatchMax
  {
    var n := PeekCount(u, config, s.queue);
    if n == 0 then step == Some(Drain(0, true))
    else
      exists outcome ::
        && ShipsAs(Shown(s.queue[..n]), config.shipBatchMaxBytes, relay, outcome)
        && if outcome.Deferred? || !commits then step == None
           else step.Some? && Handled(outcome) <= n && Drains(u, s, Handled(outcome), requeue, step.value)
  }

  /** The step a tick has to be answered with. */
  ghost predicate Answers(u: Setup, config: PipelineConfig, s: Core, tick: Tick, step: Option<Step>)
    requires config.shipBatchSize <= config.shipBatchMax
  {
    match tick
    case ReadTick(grown, _, clock, _, append) => step == ReadAnswer(u, config.batchSize, s, grown, clock, append)
    case DrainTick(relay, commits, requeue) => DrainAnswers(u, config, s, relay, commits, requeue, step)
    case CheckpointTick(saves) => step == Some(SaveCheckpoint(saves))
    case AssemblerTick(now, _, append) => step == CheckAnswer(u, s, now, append)
    case OverflowTick(op) => step == TendAnswer(u, s, op)
  }

  /** The tick leads from `s` to `t`. */
  ghost predicate Leads(u: Setup, config: PipelineConfig, s: Core, tick: Tick, t: Core)
    requires config.shipBatchSize <= config.shipBatchMax
  {
    exists step :: Answers(u, config, s, tick, step) && Took(u, s, step, t)
  }

  /** The ticks, one after another, lead from `s` to `t`. */
  ghost predicate Runs(u: Setup, config: PipelineConfig, s: Core, ticks: seq<Tick>, t: Core)
    requires config.shipBatchSize <= config.shipBatchMax
  {
    if ticks == [] then t == s
    else
      var front, last := ticks[..|ticks| - 1], ticks[|ticks| - 1];
      exists r :: Runs(u, config, s, front, r) && Leads(u, config, r, last, t)
  }

  /** Drains until the queue is empty or the rounds are used up; the store may do what it likes in between. */
  ghost predicate DrainsOut(u: Setup, config: PipelineConfig, e: Ending, i: nat, s: Core, t: Core)
    requires config.shipBatchSize <= config.shipBatchMax && e.ShutDown?
    decreases if i < e.rounds then e.rounds - i else 0
  {
    if i >= e.rounds || s.queue == [] then t == s
    else
      exists a, b ::
        && Runs(u, config, s, Tending(e.upkeep(i)), a)
        && Leads(u, config, a, DrainTick(e.relays(i), e.commits(i), e.requeues(i)), b)
        && DrainsOut(u, config, e, i + 1, b, t)
  }

  function Tending(ops: seq<Upkeep>): (r: seq<Tick>)
    ensures |r| == |ops| && forall i :: 0 <= i < |r| ==> r[i] == OverflowTick(ops[i])
  {
    seq(|ops|, i requires 0 <= i < |ops| => OverflowTick(ops[i]))
  }

  /** An orderly end: one more read, a flush, the drains, and a save. */
  ghost predicate ShutsDown(u: Setup, config: PipelineConfig, e: Ending, s: Core, t: Core)
    requires config.shipBatchSize <= config.shipBatchMax && e.ShutDown?
  {
    exists a, b, c ::
      && Leads(u, config, s, ReadTick(e.grown, e.pending, e.clock, e.nowNs, e.appends.0), a)
      && Took(u, a, FlushAnswer(u, a, e.appends.1), b)
      && DrainsOut(u, config, e, 0, b, c)
      && Leads(u, config, c, CheckpointTick(e.saves), t)
  }

  /** Where a reader with nothing to resume from starts: the end of the file as it is then. */
  function OpenEnd(u: Setup, s: Core, life: Life): nat {
    Max(Min(life.end, |u.file|), s.position)
  }

  /** The schedule and then the ending lead from `s` to `t`. */
  ghost predicate RunsToEnd(u: Setup, config: PipelineConfig, s: Core, schedule: seq<Tick>, ending: Ending, t: Core)
    requires config.shipBatchSize <= config.shipBatchMax
  {
    exists r ::
      && Runs(u, config, s, schedule, r)
      && if ending.Crash? then t == r else ShutsDown(u, config, ending, r, t)
  }

  /** One life of the process on what the state before it left behind. */
  ghost predicate Lives(u: Setup, config: PipelineConfig, s: Core, life: Life, t: Core)
    requires config.shipBatchSize <= config.shipBatchMax && s.position <= |u.file|
  {
    RunsToEnd(u, config, Restarted(u, s, OpenEnd(u, s, life)), life.schedule, life.ending, t)
  }

  ghost predicate LivesOn(u: Setup, config: PipelineConfig, s: Core, lives: seq<Life>, t: Core)
    requires config.shipBatchSize <= config.shipBatchMax
  {
    if lives == [] then t == s
    else
      var front, last := lives[..|lives| - 1], lives[|lives| - 1];
      exists r: Core ::
        LivesOn(u, config, s, front, r) && r.position <= |u.file| && Lives(u, config, r, last, t)
  }

  // ----------------------------------------------------------------- there is only one answer

  lemma {:induction false} OneRequeue(u: Setup, groups: seq<Emission>, requeue: Requeue, m: nat, n: nat)
    requires IsRequeued(u, groups, requeue, m) && IsRequeued(u, groups, requeue, n)
    ensures m == n
  {
    hide Fits;
  }

  lemma {:induction false} OneDrain(u: Setup, s: Core, handled: nat, requeue: Requeue, a: Step, b: Step)
    requires handled <= |s.queue| && Drains(u, s, handled, requeue, a) && Drains(u, s, handled, requeue, b)
    ensures a == b
  {
    hide IsRequeued, PressureOf, BackAgain;
    if a.DrainAndReplay? {
      OneRequeue(u, BackAgain(s), requeue, a.accepted, b.accepted);
    }
  }

  /** The outside world leaves the pipeline no choice. */
  lemma {:induction false} AnswersAreDetermined(u: Setup, config: PipelineConfig, s: Core, tick: Tick,
      a: Option<Step>, b: Option<Step>)
    requires config.shipBatchSize <= config.shipBatchMax
    requires Answers(u, config, s, tick, a) && Answers(u, config, s, tick, b)
    ensures a == b
  {
    if tick.DrainTick? {
      hide ReadAnswer, CheckAnswer, TendAnswer, PeekCount, ShipsAs, Drains;
      var n := PeekCount(u, config, s.queue);
      if n > 0 {
        var entries := Shown(s.queue[..n]);
        var o :| ShipsAs(entries, config.shipBatchMaxBytes, tick.relay, o)
          && if o.Deferred? || !tick.commits then a == None
             else a.Some? && Handled(o) <= n && Drains(u, s, Handled(o), tick.requeue, a.value);
        var p :| ShipsAs(entries, config.shipBatchMaxBytes, tick.relay, p)
          && if p.Deferred? || !tick.commits then b == None
             else b.Some? && Handled(p) <= n && Drains(u, s, Handled(p), tick.requeue, b.value);
        OneOutcome(entries, config.shipBatchMaxBytes, tick.relay, o, p);
        if a.Some? {
          OneDrain(u, s, Handled(o), tick.requeue, a.value, b.value);
        }
      }
    }
  }
}
