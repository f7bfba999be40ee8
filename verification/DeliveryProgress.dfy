/**
 An orderly end leaves nothing behind. When the relay settles something in every round and there are
 rounds enough for what is queued and spilled, the pipeline ends with an empty queue and nothing in
 the assemblers, so every line it has read is settled or known not to have been stored, and the save
 at the end covers everything the session stored.
 */
module DeliveryProgress {
  import opened Common
  import opened BatchTracking
  import opened StreamAssembly
  import opened StreamAssemblyRuns
  import opened SpillFiles
  import opened DeliveryProtocol
  import opened DeliverySafety
  import opened DeliverySessions
  import opened DeliveryTicks
  import opened Shipping

  // -------------------------------------------------- acknowledgements keep up with the queue

  /** No more stored groups wait for an acknowledgement than entries are queued. */
  ghost predicate Owed(s: Core) {
    exists gone: nat, acked: nat :: InStep(s, gone, acked) && |s.log| - gone - acked <= |s.queue|
  }

  lemma {:induction false} StoreOwes(u: Setup, s: Core, groups: seq<Emission>, outcome: StoreOutcome)
    requires AllNonempty(groups) && Owed(s)
    ensures Owed(Store(u, s, groups, outcome))
  {
    var gone: nat, acked: nat :| InStep(s, gone, acked) && |s.log| - gone - acked <= |s.queue|;
    StoreKeepsInStep(u, s, gone, acked, groups, outcome);
    hide InStep;
  }

  lemma {:induction false} DrainOwes(s: Core, handled: nat, release: bool)
    requires handled <= |s.queue| && Owed(s)
    ensures Owed(AfterDrain(s, handled, release))
  {
    var gone: nat, acked: nat :| InStep(s, gone, acked) && |s.log| - gone - acked <= |s.queue|;
    DrainKeepsInStep(s, gone, acked, handled, release);
    assert gone <= |s.log|;
    hide InStep;
  }

  lemma {:induction false} SaveOwes(u: Setup, s: Core, saved: bool)
    requires Owed(s)
    ensures Owed(AfterSave(u, s, saved))
  {
    if saved && CheckpointOffset(u, s).Some? {
      var gone: nat, acked: nat :| InStep(s, gone, acked) && |s.log| - gone - acked <= |s.queue|;
      SaveKeepsInStep(u, s, gone, acked);
      hide InStep;
    }
  }

  /** Only the queue, the tracker and what was stored matter, and a longer queue does no harm. */
  lemma {:induction false} OwesAlike(s: Core, t: Core)
    requires Owed(s) && t.tracker == s.tracker && t.log == s.log && |t.queue| >= |s.queue|
    ensures Owed(t)
  {
    var gone: nat, acked: nat :| InStep(s, gone, acked) && |s.log| - gone - acked <= |s.queue|;
    assert InStep(t, gone, acked);
  }

  lemma {:induction false} StepOwes(u: Setup, s: Core, step: Step)
    requires Enabled(u, s, step) && Owed(s)
    ensures Owed(Next(u, s, step))
  {
    if step.Restart? {
      assert InStep(Restarted(u, s, step.end), 0, 0);
    } else if Stores(step) {
      hide Owed;
      StoringStep(u, s, step);
      var h := Handed(u, s, step);
      OwesAlike(s, h.0);
      StoreOwes(u, h.0, h.1, step.outcome);
    } else if step.SaveCheckpoint? {
      SaveOwes(u, s, step.saved);
    } else if step.Tend? {
      OwesAlike(s, Next(u, s, step));
    } else {
      DrainOwes(s, step.handled, step.release);
      OwesAlike(AfterDrain(s, step.handled, step.release), Next(u, s, step));
    }
  }

  ghost predicate OnTrack(u: Setup, s: Core) {
    Inv(u, s) && Owed(s)
  }

  lemma {:induction false} TookKeeps(u: Setup, s: Core, step: Option<Step>, t: Core)
    requires Proper(u) && OnTrack(u, s) && Took(u, s, step, t)
    ensures OnTrack(u, t)
  {
    hide Inv, Owed, Enabled, Possible, Next, Proper;
    if step.Some? {
      StepKeepsInv(u, s, step.value);
      StepOwes(u, s, step.value);
    }
  }

  lemma {:induction false} RunsAreOnTrack(u: Setup, at: nat, trace: seq<Core>, steps: seq<Step>, i: nat)
    requires Proper(u) && at <= |u.file| && IsRun(u, trace, steps) && trace[0] == Opened(u, at) && i < |trace|
    ensures OnTrack(u, trace[i])
  {
    if i == 0 {
      OpenedInv(u, at);
      assert InStep(trace[0], 0, 0);
    } else {
      hide OnTrack, Enabled, Possible, Next;
      RunsAreOnTrack(u, at, trace, steps, i - 1);
      TookKeeps(u, trace[i - 1], Some(steps[i - 1]), trace[i]);
    }
  }

  // ------------------------------------------------------------ every round lightens the load

  /** What there is to deliver: the queued entries and the records in the overflow files. */
  ghost function Load(s: Core): nat {
    |s.queue| + |Records(s.onDisk)|
  }

  lemma {:induction false} DamageShrinks<T>(xss: seq<seq<T>>, i: nat, n: nat)
    requires i < |xss| && n <= |xss[i]|
    ensures |Flatten(xss[i := xss[i][..n]])| <= |Flatten(xss)|
  {
    var cut := xss[i := xss[i][..n]];
    if i == 0 {
      assert cut[1..] == xss[1..];
    } else {
      DamageShrinks(xss[1..], i - 1, n);
      assert cut[1..] == xss[1..][i - 1 := xss[1..][i - 1][..n]];
    }
  }

  lemma {:induction false} UpkeepAddsNothing<T>(f: Files<T>, op: Upkeep)
    requires Applies(f, op)
    ensures |Records(Tended(f, op))| <= |Records(f)|
  {
    match op
    case Rotate(n) => FlattenSnoc(f.finished, f.active.value[..n]);
    case Reset => AbandonedRecords(f);
    case Evict =>
    case Damage(i, n) => DamageShrinks(f.finished, i, n);
  }

  /** The overflow store's own doings touch its files alone, and add nothing to them. */
  lemma {:induction false} TendingTouchesFilesAlone(u: Setup, config: PipelineConfig, s: Core, ops: seq<Upkeep>,
      a: Core)
    requires config.shipBatchSize <= config.shipBatchMax && Runs(u, config, s, Tending(ops), a)
    ensures a == s.(onDisk := a.onDisk) && Load(a) <= Load(s)
    decreases |ops|
  {
    if ops != [] {
      var n := |ops| - 1;
      var front, last := Tending(ops)[..n], Tending(ops)[n];
      assert front == Tending(ops[..n]);
      var r :| Runs(u, config, s, front, r) && Leads(u, config, r, last, a);
      TendingTouchesFilesAlone(u, config, s, ops[..n], r);
      hide Runs, Records;
      if u.overflow && Applies(r.onDisk, ops[n]) {
        UpkeepAddsNothing(r.onDisk, ops[n]);
      }
    }
  }

  /** The relay settles something of what it is shown in round `i`, and the removal commits. */
  ghost predicate Obliges(u: Setup, config: PipelineConfig, e: Ending, i: nat, s: Core)
    requires config.shipBatchSize <= config.shipBatchMax && e.ShutDown?
  {
    var shown := Shown(s.queue[..PeekCount(u, config, s.queue)]);
    && e.commits(i)
    && forall outcome :: ShipsAs(shown, config.shipBatchMaxBytes, e.relays(i), outcome) ==> Handled(outcome) > 0
  }

  lemma {:induction false} PeeksSomething(u: Setup, config: PipelineConfig, queue: seq<Entry>)
    requires 1 <= config.shipBatchSize <= config.shipBatchMax && queue != []
    ensures PeekCount(u, config, queue) > 0
  {
    hide PressureOf, AdaptiveBatchSize;
  }

  lemma {:induction false} ReplayMovesRecords(u: Setup, s: Core, handled: nat, release: bool, accepted: nat)
    requires Enabled(u, s, DrainAndReplay(handled, release, accepted))
    ensures Load(Next(u, s, DrainAndReplay(handled, release, accepted))) < Load(s)
  {
    var d := AfterDrain(s, handled, release);
    var f := d.onDisk;
    ReplayHandsBackABatch(f, REPLAY_BATCH);
    FinalizedRecords(f);
    var g := Finalized(f);
    FlattenPrefix(g.finished, FilesRead(g.finished, 0, REPLAY_BATCH));
    hide Flatten, FilesRead, EntryLines, AckOldestTimes;
  }

  /** The step of a round in which something is settled. */
  lemma {:induction false} RoundSettles(u: Setup, config: PipelineConfig, e: Ending, i: nat, s: Core,
      step: Option<Step>)
    requires 1 <= config.shipBatchSize <= config.shipBatchMax && e.ShutDown? && s.queue != []
    requires Obliges(u, config, e, i, s)
    requires DrainAnswers(u, config, s, e.relays(i), e.commits(i), e.requeues(i), step)
    ensures step.Some? && (step.value.Drain? || step.value.DrainAndReplay?) && step.value.handled > 0
  {
    PeeksSomething(u, config, s.queue);
    hide PeekCount, ShipsAs, PressureOf, IsRequeued;
    var n := PeekCount(u, config, s.queue);
    var outcome :| ShipsAs(Shown(s.queue[..n]), config.shipBatchMaxBytes, e.relays(i), outcome)
      && if outcome.Deferred? || !e.commits(i) then step == None
         else step.Some? && Handled(outcome) <= n && Drains(u, s, Handled(outcome), e.requeues(i), step.value);
    assert Handled(outcome) > 0;
  }

  /** What a drain leaves alone. */
  ghost predicate SameReading(s: Core, t: Core) {
    && t.slots == s.slots && t.position == s.position && t.log == s.log
    && |t.tracker.batches| == |s.tracker.batches|
  }

  lemma {:induction false} RoundLightens(u: Setup, s: Core, step: Step)
    requires Enabled(u, s, step) && (step.Drain? || step.DrainAndReplay?) && step.handled > 0
    ensures Load(Next(u, s, step)) < Load(s) && SameReading(s, Next(u, s, step))
  {
    AckingKeepsOffsets(s.tracker, step.handled);
    hide AckOldestTimes, Records, EntryLines;
    if step.DrainAndReplay? {
      ReplayMovesRecords(u, s, step.handled, step.release, step.accepted);
    }
  }

  /** The relay obliges in every round from `i` on that is reached. */
  ghost predicate ObligesThroughout(u: Setup, config: PipelineConfig, e: Ending, i: nat, s: Core)
    requires config.shipBatchSize <= config.shipBatchMax && e.ShutDown?
    decreases if i < e.rounds then e.rounds - i else 0
  {
    i >= e.rounds || s.queue == [] ||
    forall a, b ::
      Runs(u, config, s, Tending(e.upkeep(i)), a)
      && Leads(u, config, a, DrainTick(e.relays(i), e.commits(i), e.requeues(i)), b)
      ==> Obliges(u, config, e, i, a) && ObligesThroughout(u, config, e, i + 1, b)
  }

  lemma {:induction false} OneRound(u: Setup, config: PipelineConfig, e: Ending, i: nat, s: Core, a: Core, b: Core)
    requires Proper(u) && OnTrack(u, s)
    requires 1 <= config.shipBatchSize <= config.shipBatchMax && e.ShutDown? && s.queue != []
    requires Runs(u, config, s, Tending(e.upkeep(i)), a) && Obliges(u, config, e, i, a)
    requires Leads(u, config, a, DrainTick(e.relays(i), e.commits(i), e.requeues(i)), b)
    ensures Load(b) < Load(s) && SameReading(s, b) && OnTrack(u, b)
  {
    TendingTouchesFilesAlone(u, config, s, e.upkeep(i), a);
    assert OnTrack(u, a) by {
      InvIgnores(u, s, a);
      OwesAlike(s, a);
    }
    hide Runs, OnTrack, Obliges, Load, DrainAnswers;
    var step :| Answers(u, config, a, DrainTick(e.relays(i), e.commits(i), e.requeues(i)), step) && Took(u, a, step, b);
    RoundSettles(u, config, e, i, a, step);
    RoundLightens(u, a, step.value);
    TookKeeps(u, a, step, b);
    hide Next, Enabled, Possible;
  }

  /** With as many rounds as there is load, and something settled in each, the queue ends up empty. */
  lemma {:induction false} DrainsEmptyTheQueue(u: Setup, config: PipelineConfig, e: Ending, i: nat, s: Core, t: Core)
    requires Proper(u) && OnTrack(u, s) && 1 <= config.shipBatchSize <= config.shipBatchMax && e.ShutDown?
    requires DrainsOut(u, config, e, i, s, t) && ObligesThroughout(u, config, e, i, s) && i + Load(s) <= e.rounds
    ensures t.queue == [] && SameReading(s, t) && OnTrack(u, t)
    decreases if i < e.rounds then e.rounds - i else 0
  {
    if i < e.rounds && s.queue != [] {
      hide Leads, Runs, Load, OnTrack, Obliges;
      var a, b :|
        && Runs(u, config, s, Tending(e.upkeep(i)), a)
        && Leads(u, config, a, DrainTick(e.relays(i), e.commits(i), e.requeues(i)), b)
        && DrainsOut(u, config, e, i + 1, b, t);
      OneRound(u, config, e, i, s, a, b);
      DrainsEmptyTheQueue(u, config, e, i + 1, b, t);
    }
  }

  // ----------------------------------------------------------------------- the orderly end

  ghost predicate NothingHeld(slots: seq<StreamSlot>) {
    forall i :: 0 <= i < |slots| ==> slots[i].asm.held == []
  }

  /** The state after the last read and the flush. */
  ghost predicate Flushed(u: Setup, config: PipelineConfig, e: Ending, s: Core, b: Core)
    requires config.shipBatchSize <= config.shipBatchMax && e.ShutDown?
  {
    exists a ::
      && Leads(u, config, s, ReadTick(e.grown, e.pending, e.clock, e.nowNs, e.appends.0), a)
      && Took(u, a, FlushAnswer(u, a, e.appends.1), b)
  }

  lemma {:induction false} TracksGrow(t: Tracker, inode: nat, groups: seq<Emission>, base: nat)
    requires AllNonempty(groups)
    ensures |TrackGroups(t, inode, groups, base).batches| == |t.batches| + |groups|
  {
    if groups != [] {
      TracksGrow(t, inode, groups[..|groups| - 1], base);
    }
  }

  lemma {:induction false} StoringTracks(u: Setup, s: Core, step: Step)
    requires Enabled(u, s, step) && Stores(step)
    ensures |Next(u, s, step).tracker.batches| >= |s.tracker.batches|
  {
    StoringStep(u, s, step);
    var h := Handed(u, s, step);
    hide Handed, Next;
    if h.1 != [] && step.outcome.Stored? {
      TracksGrow(h.0.tracker, u.inode, h.1, h.0.lastSequence);
    }
  }

  lemma {:induction false} FlushLeavesNothing(u: Setup, a: Core, append: Append, b: Core)
    requires OnTrack(u, a) && Took(u, a, FlushAnswer(u, a, append), b)
    ensures NothingHeld(b.slots) && |b.tracker.batches| >= |a.tracker.batches|
  {
    hide StoreAnswer, Owed, CheckpointCovers, NothingForgotten, SlotsFollowFile, BatchesBehindReader;
    if u.assembly.Some? {
      FlushEmpties(u.assembly.value, a.slots);
      StoringTracks(u, a, FlushAnswer(u, a, append).value);
      hide Collect;
    }
  }

  lemma {:induction false} ReadTracks(u: Setup, config: PipelineConfig, e: Ending, s: Core, a: Core)
    requires config.shipBatchSize <= config.shipBatchMax && e.ShutDown? && Proper(u) && OnTrack(u, s)
    requires Leads(u, config, s, ReadTick(e.grown, e.pending, e.clock, e.nowNs, e.appends.0), a)
    ensures OnTrack(u, a) && |a.tracker.batches| >= |s.tracker.batches|
  {
    hide OnTrack, ReadAnswer, Next, Enabled, Possible, Proper;
    var step :|
      && Answers(u, config, s, ReadTick(e.grown, e.pending, e.clock, e.nowNs, e.appends.0), step)
      && Took(u, s, step, a);
    TookKeeps(u, s, step, a);
    if step.Some? {
      ReadsRead(u, config.batchSize, s, e.grown, e.clock, e.appends.0);
      StoringTracks(u, s, step.value);
    }
  }

  lemma {:induction false} ReadsRead(u: Setup, batchSize: nat, s: Core, grown: nat, clock: nat -> int, append: Append)
    ensures
      var step := ReadAnswer(u, batchSize, s, grown, clock, append);
      step.Some? ==> step.value.Read?
  {
    hide StoreAnswer, Taken, Arrivals;
  }

  lemma {:induction false} SafeIsBehindTheLast(t: Tracker, live: seq<Emission>, first: nat)
    requires Tidy(t, live, first, |live|)
    ensures Drained(t).batches == [] && |t.batches| == |live| && (Safe(t).Some? <==> live != [])
    ensures live != [] ==> live[|live| - 1].lines != [] && Safe(t).value.offset == LastEnd(live[|live| - 1])
  {
    TidyAckedPrefix(t, live, first, |live|);
    if live != [] {
      var n := |live| - 1;
      assert Describes(t.batches[n], live[n], first + n, true);
    }
    hide AckedPrefix, BufferRanges;
  }

  /** With nothing queued and nothing held, a save covers everything that was stored. */
  lemma {:induction false} SaveCoversAll(u: Setup, c: Core)
    requires Owed(c) && c.queue == [] && NothingHeld(c.slots)
    ensures AfterSave(u, c, true).tracker.batches == []
    ensures c.tracker.batches != [] ==>
      && c.log != [] && c.log[|c.log| - 1].lines != []
      && AfterSave(u, c, true).checkpoint == Some(LastEnd(c.log[|c.log| - 1]))
  {
    hide Safe, Drained, BufferedStart, Describes;
    var gone: nat, acked: nat :| InStep(c, gone, acked) && |c.log| - gone - acked <= |c.queue|;
    SafeIsBehindTheLast(c.tracker, c.log[gone..], gone);
    NoneBuffered(c.slots);
  }

  /** What is left once the queue and the assemblers are empty. */
  ghost predicate Finished(u: Setup, s: Core)
    requires s.position <= |u.file|
  {
    forall k :: 0 <= k < s.position ==>
      || Line(u, k) in s.settled || BlankSkipped(u, k) || NotStored(s, Line(u, k)) || Line(u, k) in s.skipped
  }

  lemma {:induction false} EmptyIsFinished(u: Setup, s: Core)
    requires Inv(u, s) && s.queue == [] && NothingHeld(s.slots)
    ensures s.position <= |u.file| && Finished(u, s)
  {
    forall k | 0 <= k < s.position
      ensures || Line(u, k) in s.settled || BlankSkipped(u, k) || NotStored(s, Line(u, k)) || Line(u, k) in s.skipped
    {
      assert Covered(u, s, k) || HeldBack(u, s, k);
      NoneHeld(s.slots, u.file[k].stream);
    }
  }

  /**
   After an orderly end that had rounds enough, in each of which the relay settled something, nothing
   is queued and no assembler holds a line: every line read is settled, or was not stored in the
   first place. If the save succeeds no batch is left to acknowledge, and if any was tracked when the
   end began the checkpoint stands right behind the last group the session stored.
   */
  lemma {:induction false} OrderlyEndLeavesNothingBehind(u: Setup, config: PipelineConfig, e: Ending, at: nat,
      trace: seq<Core>, steps: seq<Step>, t: Core)
    requires Proper(u) && 1 <= config.shipBatchSize <= config.shipBatchMax && e.ShutDown?
    requires at <= |u.file| && IsRun(u, trace, steps) && trace[0] == Opened(u, at)
    requires ShutsDown(u, config, e, trace[|steps|], t)
    requires forall b :: Flushed(u, config, e, trace[|steps|], b) ==>
      ObligesThroughout(u, config, e, 0, b) && Load(b) <= e.rounds
    ensures t.queue == [] && NothingHeld(t.slots) && t.position <= |u.file| && Finished(u, t)
    ensures e.saves ==> t.tracker.batches == []
    ensures e.saves && trace[|steps|].tracker.batches != [] ==>
      && t.log != [] && t.log[|t.log| - 1].lines != []
      && t.checkpoint == Some(LastEnd(t.log[|t.log| - 1]))
  {
    var s := trace[|steps|];
    RunsAreOnTrack(u, at, trace, steps, |steps|);
    hide Leads, Took, DrainsOut, ObligesThroughout, Load, OnTrack, FlushAnswer, IsRun, Finished, NothingHeld, Proper;
    var a, b, c :|
      && Leads(u, config, s, ReadTick(e.grown, e.pending, e.clock, e.nowNs, e.appends.0), a)
      && Took(u, a, FlushAnswer(u, a, e.appends.1), b)
      && DrainsOut(u, config, e, 0, b, c)
      && Leads(u, config, c, CheckpointTick(e.saves), t);
    assert Flushed(u, config, e, s, b);
    ReadTracks(u, config, e, s, a);
    TookKeeps(u, a, FlushAnswer(u, a, e.appends.1), b);
    FlushLeavesNothing(u, a, e.appends.1, b);
    DrainsEmptyTheQueue(u, config, e, 0, b, c);
    SavesLast(u, config, e, c, t);
  }

  lemma {:induction false} SavesLast(u: Setup, config: PipelineConfig, e: Ending, c: Core, t: Core)
    requires config.shipBatchSize <= config.shipBatchMax && e.ShutDown? && Proper(u) && OnTrack(u, c)
    requires c.queue == [] && NothingHeld(c.slots) && Leads(u, config, c, CheckpointTick(e.saves), t)
    ensures t.queue == [] && NothingHeld(t.slots) && t.position <= |u.file| && Finished(u, t)
    ensures e.saves ==> t.tracker.batches == []
    ensures e.saves && c.tracker.batches != [] ==>
      && t.log != [] && t.log[|t.log| - 1].lines != []
      && t.checkpoint == Some(LastEnd(t.log[|t.log| - 1]))
  {
    hide Inv, Owed, Finished, NothingHeld, CheckpointOffset, Proper;
    var step := Some(SaveCheckpoint(e.saves));
    assert Took(u, c, step, t);
    TookKeeps(u, c, step, t);
    EmptyIsFinished(u, t);
    SaveCoversAll(u, c);
  }
}
