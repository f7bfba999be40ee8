# EdgePacer delivery model

A Dafny model of the parts of the EdgePacer log shipper that decide whether a log line can be lost:
the file delivery pipeline, the streaming actor, the resume of a Docker log stream, and the data
structures under them. `dafny verify dfyconfig.toml` checks all of it.

Everything the agent does not control is a parameter: what the relay answers, when clocks tick, how
much of a file there is, how large lines are, whether a commit succeeds, in which order events
interleave, what the shared overflow store does on its own, and when the process dies. The theorems
hold for all of them.

## How the modules fit together

- **File pipeline.** `DeliveryProtocol` is the pipeline as a transition system: read, idle check,
  flush, drain, checkpoint, overflow replay and crash/restart over a file, per-stream assemblers, a
  durable queue of limited size, an overflow store (`SpillFiles`), a batch tracker and a saved
  checkpoint. `DeliverySafety`,
  `DeliverySessions`, `DeliveryOrder`, `DeliveryGuarantees` and `DeliveryMonotone` prove what holds
  over every run; `DeliveryLimits`, `DeliveryBreaks`, `DeliveryLosses` and `DeliveryReplays` find
  exactly where a stronger promise stops holding. `DeliveryTicks` says which step each tick has to be
  answered with, given all that the outside world decides, and `DeliveryProgress` what an orderly end
  comes to. `DeliveryPipelines` is the object with its loops, proved to take those steps and no others;
  `ReaderOffsets` ties its reader to the ones of `DockerJson` and `ContainerReading`.
- **Streaming actor.** `StreamingProtocol` is the actor, its channel, its reader and its crashes;
  `StreamingSafety` and `StreamingOrder` prove what holds in every reachable state; `StreamingTicks`
  says what each wakeup has to come to and `StreamingProgress` what an orderly end comes to;
  `StreamingActors` is the object. `StreamingMultiline` is the assembly in front of it, and
  `StreamingReports` says which checkpoint that assembly reports.
- **Docker resume.** `DockerResume`.
- **Data structures.** `BatchTracking`, `EntryAssembly`, `BatchAssembly`, `StreamAssembly` (with its
  runs in `StreamAssemblyRuns`), `EventCuts` and `StreamCuts` (which lines make an event),
  `EntryCodec`, `SequenceBuffers`, `DiskBuffers`, `PageCache`, `QueueGauge`, `Shipping`, `Overflow`,
  `OverflowRecords`, `DockerJson`, `ContainerReading`, `AnsiStripping`, `RateLimiting`; `LogFiles`, `Utf8`, `Powers` and `Common` hold shared definitions.
  `OverflowViews` proves that the overflow store of `Overflow` is, for each source, the list of files
  of `SpillFiles` that the file pipeline works with; `OverflowSizes` when a file of it is finished.

## Where the code does less than its documentation says

Each is kept as the code has it, with the exact condition under which the promise does hold.

- Acknowledging by count is right exactly when a session starts on an empty queue and nothing is
  replayed into it (`DeliveryBreaks.DeliversExactlyOnEmptyBacklog`). A line that comes back from the
  overflow store has no batch of its own, so its shipment acknowledges another line. As long as nothing
  is spilled, that cannot happen exactly when no line is left in a finished overflow file at the start
  (`DeliveryReplays.DeliversExactlyWithoutLeftovers`); with spills, exactly when no overflow file is
  finished while the session runs (`DeliveryReplays.DeliversExactlyWithoutRotation`).
- With two streams a checkpoint can cover a line that is not delivered and can move back
  (`DeliveryBreaks.TwoStreamsBreakBoth`). It covers only delivered lines exactly when no pending batch
  starts below it (`DeliveryLimits.DeliveredExactlyWhenNonePendingBelow`), and a save moves it back
  exactly when the acked prefix ends below it; what an assembler holds is never the cause
  (`DeliveryMonotone.MovesBackExactlyWhen`).
- A reader with nothing to resume from skips to the end of the file, and a Kubernetes reader takes a
  saved offset of zero for nothing (`DeliveryBreaks.ReopenSkipsExactlyWhen`,
  `DeliveryBreaks.KubernetesZeroCheckpointSkips`).
- Lines in hand when an append is refused are not kept: nothing below the checkpoint is ever lost
  exactly when no append can be refused (`DeliveryLosses.NeverLosesExactlyWhen`).
- A persisted streaming checkpoint means "settled with the relay" exactly when no overflow store is
  configured: a line just spilled sits in the active overflow file, which the overflow test does not
  look at (`StreamingSafety.PersistedMeansSettledExactlyWhen`, `Overflow.SpilledLineGoesUnseen`).
- An idle check or a flush reports its last event's release, which can be none while an earlier event
  released a checkpoint (`StreamingReports.IdleCheckDropsARelease`). It reports the furthest exactly
  when the lines its last event finishes hold a checkpoint or those finished before hold none
  (`StreamingReports.DrainReportsTheFurthestExactlyWhen`); with a checkpoint on every line, a flush
  always does (`StreamingReports.FlushReportsTheFurthest`), and so does an idle check over two streams
  (`StreamingReports.TwoStreamsReportTheFurthest`).
- A Docker reconnect delivers exactly the lines after the one it resumes from, whatever that line is,
  exactly when timestamps never go back and lines without one are replayed only from lines before them
  (`DockerResume.ResumesExactlyWhen`).
- A batch has idle timeouts after all: lines are stamped as they are processed, so the events are those
  of the lines alone exactly when no line is processed later than the timeout after the one before it
  (`BatchAssembly.ClockPlaysNoPartExactlyWhen`, `BatchAssembly.GapSplitsAnEvent`).
- The idle shortcut of a peek hides live rows exactly when all of them are empty
  (`SequenceBuffers.PeekSeesTheOldestExactlyWhen`); entries written by `DiskBuffer` never are.
- An escape stripped in front of a multi-byte character takes its first byte along
  (`AnsiStripping.Utf8SurvivesExactlyWhen`).
- An overflow record of 2^32 bytes or more wraps its length field
  (`OverflowRecords.StreamRoundTripsExactlyWhen`). A replay removes whole files and returns one batch,
  so it loses nothing exactly when the first files that reach a batch hold exactly one
  (`Overflow.ReplayIsLosslessExactlyWhen`, `Overflow.ReplayLosesARecord`).
- The pipeline lays rejoined Docker lines end to end. A line's range is its own exactly when its
  fragments are contiguous and no earlier fragment is waiting, and the offset held back for fragments
  is the start of the earliest one exactly when everything after it is waiting too
  (`DockerJson.AssignedRangeExactlyWhen`, `DockerJson.HeldBackExactlyWhen`).

## Model

| member | source | states |
|---|---|---|
| `DeliverySafety.SavedCheckpointLosesNothing` | src/pipeline.rs:565-989 | Over every run of reads, idle checks, flushes, drains, overflow replays and upkeep, checkpoint saves and crashes with restart, any number of streams, any line sizes: the saved checkpoint is a line boundary and every line below it is settled, in the durable queue, handed to the overflow store, a skipped blank, or recorded as lost to a refused append or a tail-from-end reopen; never only in an assembler |
| `DeliverySafety.StepKeepsInv` | src/pipeline.rs:565-989 | Each single step keeps the invariant behind it, including that the reader has forgotten no line |
| `DeliveryLimits.CarefulRunsLoseNothing` | src/pipeline.rs:565-989 | When no append is refused and reopens find a checkpoint, every line below the saved checkpoint is settled, durable, handed to the overflow store or a skipped blank, over any number of crashes |
| `DeliveryLosses.NeverLosesExactlyWhen` | src/pipeline.rs:701-717 | Over all runs whose reopens resume, with or without aggregation and overflow store: no line below the checkpoint is ever lost if and only if no append can be refused |
| `DeliveryLosses.RefusedAppendLosesTheLine` | src/pipeline.rs:701-717 | From every session start and for every refusal the room allows, with or without aggregation, the run in which the refused line ends up below the checkpoint, neither settled nor queued nor spilled |
| `DeliverySessions.PendingMatchesQueue` | src/pipeline.rs:653-693 | In a session started on an empty queue with nothing replayed, the pending batches and the live queue entries correspond one for one in order, with the same sequence and byte range |
| `DeliveryGuarantees.EmptyStartDelivers` | src/pipeline.rs:933-989 | In such a session, with file-ordered events, everything below the checkpoint is delivered, adjudicated, dropped as oversized, a skipped blank, handed to the overflow store, or lost to a refused append |
| `DeliveryMonotone.CheckpointNeverMovesBack` | src/pipeline.rs:964-989 | With file-ordered events a saved checkpoint never moves back, over every run including crashes |
| `DeliveryMonotone.MovesBackExactlyWhen` | src/pipeline.rs:964-989 | Over every run, crashes and any number of streams included: a step moves the saved checkpoint back if and only if it is a committed save and the last batch of the acked prefix ends below the checkpoint |
| `DeliveryLimits.DeliveredExactlyWhenNonePendingBelow` | src/pipeline.rs:957-989 | In such a session with any number of streams and every append stored: the offered checkpoint covers only delivered lines if and only if no pending batch starts below it |
| `DeliveryBreaks.DeliversExactlyOnEmptyBacklog` | src/pipeline.rs:942-948 | With file-ordered events and nothing replayed, acks by count leave everything below the checkpoint delivered on every session if and only if the session starts on an empty queue |
| `DeliveryBreaks.BacklogBreaksDelivery` | src/pipeline.rs:942-948 | From a non-empty backlog with room for a line behind its last entry, a run whose checkpoint covers an undelivered line |
| `DeliveryReplays.DeliversExactlyWithoutLeftovers` | src/pipeline.rs:818-843 | While nothing is spilled, replays included: everything below the checkpoint is delivered on every session if and only if the session starts on an empty queue and, with an overflow store, with no line in a finished file of it |
| `DeliveryReplays.LeftoverBreaksDelivery` | src/pipeline.rs:901-903 | The run in which a line left over in a finished file comes back after a drain, and its shipment acks the line stored behind it, which the checkpoint then covers undelivered |
| `DeliveryReplays.DeliversExactlyWithoutRotation` | src/pipeline.rs:818-843 | From an empty queue and no finished file, whatever is spilled: everything below the checkpoint is delivered on every session if and only if no overflow file is finished meanwhile |
| `DeliveryReplays.RotationBreaksDelivery` | src/pipeline.rs:818-843 | The run in which a line crowded out of the buffer is spilled, its file finished, and the line replayed in the same session with that result |
| `DeliveryReplays.RunsKeepOnlySpilled` | src/overflow.rs:100-127 | In every run the overflow store holds only lines it was given |
| `DeliveryBreaks.TwoStreamsBreakBoth` | src/pipeline.rs:964-989 | A two-stream run of reads, an idle check, drains and saves whose checkpoint first covers a queued, undelivered line and then moves back |
| `DeliveryBreaks.ReopenSkipsExactlyWhen` | src/pipeline.rs:440-500 | A reopen passes over an unaccounted line if and only if there is nothing to resume from and such a line was in an assembler when the process died or was not yet read |
| `DeliveryBreaks.KubernetesZeroCheckpointSkips` | src/container_reader.rs:145-156 | A run that saves offset zero, reopens at the end of the file and so skips a line held in an assembler |
| `DeliveryPipelines.Live` | src/pipeline.rs:431-562 | Any number of processes on the same buffer, overflow store and checkpoint, each cut off anywhere or shut down in order, are one run of the protocol from its first start, ending in the returned buffer, store and checkpoint, and each tick and ending led where the outside world says; so every line below that checkpoint is accounted for |
| `DeliveryPipelines.DeliveryPipeline.Open` | src/pipeline.rs:431-520 | Opening on what was left behind is the protocol's restart |
| `DeliveryPipelines.DeliveryPipeline.Run` | src/pipeline.rs:524-562 | However it ends, the object's states are a run of the protocol, and each tick of the schedule is answered with the one step it has to be |
| `DeliveryPipelines.DeliveryPipeline.OnTick` | src/pipeline.rs:545-562 | One branch of the select loop takes the step the tick has to be answered with, or none exactly when there is none to take |
| `DeliveryPipelines.DeliveryPipeline.ReadCycle` | src/pipeline.rs:565-633 | Nothing is read exactly when reads are blocked, the file has not grown or the batch size is zero; otherwise the next lines, a batch at most, are the protocol's read step with the answer storing them has to give, whatever number of bytes of unfinished lines the reader has consumed |
| `ReaderOffsets.JsonReaderIsAhead` | src/pipeline.rs:115-124 | The json-file reader stands at the end of the lines it handed over plus its pending bytes, and every such line spans bytes, which is what the read cycle takes for granted |
| `ReaderOffsets.ContainerReaderIsAhead` | src/pipeline.rs:115-124 | So does the Kubernetes reader, counted from where it was opened |
| `DeliveryPipelines.DeliveryPipeline.ReadRaw` | src/pipeline.rs:592-601 | Without aggregation: the read step, with the answer that storing the non-blank lines has to give |
| `DeliveryPipelines.DeliveryPipeline.ReadAggregated` | src/pipeline.rs:603-632 | With aggregation: the read step, with the answer that storing the completed events has to give |
| `DeliveryPipelines.DeliveryPipeline.KeepLines` | src/pipeline.rs:653-671 | The loop keeps exactly the non-blank lines, each with its own byte range in the file |
| `DeliveryPipelines.DeliveryPipeline.BatchBytes` | src/pipeline.rs:594-597 | The batch's length is the distance between its first and last line boundary |
| `DeliveryPipelines.DeliveryPipeline.FeedLines` | src/pipeline.rs:606-626 | The loop's events and assembler states are those of feeding the lines with their true byte ranges in order |
| `DeliveryPipelines.DeliveryPipeline.Enqueue` | src/pipeline.rs:683-718 | Stored exactly when every entry is short enough, all fit and the commit succeeds; spilled where the overflow store takes them exactly when they are short enough and do not fit; failed otherwise. The new state is the protocol's for that answer |
| `DeliveryPipelines.DeliveryPipeline.Put` | src/pipeline.rs:744-761 | Stored exactly when every entry is short enough, all fit and the commit succeeds, refused for room exactly when they do not fit; the queue holds the joined bytes of each group under the group's stream, and the tracker mirrors it |
| `DeliveryPipelines.DeliveryPipeline.SpillToOverflow` | src/pipeline.rs:800-816 | Each group is offered and exactly those whose write succeeds are taken, none without a store; the active overflow file gains their bytes in order, and the caller learns whether it took them all |
| `DeliveryPipelines.DeliveryPipeline.TrackItems` | src/pipeline.rs:747-759 | The loop tracks entry by entry from the first sequence of the batch |
| `DeliveryPipelines.DeliveryPipeline.EnqueueEvents` | src/pipeline.rs:725-786 | Events are stored with ranges from first line start to last line end, with the answer storing them has to give |
| `DeliveryPipelines.DeliveryPipeline.AssemblerCheckCycle` | src/pipeline.rs:788-798 | With assemblers there is always an idle step, storing what timed out with the answer that has to give; without them there is none |
| `DeliveryPipelines.DeliveryPipeline.DrainCycle` | src/pipeline.rs:862-931 | The relay is shown a byte-capped prefix of the oldest groups, as many as the pressure calls for, halved while refused; unless the outcome is deferred or the removal fails, exactly the handled prefix leaves the queue and is acked, reads resume below a pressure of 0.9, and lines are replayed exactly when that empties the buffer and there is a store with a finished file |
| `DeliveryPipelines.DeliveryPipeline.ReplayOverflowIntoBuffer` | src/pipeline.rs:818-843 | The oldest overflow lines, a batch at most, leave the store; they come back one commit each, without a batch and without a stream, up to the first that is too long, does not fit or fails to commit, and no earlier |
| `DeliveryPipelines.DeliveryPipeline.TendOverflow` | src/overflow.rs:140-228 | A rotation, eviction, reset or damage of the overflow files is a step of the protocol, taken exactly when there is a store and it applies |
| `DeliveryPipelines.DeliveryPipeline.DeleteAndAckPrefix` | src/pipeline.rs:933-948 | Deleting the handled sequences and acking by count is the drain step, and reads resume exactly below a pressure of 0.9 |
| `DeliveryPipelines.DeliveryPipeline.AckHandled` | src/pipeline.rs:942-948 | The loop acks the oldest pending batch as many times as entries were handled |
| `DeliveryPipelines.DeliveryPipeline.CheckpointCycle` | src/pipeline.rs:964-989 | With a save that succeeds and an acked prefix, the saved offset is that prefix's end or the lowest held start, whichever is lower, and the prefix leaves the tracker so that none is left; otherwise nothing changes |
| `DeliveryPipelines.DeliveryPipeline.Shutdown` | src/pipeline.rs:992-1016 | One more read, a flush, drains until the buffer is empty or the rounds are used up, and a save, each answered as it has to be, are a run of the protocol |
| `DeliveryTicks.AnswersAreDetermined` | src/pipeline.rs:545-562 | The file, the clock, the relay, the commits and the overflow writes leave the pipeline one answer to each tick |
| `DeliveryProgress.OrderlyEndLeavesNothingBehind` | src/pipeline.rs:992-1016 | From every reachable state: after an orderly end with as many rounds as entries are queued or spilled, the relay settling something in each, nothing is queued and no assembler holds a line, so every line read is settled or was not stored in the first place; if the save succeeds no batch is left, and the checkpoint stands right behind the last group stored |
| `DeliveryProgress.RunsAreOnTrack` | src/pipeline.rs:933-948 | In every run, replays and restarts included, no more stored groups wait for an acknowledgement than entries are queued |
| `DeliveryProgress.DrainsEmptyTheQueue` | src/pipeline.rs:1004-1012 | Rounds that each settle something empty the queue, though lines come back from the overflow store meanwhile |
| `DeliveryPipelines.DeliveryPipeline.DrainOut` | src/pipeline.rs:1004-1012 | The loop drains until the buffer is empty or the rounds are used up |
| `DeliveryPipelines.DeliveryPipeline.FlushAssemblers` | src/pipeline.rs:995-1002 | With assemblers everything they hold is stored, with the answer that has to give; without them nothing happens |
| `DeliveryPipelines.DeliveryPipeline.SettlePrefix` | src/pipeline.rs:894-903 | The handled entries and no others are removed, and a replay follows exactly when that empties the buffer and there is a store with a finished file |
| `DeliveryPipelines.DroppingPrefix` | src/pipeline.rs:934 | Deleting the oldest entries by sequence leaves exactly the others in order |
| `DeliveryPipelines.ShowsTheOldest` | src/pipeline.rs:880-895 | What the shipper is given is the joined lines of the oldest queued groups under their streams |
| `DeliveryTicks.AdaptiveBatchSize` | src/pipeline.rs:847-859 | The minimum up to a pressure of 0.1, the maximum at full pressure, and between them the whole part of the linear share of the range |
| `DeliveryTicks.MorePressureNeverShrinks` | src/pipeline.rs:847-859 | More pressure never means a smaller batch |
| `StreamingSafety.CheckpointsCoverNoLostLine` | src/streaming_actor.rs:185-309 | In every reachable state, crashes, blocked intake and forced shutdown included: the persisted checkpoint covers only blank, settled or spilled lines, the pending one only durable lines |
| `StreamingSafety.PersistedMeansSettled` | src/streaming_pipeline.rs:393-418 | Without an overflow store the persisted checkpoint covers only blank lines and lines the relay settled |
| `StreamingSafety.PersistedMeansSettledExactlyWhen` | src/streaming_pipeline.rs:182-202 | That holds on every run if and only if no overflow store is configured |
| `StreamingSafety.CrowdedOutLineIsCovered` | src/streaming_pipeline.rs:303-313 | The run in which a line finds no room behind another, is spilled, and is covered by the checkpoint persisted once the other is settled, though no relay has seen it |
| `StreamingSafety.SpilledLineIsCovered` | src/streaming_pipeline.rs:303-313 | The same with a single line larger than the whole buffer |
| `StreamingSafety.StepKeepsInv` | src/streaming_actor.rs:14-24 | Each step keeps it that a checkpoint anywhere, sent or pending, is preceded by every line it covers |
| `StreamingSafety.RemainingKeepsInv` | src/streaming_actor.rs:285-309 | Working off the channel at shutdown keeps it, stopping at the first line there is no room for |
| `StreamingOrder.EveryLineIsSomewhere` | src/streaming_actor.rs:185-273 | Without an overflow store: backlog and accepted lines are, in order, the settled, the buffered, the held-back, the queued and the given-up ones |
| `StreamingOrder.EveryAcceptedLineIsSomewhere` | src/streaming_actor.rs:185-273 | With or without an overflow store: every backlog line and every accepted non-blank line is settled, spilled, buffered, held back, in the channel or given up |
| `StreamingOrder.InFlightIsTheOldestPrefix` | src/streaming_actor.rs:195-256 | At most one ship is in flight, its sequences are the oldest prefix of the buffer until its outcome is applied, and the channel is within capacity |
| `StreamingActors.Live` | src/streaming_actor.rs:185-278 | Any number of processes ending in shutdown or crash are one run of the protocol ending in the returned buffer and checkpoint, each wakeup and ending having led where the outside world says; so every line below that checkpoint is blank, settled or spilled |
| `StreamingActors.StreamingActor.Start` | src/streaming_pipeline.rs:107-141 | A process starts on the buffer, overflow and checkpoint the last one left |
| `StreamingActors.StreamingActor.Run` | src/streaming_actor.rs:212-278 | Over any schedule of events the object's states are a run of the protocol, and each event leads where it has to until the loop ends |
| `StreamingActors.StreamingActor.OnEvent` | src/streaming_actor.rs:212-256 | One turn of the select loop leads from the state and the wedge timer to the ones it has to, and the loop ends only on closure or a forced shutdown |
| `StreamingActors.StreamingActor.OnReader` | src/streaming_actor.rs:102-135 | A send is taken exactly when the channel is open and has capacity and the reader has resumed; a checkpoint, moreover, exactly when it covers only lines the reader has sent |
| `StreamingActors.StreamingActor.OnReceive` | src/streaming_actor.rs:214-228 | Handling a command is the protocol's receive step with the room there is for its line |
| `StreamingActors.StreamingActor.OnShipDone` | src/streaming_actor.rs:229-233 | The relay was shown a byte-capped prefix of the oldest entries, halved while refused; what it settled leaves the buffer, and the held-back line is tried again |
| `StreamingActors.StreamingActor.OnTick` | src/streaming_actor.rs:234-254 | The held-back line is tried again, a ship is started unless one is in flight, and shutdown is forced exactly when a line is still held back, all handles are gone and the grace has passed since the wedge was first seen |
| `StreamingActors.StreamingActor.EnqueueLine` | src/streaming_pipeline.rs:182-202 | A blank line is dropped; one short enough that fits and commits joins the end of the buffer; one short enough that does not fit is spilled exactly when there is a store and the write succeeds; anything else is refused and changes nothing |
| `StreamingActors.StreamingActor.RetryBlocked` | src/streaming_actor.rs:325-334 | The held-back line is stored, spilled or held back again, by the room there is for it |
| `StreamingActors.StreamingActor.ReplayOverflow` | src/streaming_pipeline.rs:249-275 | The spilled lines handed back join the end of the buffer without their stream, up to the first that is too long, does not fit or fails to commit, and no earlier |
| `StreamingActors.StreamingActor.SaveCheckpointIfPending` | src/streaming_pipeline.rs:393-418 | The pending checkpoint is persisted only over an empty buffer |
| `StreamingActors.StreamingActor.ApplyDrainOutcome` | src/streaming_pipeline.rs:328-371 | Exactly the handled sequences leave the buffer if the removal commits, and an emptied buffer replays overflow and saves the pending checkpoint |
| `StreamingActors.StreamingActor.PrepareDrain` | src/streaming_pipeline.rs:303-324 | Unless a ship is in flight one of the oldest entries is started, or an empty buffer is idle time |
| `StreamingActors.StreamingActor.SettleAll` | src/streaming_actor.rs:262-273 | Waiting for the ship or abandoning it, retrying the held-back line and working off the channel by the room there is |
| `StreamingActors.StreamingActor.DrainRemainingCommands` | src/streaming_actor.rs:285-309 | Commands are handled in order up to the first line there is no room for; that one and the rest are dropped |
| `StreamingActors.StreamingActor.DrainCycle` | src/streaming_pipeline.rs:379-387 | An inline drain shows the relay the oldest entries and removes what it settles, or is idle time |
| `StreamingActors.StreamingActor.ShutDown` | src/streaming_pipeline.rs:428-452 | Settling, drains until the buffer is empty or the rounds are used up, and a save are a run of the protocol, each led where it has to |
| `StreamingActors.StreamingActor.HandleCommand` | src/streaming_actor.rs:215-225 | The command at the front is handled: its line by the room there is for it, its checkpoint made the pending one, its question answered |
| `StreamingTicks.LeadsToOneMoment` | src/streaming_actor.rs:212-256 | The reader, the relay, the commits, the overflow store and the clock leave the actor one outcome of each event |
| `StreamingProgress.OrderlyEndLeavesNothingBehind` | src/streaming_actor.rs:262-309 | From every reachable state: when the line held back and those in the channel fit, nothing comes back from overflow, there are rounds enough and the relay settles something in each, then nothing is left in the buffer or the channel, nothing is given up or spilled, each line accepted is settled, spilled or was given up before, and a save that succeeds persists the newest checkpoint sent |
| `StreamingProgress.WorksOffEverything` | src/streaming_actor.rs:285-309 | With room for all of its lines the channel is worked off to the end, every line stored and the newest checkpoint pending |
| `StreamingProgress.DrainsEmptyTheBuffer` | src/streaming_pipeline.rs:428-452 | Rounds that each settle something empty the buffer and change nothing else but what is persisted |
| `StreamingMultiline.ReleasesAreHonest` | src/streaming_multiline.rs:105-252 | Over every run of lines, idle checks and flushes: each event sent releases only a checkpoint whose line and every earlier line is in an event already sent |
| `StreamingMultiline.ConsumeLinks` | src/streaming_multiline.rs:213-236 | Sending an event marks exactly its own lines as finished |
| `StreamingReports.DrainReportsTheFurthestExactlyWhen` | src/streaming_multiline.rs:188-201 | In every tracked state, for an idle check or a flush: the reported checkpoint is the furthest released if and only if the lines the last event finishes hold a checkpoint or those finished before hold none |
| `StreamingReports.CheckpointedReportsExactlyWhen` | src/streaming_multiline.rs:188-201 | With a checkpoint on every line: if and only if the other events finish nothing or the oldest line they leave pending is of the last event's stream |
| `StreamingReports.FlushReportsTheFurthest` | src/streaming_multiline.rs:188-201 | A flush's furthest release is the last checkpoint pending, reported if and only if the lines left to its last event hold one or the others hold none, so always when every line has one |
| `StreamingReports.TwoStreamsReportTheFurthest` | src/streaming_multiline.rs:188-201 | With lines of two streams and a checkpoint on each, an idle check or a flush always reports the furthest release |
| `StreamingReports.IdleCheckDropsARelease` | src/streaming_multiline.rs:188-201 | A run of one line on each of two streams, the second without a checkpoint, whose idle check reports nothing although a checkpoint was released |
| `StreamingMultiline.StreamingEntryAssembler.ConsumePending` | src/streaming_multiline.rs:216-252 | The two loops mark the oldest waiting lines of the stream and pop the finished prefix |
| `StreamingMultiline.StreamingEntryAssembler.ProcessStreamLine` | src/streaming_multiline.rs:105-135 | A line passes straight through, or joins its stream's assembler and may send an event |
| `StreamingMultiline.StreamingEntryAssembler.EmitAll` | src/streaming_multiline.rs:191-201 | Events are sent in turn and the last release is reported |
| `StreamingMultiline.StreamingEntryAssembler.Drain` | src/streaming_multiline.rs:137-151 | An idle check or a flush sends what the assemblers give up |
| `DockerResume.ChainIsExact` | src/docker_stream.rs:120-170 | If timestamps never go back: across any chain of connections, each from the beginning or from a line any earlier one delivered, every connection delivers each later line once with the occurrence numbers of an uninterrupted read, and no earlier line that has a timestamp |
| `DockerResume.ResumeIsExact` | src/docker_stream.rs:139-165 | A fence made from line k skips exactly the replayed lines up to k that have a timestamp |
| `DockerResume.FirstReadIsExact` | src/docker_stream.rs:126-170 | A connection with nothing to resume from is an uninterrupted read |
| `DockerResume.SecondsAskEarlyEnough` | src/docker_stream.rs:457-467 | Asking by the whole second is early enough for every line from that time on |
| `DockerResume.WithoutOccurrenceRepeatsTheGroup` | src/streaming_checkpoint.rs:45-51 | A checkpoint without an occurrence repeats every line of its timestamp and skips exactly the earlier ones |
| `DockerResume.ResumesExactlyWhen` | src/docker_stream.rs:139-165 | For every log: each reconnect delivers exactly the lines after the one it resumes from if and only if timestamps never go back and lines without one are replayed only from lines before them; empty lines play no part |
| `DockerResume.BackwardsTimestampHidesALine` | src/docker_stream.rs:156-163 | In every log whose timestamps go back there is a line that a reconnect from an earlier one never delivers |
| `DockerResume.DockerResumeBoundary.ShouldSkip` | src/docker_stream.rs:139-165 | The fence's answer and new state, unparsable timestamps included |
| `DockerResume.StreamContainerLogs` | src/docker_stream.rs:237-275 | The loop delivers what the replay holds and the fence lets through, each line with its checkpoint, lines without a timestamp and empty ones included |
| `BatchTracking.EveryRunIsConsistent` | src/batch_tracker.rs:77-188 | Over every run, drained batches followed by tracked ones are all batches ever tracked, in order and under consecutive keys, and only acked ones were drained |
| `BatchTracking.SafeCheckpointIsConsecutive` | src/batch_tracker.rs:131-157 | The offered checkpoint ends the longest all-acked prefix of everything ever tracked, with its buffer sequences |
| `BatchTracking.BatchTracker.Track` | src/batch_tracker.rs:77-103 | A new batch is pending under the next key |
| `BatchTracking.BatchTracker.Ack` | src/batch_tracker.rs:107-113 | Only the named batch changes, and the safe prefix grows exactly when that batch was the one that ends it |
| `BatchTracking.BatchTracker.Fail` | src/batch_tracker.rs:117-123 | Only the named batch changes, and the safe prefix shrinks exactly when the batch was in it, then ending at it |
| `BatchTracking.BatchTracker.ComputeSafeCheckpoint` | src/batch_tracker.rs:131-157 | The loop finds the end of the longest acked prefix and its buffer ranges |
| `BatchTracking.BatchTracker.DrainAcked` | src/batch_tracker.rs:163-188 | The loop removes precisely that prefix |
| `BatchTracking.BatchTracker.OldestPendingSequence` | src/batch_tracker.rs:222-227 | The first pending key, if any |
| `BatchTracking.BatchTracker.AckHandled` | src/pipeline.rs:942-948 | Acks as many of the oldest pending batches as entries were handled |
| `StreamAssemblyRuns.EveryInterleavingConserves` | src/pipeline.rs:243-310 | For every interleaving: a stream's events followed by its buffered lines are its input lines in order, and no event is empty, over the cap or mixed |
| `StreamAssemblyRuns.BufferedStartIsLowestUnemitted` | src/pipeline.rs:304-309 | The buffered start offset is the lowest start of any line read but not emitted, and absent exactly when there is none |
| `StreamAssembly.StreamAssemblers.ForStream` | src/pipeline.rs:267-286 | The stream's own assembler, created on first sight |
| `StreamAssembly.StreamAssemblers.Process` | src/pipeline.rs:617-625 | A line reaches its stream's assembler and no other |
| `StreamAssembly.StreamAssemblers.CollectReady` | src/pipeline.rs:288-302 | Every assembler is drained, events in slot order with their streams |
| `StreamAssembly.StreamAssemblers.BufferedStartOffset` | src/pipeline.rs:304-309 | The loop finds the lowest buffered start over all streams |
| `EntryAssembly.EntryAssembler.Process` | src/entry_assembler.rs:167-191 | The event in progress is emitted exactly when the line is a start, the buffer is full, or the line comes later than the timeout after the one before it; the line then begins the next event, and otherwise joins the buffer |
| `EntryAssembly.EntryAssembler.CheckTimeout` | src/entry_assembler.rs:195-205 | The event in progress is emitted exactly when its last line is older than the timeout |
| `EntryAssembly.EntryAssembler.Flush` | src/entry_assembler.rs:208-213 | The event in progress is emitted, if there is one |
| `EntryAssembly.EntryAssembler.DrainCurrent` | src/entry_assembler.rs:229-253 | The event is the joined lines with the first and the last line's range and their number, and the assembler is idle again |
| `EntryAssembly.EntryAssembler.BufferedStartOffset` | src/entry_assembler.rs:225-227 | The start of the oldest buffered line |
| `EntryAssembly.JoinWithNewline` | src/entry_assembler.rs:258-274 | Lines separated by single line feeds |
| `EntryAssembly.JoinRoundTrip` | src/entry_assembler.rs:258-274 | The lines of an event can be told apart again |
| `BatchAssembly.AssembleBatch` | src/entry_assembler.rs:49-77 | For every clock the events are the joined groups of the one right cut of the lines as they arrive; without multi-line settings the lines themselves |
| `BatchAssembly.ClockPlaysNoPartExactlyWhen` | src/entry_assembler.rs:40-58 | On every batch of a given length the events are those of a clock that stands still, if and only if no line is processed later than the timeout after the one before it |
| `BatchAssembly.GapSplitsAnEvent` | src/entry_assembler.rs:44-58 | The batch that comes out differently under a gap: a start and a line that continues it, on either side |
| `EventCuts.CutIsUnique` | src/entry_assembler.rs:167-191 | There is only one cut into events of at most the cap that break where a line is a start, comes after a gap longer than the timeout, or was set apart by an idle check or a flush, and nowhere else short of the cap |
| `EventCuts.EveryRunIsTheCut` | src/entry_assembler.rs:167-213 | Over every run of lines, idle checks and flushes at any times: the events emitted and the lines held after them are that cut of the lines |
| `StreamCuts.EveryStreamIsCutRightly` | src/pipeline.rs:243-310 | For every interleaving of streams: each stream's events, and the lines its assembler holds, are that cut of the stream's own lines |
| `SequenceBuffers.SequenceBuffer.Open` | src/sqlite_sequence_buffer.rs:119-163 | Counters and cache fit the table found on disk |
| `SequenceBuffers.SequenceBuffer.Append` | src/sqlite_sequence_buffer.rs:216-273 | All rows under fresh consecutive sequences, or none and why; counters, gauge and cache follow |
| `SequenceBuffers.SequenceBuffer.InsertAll` | src/sqlite_sequence_buffer.rs:242-256 | The insert loop numbers rows from the last sequence ever handed out |
| `SequenceBuffers.SequenceBuffer.PeekRaw` | src/sqlite_sequence_buffer.rs:275-301 | The oldest rows, or none when the live bytes are zero |
| `SequenceBuffers.SequenceBuffer.DeleteSequences` | src/sqlite_sequence_buffer.rs:303-358 | One set deletion; what it frees is what the table lost |
| `SequenceBuffers.SequenceBuffer.DeleteChunks` | src/sqlite_sequence_buffer.rs:323-341 | Deleting in chunks of 500 is deleting all at once |
| `SequenceBuffers.SequenceBuffer.SetGauge` | src/sqlite_sequence_buffer.rs:169-172 | Attaching seeds the gauge with the backlog |
| `SequenceBuffers.SequenceBuffer.Drop` | src/sqlite_sequence_buffer.rs:108-114 | Dropping takes the remaining bytes off the gauge |
| `SequenceBuffers.SequenceBuffer.ResizeCache` | src/sqlite_sequence_buffer.rs:187-214 | Afterwards the cache is within bounds with the desired size in its band |
| `SequenceBuffers.SequenceBuffer.Pressure` | src/sqlite_sequence_buffer.rs:368-373 | Between zero and one, and one exactly when full |
| `SequenceBuffers.PeekSeesTheOldestExactlyWhen` | src/sqlite_sequence_buffer.rs:279-283 | A peek shows the oldest rows if and only if there are none or some row is not empty |
| `SequenceBuffers.WithoutTwice` | src/sqlite_sequence_buffer.rs:327-341 | Deleting one list and then another is deleting both |
| `EntryCodec.RoundTrip` | src/buffer.rs:95-129 | Every storable line comes back with its timestamp and stream |
| `EntryCodec.Encode` | src/buffer.rs:88-107 | An encoding exists exactly for lines the length field can hold |
| `EntryCodec.TrailerIsOptional` | src/buffer.rs:83-87 | Entries without the trailer read as having no stream |
| `EntryCodec.TruncatedIsRefused` | src/buffer.rs:109-117 | An entry cut before the end of its data is refused |
| `DiskBuffers.QueueIsWhatSurvives` | src/buffer.rs:206-301 | Over every run of enqueues, deletes and reopens: the queue is exactly the lines ever enqueued and not deleted since, oldest first, under their own sequences |
| `DiskBuffers.SequencesNeverReused` | src/sqlite_sequence_buffer.rs:236-238 | In every run of enqueues, deletes and reopens, each sequence handed out is above all handed out before |
| `DiskBuffers.DiskBuffer.EnqueueStreamBatch` | src/buffer.rs:227-262 | All lines join the end of the queue, or none and the exact error |
| `DiskBuffers.DiskBuffer.Peek` | src/buffer.rs:267-280 | The front of the queue decoded exactly; a foreign row is reported as corrupt |
| `DiskBuffers.DiskBuffer.DeleteSequences` | src/buffer.rs:286-301 | Exactly the named entries leave the queue |
| `DiskBuffers.DiskBuffer.OpenWithCache` | src/buffer.rs:181-204 | Reopening shows the queue that was left |
| `PageCache.EverySizeFits` | src/sqlite_sequence_buffer.rs:187-214 | After open and every change of the backlog the cache is between floor and ceiling with the desired size in its two-fold band |
| `PageCache.GrowthChangesFewTimes` | src/sqlite_sequence_buffer.rs:198-205 | A stretch of growing backlog resizes the cache at most log2(ceiling / floor) times |
| `QueueGauge.GaugeIsExact` | src/counters.rs:65-82 | Through any run over any number of buffers the gauge is their sum plus what re-attaching counted twice, and no subtraction saturates |
| `QueueGauge.GaugeIsTheSumExactlyWhen` | src/counters.rs:56-63 | The gauge is the sum if and only if no non-empty buffer was attached twice |
| `Shipping.ByteCappedTake` | src/shipper.rs:99-113 | The longest prefix within the cap, or the first entry alone |
| `Shipping.CappedTakeUnique` | src/shipper.rs:94-98 | There is only one such prefix |
| `Shipping.Shipper.ShipCappedWithShrink` | src/shipper.rs:526-622 | For every relay: attempt k sends n / 2^k entries, all but the last are refused as too large, the outcome is what the last reply settles, and the tally grows by exactly the settled prefix |
| `Shipping.ExchangeIsSafe` | src/shipper.rs:526-622 | At most floor(log2 n) + 1 refusals (section 15.5.14 of RFC 9110), a handled count is the last prefix sent, and an entry is dropped only after a refusal of it alone |
| `Shipping.ExchangeUnique` | src/shipper.rs:539-622 | The relay's answers determine the exchange |
| `Shipping.TallyCountsSettledOnce` | src/shipper.rs:698-702 | Over every run of drains the counters grow by the tally of exactly the settled entries, each once |
| `Shipping.SplitIsAPartition` | src/shipper.rs:652-677 | Every entry is tallied under exactly one variant |
| `Shipping.Shipper.TallyBatch` | src/shipper.rs:647-677 | The loop's counts are those of the batch |
| `Overflow.TotalIsExact` | src/overflow.rs:52-247 | In every run of writes, replays, resets and restarts the running total is the size of the files nobody writes to, every writer's file is on disk, and every write leaves the total within budget |
| `Overflow.RecordsAreConserved` | src/overflow.rs:52-228 | In every run each record written is on disk, was handed back once, or went by eviction, by a replay past its batch size, or in an abandoned file |
| `Overflow.EvictionTakesOldestAndNoMore` | src/overflow.rs:173-201 | Over one listing: files being written to stay, nothing evicted is younger than a finished file kept, and without the last eviction the budget would be exceeded |
| `Overflow.EvictionIsExact` | src/overflow.rs:76-80 | The eviction loop ends within budget with an exact total and the files the budget allows |
| `Overflow.WriteKeepsActiveFiles` | src/overflow.rs:182-187 | A write never evicts another source's active file, though it is in the same listing |
| `Overflow.ReplayReturnsTheOldest` | src/overflow.rs:100-127 | A replay returns the oldest records the source has on disk, in order, as many as a batch holds |
| `Overflow.ReplayIsLosslessExactlyWhen` | src/overflow.rs:112-125 | A replay loses nothing if and only if the first of the source's files, by name, that together reach a batch hold exactly a batch, or all of them hold less |
| `Overflow.DueInOrder` | src/overflow.rs:318-330 | Every sound store's due files of a source can be put in name order, so the two results above speak of every store |
| `Overflow.ReplayLosesARecord` | src/overflow.rs:112-125 | For every batch size: the run in which one record more than a batch is written and a replay loses the last |
| `Overflow.ReopenCountsAsReset` | src/overflow.rs:230-247 | What a new process counts is what a reset in the old one would have counted |
| `Overflow.SpilledLineGoesUnseen` | src/overflow.rs:85-98 | A line just spilled is in the active file, which the overflow test passes over |
| `OverflowSizes.ActiveFilesStaySmall` | src/overflow.rs:52-83 | In every run of writes, replays, resets and restarts each active file is below the file size, and its writer has counted exactly the bytes of the records in it |
| `OverflowSizes.FinishesExactlyWhen` | src/overflow.rs:65-74 | A write finishes its file and opens the next if and only if it brings the file to its size |
| `Overflow.Writer.constructor` | src/overflow.rs:230-247 | Opening scans the sizes of what is there |
| `Overflow.Writer.Write` | src/overflow.rs:52-83 | Append, rotate when full, evict: the specification's new store, within budget |
| `Overflow.Writer.Fill` | src/overflow.rs:59-74 | A missing file is opened, the record appended, and a file at its size limit rotated |
| `Overflow.Writer.OpenNewFile` | src/overflow.rs:155-171 | A new empty file joins the listing as the active file of its source |
| `Overflow.Writer.CloseSource` | src/overflow.rs:140-147 | The active file gets its final size and is counted, and the source has none |
| `Overflow.Writer.RotateSource` | src/overflow.rs:140-153 | The active file becomes a finished one and a new one is opened |
| `Overflow.Writer.FindOldest` | src/overflow.rs:173-190 | The walk over the listing finds the oldest-named file nobody writes to |
| `Overflow.Writer.EvictOldest` | src/overflow.rs:173-201 | That file is removed and taken off the total; false exactly when there is none |
| `Overflow.Writer.EvictToBudget` | src/overflow.rs:76-80 | The loop evicts until within budget or nothing is left |
| `Overflow.Writer.ReplayBatch` | src/overflow.rs:100-127 | Finalize, then read and remove files until a batch is full |
| `Overflow.Writer.ReadFiles` | src/overflow.rs:107-127 | The loop takes the source's oldest files one by one and cuts what it read at the batch size |
| `Overflow.Writer.Overflows` | src/overflow.rs:85-98 | True exactly when the source has a finished file |
| `Overflow.Writer.ResetActiveWriters` | src/overflow.rs:208-228 | Every active file becomes a finished one and is counted |
| `OverflowViews.RunsAreSeen` | src/overflow.rs:52-247 | In every run whose file names rise, each source's files are at every moment what a list of finished files and an active one becomes under writes, rotations, evictions, replays, resets and damage, in the order of the run |
| `OverflowViews.StepSeen` | src/overflow.rs:52-247 | Each operation on the store is, for each source, a few operations on that list: its own writes write, rotate and evict, its replays replay, other sources only ever evict |
| `OverflowViews.ReplaySeesTheFiles` | src/overflow.rs:85-127 | The overflow test and the records a replay hands back are those of the list |
| `SpillFiles.ReplayHandsBackABatch` | src/overflow.rs:100-127 | A replay of the list hands back exactly the oldest records there are, a batch of them if there are as many |
| `SpillFiles.ReplayReachesARecord` | src/overflow.rs:100-127 | While a finished file holds a record, a replay hands back the oldest one, empty files notwithstanding |
| `OverflowRecords.PrefixSalvagesWholeRecords` | src/overflow.rs:337-384 | From any byte prefix of a stream exactly the records lying wholly inside it are read |
| `OverflowRecords.WholeWithinIsMost` | src/overflow.rs:332-336 | Those records fit in the prefix and one more does not |
| `OverflowRecords.StreamRoundTripsExactlyWhen` | src/overflow.rs:303-310 | A stream reads back as written if and only if every record fits its length field |
| `OverflowRecords.ReadEntireFile` | src/overflow.rs:337-384 | The loop reads until the first thing that is not a whole record |
| `DockerJson.StreamsAreIndependent` | src/cri.rs:162-203 | Each stream's lines are those of its own records alone, however they are interleaved |
| `DockerJson.AloneIsWholeLines` | src/cri.rs:175-200 | One stream's lines are the runs of fragments closed by complete records |
| `DockerJson.EveryByteCounted` | src/cri.rs:205-210 | Emitted source lengths plus pending bytes are the raw bytes consumed |
| `DockerJson.BatchesLieEndToEnd` | src/pipeline.rs:585-597 | However reads are cut into batches, the start computed for a batch is the end of the lines before it |
| `DockerJson.AssignedRangeExactlyWhen` | src/pipeline.rs:592-601 | The range assigned to a rejoined line runs from its first fragment to its last record if and only if nothing lies between its fragments and no earlier fragment was waiting |
| `DockerJson.HeldBackExactlyWhen` | src/pipeline.rs:585-590 | The offset held back for pending fragments is the start of the earliest one if and only if every raw line from it on is waiting, and is past it otherwise |
| `DockerJson.InterleavedRangeIsWrong` | src/pipeline.rs:585-597 | One stream's fragment in front of another's record: the record is given the first bytes of the file |
| `DockerJson.DockerJsonReassembler.PushRaw` | src/cri.rs:175-200 | A raw line passes through, is buffered, or completes its stream's line |
| `DockerJson.DockerJsonReassembler.BufferFor` | src/cri.rs:212-226 | The stream's own buffer, created on first sight |
| `DockerJson.DockerJsonReassembler.ComputePendingBytes` | src/cri.rs:205-210 | The loop sums the waiting fragments over all streams |
| `ContainerReading.BatchesMatchTheSample` | src/container_reader.rs:71-122 | Reads in batches of any sizes give a prefix of the one-pass result, and all of it at the end of the file |
| `ContainerReading.EveryByteCounted` | src/container_reader.rs:134-136 | Emitted lines and held-back fragments account for every byte read |
| `ContainerReading.LinesAreWholeMessages` | src/container_reader.rs:71-122 | However far the file is read: its physical lines are taken in order, and each line handed over is the stripped and shortened text of all fragments of one message and the record that closes it, under that record's stream and with all their bytes; what is left over are fragments still waiting for theirs |
| `ContainerReading.MessagesAreUnique` | src/cri.rs:91-108 | There is only one way to tell the messages of a list of physical lines apart |
| `ContainerReading.TrimsTheEnding` | src/container_reader.rs:85-92 | One line ending comes off, LF or CR LF, and nothing else does |
| `ContainerReading.ShortensToAMebibyte` | src/container_reader.rs:101-108 | A message longer than a mebibyte keeps its first mebibyte |
| `ContainerReading.ContainerReader.ReadLines` | src/container_reader.rs:71-122 | The loop reads up to so many physical lines, rejoining fragments |
| `ContainerReading.ContainerReader.ReadOne` | src/cri.rs:91-108 | One physical line is read: a fragment joins the ones waiting, and a record that is none closes the message |
| `ContainerReading.SampleLines` | src/container_reader.rs:264-303 | The one pass over the whole file |
| `AnsiStripping.StripInPlace` | src/ansi.rs:57-71 | Compacting in place leaves exactly the stripped line |
| `AnsiStripping.EscapeEnd` | src/ansi.rs:79-103 | The scan ends just past the sequence |
| `AnsiStripping.StripOwned` | src/ansi.rs:31-37 | A line without ESC is returned untouched |
| `AnsiStripping.Strip` | src/ansi.rs:57-71 | No ESC is left and nothing is added |
| `AnsiStripping.StripKeepsText` | src/ansi.rs:14-22 | However a line is cut into text and whole sequences (section 5.4 of ECMA-48 for control sequences), stripping keeps the text |
| `AnsiStripping.EveryLineCuts` | src/ansi.rs:14-22 | Every line can be cut that way, with at most a cut-short tail |
| `AnsiStripping.StripIdempotent` | src/ansi.rs:57-71 | Stripping twice is stripping once |
| `AnsiStripping.Utf8SurvivesExactlyWhen` | src/ansi.rs:75-78 | Well-formed UTF-8 (section 4 of RFC 3629) stays well-formed if and only if no two-byte escape takes a lead byte |
| `AnsiStripping.Utf8Survives` | src/ansi.rs:75-78 | In particular when no ESC directly precedes a byte of 0x80 or more |
| `AnsiStripping.EscapeSplitsACharacter` | src/ansi.rs:100 | The shortest line that does not survive |
| `RateLimiting.WindowBound` | src/rate_limiter.rs:42-74 | In every run, grants in any time window are at most rate + length * rate / interval |
| `RateLimiting.TokensStayInRange` | src/rate_limiter.rs:42-51 | Tokens stay between zero and the burst |
| `RateLimiting.SleepSuffices` | src/rate_limiter.rs:82-88 | The computed sleep is enough for a caller that is alone |
| `RateLimiting.RateLimiter.Refill` | src/rate_limiter.rs:42-51 | Tokens grow with the time gone by, up to the burst |
| `RateLimiting.RateLimiter.TryAcquire` | src/rate_limiter.rs:65-74 | A token is taken exactly when one is there |
| `RateLimiting.RateLimiter.Wait` | src/rate_limiter.rs:77-91 | A caller alone at the limiter sleeps at most once |

## Left out

- File rotation, truncation and CRLF accounting in the tailer: one unrotated file whose lines have
  known lengths, as `LogFiles` has it.
- HTTP, authentication, gzip and protobuf: the relay is an arbitrary answer per attempt.
- SQLite's own durability: a commit is atomic and survives, or changes nothing.
- Start patterns, CRI prefixes and JSON wrappers: uninterpreted functions.
- Name clashes of overflow files created in the same nanosecond, and disk errors while writing them;
  `OverflowViews` and the file pipeline also take it that a later file has a later name.
- The order in which overflow lines come back to the streaming buffer: any lines ever spilled may come
  back in any order and more than once. The file pipeline has the files' own order.
- In the transition system of `DeliveryProtocol` reads may resume at any drain and saves follow a flush
  any number of times, so its theorems cover more than the code does; `DeliveryTicks` has the pressure
  of 0.9 and the one save of a shutdown.
- StreamingProgress.OrderlyEndLeavesNothingBehind: supposes that nothing comes back from overflow during
  the shutdown; with lines handed back again and again no number of rounds would be enough.
- `try_enqueue`, journald and Windows event log readers, telemetry, orchestration: they would add
  easy members only.
- DeliveryPipelines.DeliveryPipeline.Open: the buffer, overflow store, tracker and assemblers are
  value fields here; the objects of `DiskBuffers`, `BatchTracking` and `StreamAssembly` are proved to
  have these values, but aliasing between them and the pipeline is not modelled.
- DockerResume.StreamContainerLogs: Docker's replay is taken to be every line at or after the second
  asked for, and a timestamp that does not parse counts as none.
- StreamingActors.StreamingActor.OnReader: lines and checkpoints are positions in the source's
  stream; which position a Docker checkpoint denotes is `DockerResume`.
- RateLimiting.RateLimiter.Wait: real arithmetic instead of floating point, and nobody else takes
  tokens while the caller sleeps.
- Shipping.ByteCappedTake: sums are unbounded, so an overflow of the running total is not modelled.
