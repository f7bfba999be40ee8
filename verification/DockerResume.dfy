/**
 Resuming a container's log: Docker replays from a whole second, and a fence made of a timestamp
 and an occurrence number turns that replay back into an exact continuation.
 */
module DockerResume {
  import opened Common

  const NANOS_PER_SECOND := 1_000_000_000

  /**
   A log line: when Docker took it down in nanoseconds, whether the frame says so, and whether
   nothing is left of it after stripping.
   */
  datatype DockerLine = DockerLine(time: int, stamped: bool, empty: bool)

  /** What a checkpoint records: a timestamp, and which line with that timestamp. */
  datatype Boundary = Boundary(time: int, occurrence: nat)

  // -------------------------------------------------------------------------- the fence

  datatype Fence = Fence(resume: Option<Boundary>, seen: Option<int>, count: nat)

  function NewFence(resume: Option<Boundary>): Fence {
    Fence(resume, None, 0)
  }

  /** Count the line; a timestamp that does not parse starts over. */
  function Counted(f: Fence, time: Option<int>): Fence {
    if time.None? then f.(seen := None, count := 1)
    else if f.seen == time then f.(count := f.count + 1)
    else f.(seen := time, count := 1)
  }

  predicate Skips(f: Fence, time: Option<int>) {
    && time.Some? && f.resume.Some?
    && (time.value < f.resume.value.time || (time.value == f.resume.value.time
      && Counted(f, time).count <= f.resume.value.occurrence))
  }

  /** A later timestamp opens the fence for good. */
  function Passed(f: Fence, time: Option<int>): Fence {
    var g := Counted(f, time);
    if time.Some? && f.resume.Some? && time.value > f.resume.value.time then g.(resume := None) else g
  }

  class DockerResumeBoundary {
    var resume: Option<Boundary>
    var observedTimestamp: Option<int>
    var observedOccurrence: nat

    ghost function Model(): Fence
      reads this
    {
      Fence(resume, observedTimestamp, observedOccurrence)
    }

    constructor (resume: Option<Boundary>)
      ensures Model() == NewFence(resume)
    {
      this.resume, observedTimestamp, observedOccurrence := resume, None, 0;
    }

    method ShouldSkip(timestamp: Option<int>) returns (skip: bool)
      modifies this
      ensures skip == Skips(old(Model()), timestamp) && Model() == Passed(old(Model()), timestamp)
    {
      if timestamp.None? {
        observedTimestamp, observedOccurrence := None, 1;
        return false;
      }
      if observedTimestamp == timestamp {
        observedOccurrence := observedOccurrence + 1;
      } else {
        observedTimestamp, observedOccurrence := timestamp, 1;
      }
      if resume.None? {
        return false;
      }
      if timestamp.value < resume.value.time {
        return true;
      }
      if timestamp.value == resume.value.time {
        return observedOccurrence <= resume.value.occurrence;
      }
      resume := None;
      return false;
    }
  }

  // ---------------------------------------------------------------- what an exact read is

  /** The fence sees the line. */
  predicate Marks(line: DockerLine) {
    !line.empty && line.stamped
  }

  predicate NeverBackwards(log: seq<DockerLine>) {
    forall i, j :: 0 <= i < j < |log| && Marks(log[i]) && Marks(log[j]) ==> log[i].time <= log[j].time
  }

  /** Lines the fence sees with the given timestamp among the first `n`. */
  function CountWith(log: seq<DockerLine>, n: nat, time: int): nat
    requires n <= |log|
  {
    if n == 0 then 0
    else CountWith(log, n - 1, time) + if Marks(log[n - 1]) && log[n - 1].time == time then 1 else 0
  }

  /** The checkpoint of line `k` in a read of the whole log. */
  function CheckpointOf(log: seq<DockerLine>, k: nat): Boundary
    requires k < |log|
  {
    Boundary(log[k].time, CountWith(log, k + 1, log[k].time))
  }

  /** A delivered line with the checkpoint made for it; a line without a timestamp gets none. */
  datatype Delivery = Delivery(index: nat, checkpoint: Option<Boundary>)

  function ExactDelivery(log: seq<DockerLine>, k: nat): Delivery
    requires k < |log|
  {
    Delivery(k, if log[k].stamped then Some(CheckpointOf(log, k)) else None)
  }

  /** Every non-empty line in `[from, to)`, each with its own checkpoint. */
  function ExactRead(log: seq<DockerLine>, from: nat, to: nat): seq<Delivery>
    requires from <= to <= |log|
  {
    if from == to then []
    else
      var before := ExactRead(log, from, to - 1);
      if log[to - 1].empty then before else before + [ExactDelivery(log, to - 1)]
  }

  // ------------------------------------------------------------------------ one connection

  /** The API takes whole seconds in 32 bits; what does not fit asks for everything. */
  function Since(time: int): int {
    var seconds := time / NANOS_PER_SECOND;
    if -0x8000_0000 <= seconds < 0x8000_0000 then seconds else 0
  }

  /** Docker sends the line again: zero asks for the whole log. */
  predicate InReplay(since: int, line: DockerLine) {
    since == 0 || since * NANOS_PER_SECOND <= line.time
  }

  /** Asking by the second is asking early enough for everything from that time on. */
  lemma {:induction false} SecondsAskEarlyEnough(time: int, line: DockerLine)
    requires time <= line.time
    ensures InReplay(Since(time), line)
  {
    assert time / NANOS_PER_SECOND * NANOS_PER_SECOND <= time;
  }

  /** The fence after the replayed ones of the first `n` lines. */
  function FenceAt(log: seq<DockerLine>, since: int, n: nat, resume: Option<Boundary>): Fence
    requires n <= |log|
  {
    if n == 0 then NewFence(resume)
    else
      var f := FenceAt(log, since, n - 1, resume);
      if Marks(log[n - 1]) && InReplay(since, log[n - 1]) then Passed(f, Some(log[n - 1].time)) else f
  }

  /** What gets through of the replayed ones of the first `n` lines, with the checkpoints made on the way. */
  function LetThrough(log: seq<DockerLine>, since: int, n: nat, resume: Option<Boundary>): seq<Delivery>
    requires n <= |log|
  {
    if n == 0 then []
    else
      var before := LetThrough(log, since, n - 1, resume);
      var f := FenceAt(log, since, n - 1, resume);
      var line := log[n - 1];
      if line.empty || !InReplay(since, line) then before
      else if !line.stamped then before + [Delivery(n - 1, None)]
      else if Skips(f, Some(line.time)) then before
      else before + [Delivery(n - 1, Some(Boundary(line.time, Passed(f, Some(line.time)).count)))]
  }

  /** The counter holds the occurrence number an uninterrupted read would be at. */
  ghost predicate CountsRight(log: seq<DockerLine>, since: int, n: nat, f: Fence) {
    && n <= |log|
    && (f.seen.None? ==> forall i :: 0 <= i < n && Marks(log[i]) ==> !InReplay(since, log[i]))
    && (f.seen.Some? ==>
          && f.count == CountWith(log, n, f.seen.value)
          && (since == 0 || since * NANOS_PER_SECOND <= f.seen.value)
          && (forall i :: 0 <= i < n && Marks(log[i]) ==> log[i].time <= f.seen.value)
          && (forall j :: n <= j < |log| && Marks(log[j]) ==> f.seen.value <= log[j].time))
  }

  lemma {:induction false} CountNone(log: seq<DockerLine>, n: nat, time: int)
    requires n <= |log| && forall i :: 0 <= i < n && Marks(log[i]) ==> log[i].time != time
    ensures CountWith(log, n, time) == 0
  {
    if n > 0 {
      CountNone(log, n - 1, time);
    }
  }

  lemma {:induction false} CountStep(log: seq<DockerLine>, since: int, n: nat, f: Fence)
    requires NeverBackwards(log) && CountsRight(log, since, n, f) && n < |log| && Marks(log[n])
      && InReplay(since, log[n])
    ensures
      var g := Passed(f, Some(log[n].time));
      CountsRight(log, since, n + 1, g) && g.count == CountWith(log, n + 1, log[n].time)
  {
    var t := log[n].time;
    if f.seen != Some(t) {
      CountNone(log, n, t);
    }
  }

  lemma {:induction false} FenceCounts(log: seq<DockerLine>, since: int, n: nat, resume: Option<Boundary>)
    requires NeverBackwards(log) && n <= |log|
    ensures CountsRight(log, since, n, FenceAt(log, since, n, resume))
  {
    if n > 0 {
      FenceCounts(log, since, n - 1, resume);
      if Marks(log[n - 1]) && InReplay(since, log[n - 1]) {
        CountStep(log, since, n - 1, FenceAt(log, since, n - 1, resume));
      } else {
        NotSeen(log, since, n - 1, FenceAt(log, since, n - 1, resume));
      }
    }
  }

  lemma {:induction false} NotSeen(log: seq<DockerLine>, since: int, n: nat, f: Fence)
    requires NeverBackwards(log) && CountsRight(log, since, n, f) && n < |log|
      && !(Marks(log[n]) && InReplay(since, log[n]))
    ensures CountsRight(log, since, n + 1, f)
  {
  }

  /** The fence is closed only while no later timestamp has been seen, and keeps its boundary. */
  lemma {:induction false} FenceOpens(log: seq<DockerLine>, since: int, n: nat, b: Boundary)
    requires NeverBackwards(log) && n <= |log|
    ensures
      var f := FenceAt(log, since, n, Some(b));
      && (f.resume.Some? ==> f.resume.value == b)
      && (f.resume.None? ==> forall j :: n <= j < |log| && Marks(log[j]) ==> log[j].time > b.time)
  {
    if n > 0 {
      FenceOpens(log, since, n - 1, b);
    }
  }

  lemma {:induction false} CountGrows(log: seq<DockerLine>, i: nat, j: nat, time: int)
    requires i <= j <= |log|
    ensures CountWith(log, i, time) <= CountWith(log, j, time)
    ensures i < j && Marks(log[j - 1]) && log[j - 1].time == time ==> CountWith(log, i, time) < CountWith(log, j, time)
  {
    if i < j {
      CountGrows(log, i, j - 1, time);
    }
  }

  /** The fence made from line `k` skips line `n` exactly when it is not past `k`. */
  lemma {:induction false} SkipsUpTo(log: seq<DockerLine>, since: int, n: nat, k: nat)
    requires NeverBackwards(log) && k < |log| && n < |log| && Marks(log[k]) && Marks(log[n]) && InReplay(since, log[n])
    ensures Skips(FenceAt(log, since, n, Some(CheckpointOf(log, k))), Some(log[n].time)) <==> n <= k
  {
    var b := CheckpointOf(log, k);
    var f := FenceAt(log, since, n, Some(b));
    var t := log[n].time;
    FenceCounts(log, since, n, Some(b));
    FenceOpens(log, since, n, b);
    CountStep(log, since, n, f);
    hide CountsRight, FenceAt;
    assert Counted(f, Some(t)).count == CountWith(log, n + 1, t);
    if n <= k {
      CountGrows(log, n + 1, k + 1, t);
    } else {
      CountGrows(log, k + 1, n + 1, t);
    }
  }

  /**
   What a reconnect from line `k` is expected to give: the lines after `k` that have a timestamp, and
   of those without one all that Docker sends again.
   */
  function Resumed(log: seq<DockerLine>, since: int, k: nat, n: nat): seq<Delivery>
    requires n <= |log|
  {
    if n == 0 then []
    else
      var before := Resumed(log, since, k, n - 1);
      var line := log[n - 1];
      if line.empty || (if line.stamped then n - 1 <= k else !InReplay(since, line)) then before
      else before + [ExactDelivery(log, n - 1)]
  }

  /**
   Reading on after a reconnect from line `k`'s checkpoint delivers each later line once, with the
   checkpoint an uninterrupted read would make, and none of the earlier ones that have a timestamp.
   */
  lemma {:induction false} ResumeIsExact(log: seq<DockerLine>, n: nat, k: nat)
    requires NeverBackwards(log) && k < |log| && Marks(log[k]) && n <= |log|
    ensures Delivered(log, CheckpointOf(log, k), n) == Resumed(log, Since(log[k].time), k, n)
  {
    if n > 0 {
      ResumeIsExact(log, n - 1, k);
      ResumesLine(log, n - 1, k);
    }
  }

  lemma {:induction false} ResumesLine(log: seq<DockerLine>, n: nat, k: nat)
    requires NeverBackwards(log) && k < |log| && Marks(log[k]) && n < |log|
    requires Delivered(log, CheckpointOf(log, k), n) == Resumed(log, Since(log[k].time), k, n)
    ensures Delivered(log, CheckpointOf(log, k), n + 1) == Resumed(log, Since(log[k].time), k, n + 1)
  {
    var b := CheckpointOf(log, k);
    var since := Since(log[k].time);
    if Marks(log[n]) && n > k {
      SecondsAskEarlyEnough(log[k].time, log[n]);
    }
    if Marks(log[n]) && InReplay(since, log[n]) {
      SkipsUpTo(log, since, n, k);
      FenceCounts(log, since, n, Some(b));
      CountStep(log, since, n, FenceAt(log, since, n, Some(b)));
    }
    hide CountsRight, FenceAt, CountWith, Skips, Passed, Since, InReplay, NeverBackwards;
  }

  /** A connection with nothing to resume from is an uninterrupted read. */
  lemma {:induction false} FirstReadIsExact(log: seq<DockerLine>, n: nat)
    requires NeverBackwards(log) && n <= |log|
    ensures LetThrough(log, 0, n, None) == ExactRead(log, 0, n)
  {
    if n > 0 {
      FirstReadIsExact(log, n - 1);
      FenceStaysOpen(log, n - 1);
      FenceCounts(log, 0, n - 1, None);
      if Marks(log[n - 1]) {
        CountStep(log, 0, n - 1, FenceAt(log, 0, n - 1, None));
      }
      hide CountsRight, FenceAt, CountWith;
    }
  }

  lemma {:induction false} FenceStaysOpen(log: seq<DockerLine>, n: nat)
    requires n <= |log|
    ensures FenceAt(log, 0, n, None).resume.None?
  {
    if n > 0 {
      FenceStaysOpen(log, n - 1);
    }
  }

  // -------------------------------------------------------------------- chains of reconnects

  /** What a connection delivers, from the checkpoint it is given. */
  function Delivered(log: seq<DockerLine>, resume: Boundary, to: nat): seq<Delivery>
    requires to <= |log|
  {
    LetThrough(log, Since(resume.time), to, Some(resume))
  }

  /** One connection: the delivered line it resumes from, if any, and how far the log is read. */
  datatype Connection = Connection(from: Option<nat>, to: nat)

  ghost predicate ResumesFrom(log: seq<DockerLine>, runs: seq<seq<Delivery>>, i: nat, from: nat, to: nat)
    requires i < |runs| && to <= |log|
  {
    exists j, d :: 0 <= j < i && d in runs[j] && d.index == from && d.checkpoint.Some?
      && runs[i] == Delivered(log, d.checkpoint.value, to)
  }

  /**
   A chain of connections: each reads from the beginning, or resumes from the checkpoint of a line
   that any of the connections before it delivered, however little those in between did.
   */
  ghost predicate IsChain(log: seq<DockerLine>, chain: seq<Connection>, runs: seq<seq<Delivery>>) {
    && |runs| == |chain|
    && forall i :: 0 <= i < |chain| ==>
         && chain[i].to <= |log|
         && (chain[i].from.None? ==> runs[i] == LetThrough(log, 0, chain[i].to, None))
         && (chain[i].from.Some? ==> ResumesFrom(log, runs, i, chain[i].from.value, chain[i].to))
  }

  lemma {:induction false} ExactMembers(log: seq<DockerLine>, to: nat, d: Delivery)
    requires to <= |log| && d in ExactRead(log, 0, to)
    ensures d.index < to && !log[d.index].empty && d == ExactDelivery(log, d.index)
  {
    var before := ExactRead(log, 0, to - 1);
    if d in before {
      ExactMembers(log, to - 1, d);
    }
  }

  lemma {:induction false} ResumedMembers(log: seq<DockerLine>, since: int, k: nat, to: nat, d: Delivery)
    requires to <= |log| && d in Resumed(log, since, k, to)
    ensures d.index < to && !log[d.index].empty && d == ExactDelivery(log, d.index)
  {
    var before := Resumed(log, since, k, to - 1);
    if d in before {
      ResumedMembers(log, since, k, to - 1, d);
    }
  }

  /** Connection `i` delivers what it should. */
  ghost predicate RunsRight(log: seq<DockerLine>, c: Connection, run: seq<Delivery>) {
    && c.to <= |log|
    && match c.from
       case None => run == ExactRead(log, 0, c.to)
       case Some(k) => k < |log| && Marks(log[k]) && run == Resumed(log, Since(log[k].time), k, c.to)
  }

  lemma {:induction false} RightMembers(log: seq<DockerLine>, c: Connection, run: seq<Delivery>, d: Delivery)
    requires RunsRight(log, c, run) && d in run
    ensures d.index < |log| && !log[d.index].empty && d == ExactDelivery(log, d.index)
  {
    if c.from.None? {
      ExactMembers(log, c.to, d);
    } else {
      ResumedMembers(log, Since(log[c.from.value].time), c.from.value, c.to, d);
    }
  }

  /** Across any chain of reconnects every connection is an exact continuation of the line it resumes from. */
  lemma {:induction false} ChainIsExact(log: seq<DockerLine>, chain: seq<Connection>, runs: seq<seq<Delivery>>, i: nat)
    requires NeverBackwards(log) && IsChain(log, chain, runs) && i < |runs|
    ensures RunsRight(log, chain[i], runs[i])
  {
    var c := chain[i];
    hide Delivered, LetThrough, ExactRead, Resumed, NeverBackwards;
    if c.from.None? {
      FirstReadIsExact(log, c.to);
    } else {
      var j, d :| 0 <= j < i && d in runs[j] && d.index == c.from.value && d.checkpoint.Some?
                  && runs[i] == Delivered(log, d.checkpoint.value, c.to);
      ChainIsExact(log, chain, runs, j);
      hide IsChain;
      RightMembers(log, chain[j], runs[j], d);
      ResumeIsExact(log, c.to, d.index);
    }
  }

  // ------------------------------------------------------------- exactly when it is exact

  /** A line without a timestamp is sent again exactly by the replays from lines before it. */
  ghost predicate UnstampedFitIn(log: seq<DockerLine>) {
    forall k, j :: 0 <= k < |log| && 0 <= j < |log| && Marks(log[k]) && !log[j].empty && !log[j].stamped ==>
      (InReplay(Since(log[k].time), log[j]) <==> k < j)
  }

  /** A reconnect from any line that can be resumed from delivers exactly the lines after it. */
  ghost predicate AlwaysExact(log: seq<DockerLine>) {
    forall k, to :: 0 <= k < to <= |log| && Marks(log[k]) ==>
      Delivered(log, CheckpointOf(log, k), to) == ExactRead(log, k + 1, to)
  }

  lemma {:induction false} NothingBefore(log: seq<DockerLine>, k: nat, n: nat)
    requires UnstampedFitIn(log) && k < |log| && Marks(log[k]) && n <= k + 1
    ensures Resumed(log, Since(log[k].time), k, n) == []
  {
    hide InReplay, Since;
    if n > 0 {
      NothingBefore(log, k, n - 1);
    }
  }

  lemma {:induction false} FittingIn(log: seq<DockerLine>, k: nat, to: nat)
    requires UnstampedFitIn(log) && k < to <= |log| && Marks(log[k])
    ensures Resumed(log, Since(log[k].time), k, to) == ExactRead(log, k + 1, to)
  {
    hide InReplay, Since;
    if to == k + 1 {
      NothingBefore(log, k, to);
    } else {
      FittingIn(log, k, to - 1);
    }
  }

  /** The marked line with the latest timestamp before `j`. */
  lemma {:induction false} LatestBefore(log: seq<DockerLine>, j: nat, i: nat) returns (k: nat)
    requires i < j <= |log| && Marks(log[i])
    ensures k < j && Marks(log[k]) && forall l :: 0 <= l < j && Marks(log[l]) ==> log[l].time <= log[k].time
  {
    k := i;
    for n := 0 to j
      invariant k < j && Marks(log[k]) && log[i].time <= log[k].time
      invariant forall l :: 0 <= l < n && Marks(log[l]) ==> log[l].time <= log[k].time
    {
      if Marks(log[n]) && log[k].time < log[n].time {
        k := n;
      }
    }
  }

  lemma {:induction false} FenceStaysShut(log: seq<DockerLine>, since: int, n: nat, b: Boundary)
    requires n <= |log| && forall l :: 0 <= l < n && Marks(log[l]) ==> log[l].time <= b.time
    ensures FenceAt(log, since, n, Some(b)).resume == Some(b)
  {
    if n > 0 {
      FenceStaysShut(log, since, n - 1, b);
    }
  }

  lemma {:induction false} NotAmong(log: seq<DockerLine>, since: int, n: nat, resume: Option<Boundary>, j: nat)
    requires n <= |log| && j < |log|
    requires !InReplay(since, log[j]) || (Marks(log[j]) && Skips(FenceAt(log, since, j, resume), Some(log[j].time)))
    ensures forall d :: d in LetThrough(log, since, n, resume) ==> d.index != j
  {
    if n > 0 {
      NotAmong(log, since, n - 1, resume, j);
    }
  }

  /**
   A timestamp that goes back hides its line: a reconnect from the latest line before it never
   delivers it, however far it reads.
   */
  lemma {:induction false} BackwardsTimestampHidesALine(log: seq<DockerLine>) returns (k: nat, j: nat)
    requires !NeverBackwards(log)
    ensures k < j < |log| && Marks(log[k]) && Marks(log[j])
    ensures forall to, d :: 0 <= to <= |log| && d in Delivered(log, CheckpointOf(log, k), to) ==> d.index != j
  {
    var i: nat;
    i, j :| 0 <= i < j < |log| && Marks(log[i]) && Marks(log[j]) && log[i].time > log[j].time;
    k := LatestBefore(log, j, i);
    var b := CheckpointOf(log, k);
    FenceStaysShut(log, Since(b.time), j, b);
    forall to, d | 0 <= to <= |log| && d in Delivered(log, b, to)
      ensures d.index != j
    {
      NotAmong(log, Since(b.time), to, Some(b), j);
    }
  }

  lemma {:induction false} ExactHolds(log: seq<DockerLine>, from: nat, to: nat, j: nat)
    requires from <= j < to <= |log| && !log[j].empty
    ensures ExactDelivery(log, j) in ExactRead(log, from, to)
  {
    if j < to - 1 {
      ExactHolds(log, from, to - 1, j);
    }
  }

  lemma {:induction false} ResumedHolds(log: seq<DockerLine>, since: int, k: nat, to: nat, j: nat)
    requires j < to <= |log| && !log[j].empty && !log[j].stamped
    ensures ExactDelivery(log, j) in Resumed(log, since, k, to) <==> InReplay(since, log[j])
  {
    hide InReplay;
    if j < to - 1 {
      ResumedHolds(log, since, k, to - 1, j);
    } else if ExactDelivery(log, j) in Resumed(log, since, k, j) {
      ResumedMembers(log, since, k, j, ExactDelivery(log, j));
    }
  }

  lemma {:induction false} ExactFitsIn(log: seq<DockerLine>, k: nat, j: nat)
    requires AlwaysExact(log) && NeverBackwards(log)
    requires k < |log| && j < |log| && Marks(log[k]) && !log[j].empty && !log[j].stamped
    ensures InReplay(Since(log[k].time), log[j]) <==> k < j
  {
    var to := Max(j, k) + 1;
    ResumeIsExact(log, to, k);
    ResumedHolds(log, Since(log[k].time), k, to, j);
    assert Delivered(log, CheckpointOf(log, k), to) == ExactRead(log, k + 1, to);
    hide Delivered, Resumed, InReplay, Since;
    if k < j {
      ExactHolds(log, k + 1, to, j);
    }
  }

  /**
   Every reconnect is exact if and only if no timestamp goes back and the lines without one are
   outside every replay from a line after them and inside every one from a line before. Empty lines
   play no part.
   */
  lemma {:induction false} ResumesExactlyWhen(log: seq<DockerLine>)
    ensures AlwaysExact(log) <==> NeverBackwards(log) && UnstampedFitIn(log)
  {
    if !NeverBackwards(log) {
      var k, j := BackwardsTimestampHidesALine(log);
      hide Delivered, ExactRead, CheckpointOf;
      ExactHolds(log, k + 1, j + 1, j);
      assert Delivered(log, CheckpointOf(log, k), j + 1) != ExactRead(log, k + 1, j + 1);
    } else {
      hide NeverBackwards, Delivered, ExactRead, Resumed, InReplay, Since;
      if UnstampedFitIn(log) {
        forall k, to | 0 <= k < to <= |log| && Marks(log[k])
          ensures Delivered(log, CheckpointOf(log, k), to) == ExactRead(log, k + 1, to)
        {
          ResumeIsExact(log, to, k);
          FittingIn(log, k, to);
        }
      }
      if AlwaysExact(log) {
        forall k, j | 0 <= k < |log| && 0 <= j < |log| && Marks(log[k]) && !log[j].empty && !log[j].stamped
          ensures InReplay(Since(log[k].time), log[j]) <==> k < j
        {
          ExactFitsIn(log, k, j);
        }
      }
    }
  }

  // -------------------------------------------------------------------------- the edges

  /**
   A checkpoint written before occurrences existed reads as occurrence zero: every line with that
   timestamp comes again and nothing after it is lost.
   */
  lemma {:induction false} WithoutOccurrenceRepeatsTheGroup(log: seq<DockerLine>, since: int, n: nat, t: int)
    requires NeverBackwards(log) && n < |log| && Marks(log[n])
    ensures Skips(FenceAt(log, since, n, Some(Boundary(t, 0))), Some(log[n].time)) <==> log[n].time < t
  {
    FenceOpens(log, since, n, Boundary(t, 0));
  }

  // ------------------------------------------------------------------------ the read loop

  /** The reader's loop over what Docker sends. */
  method StreamContainerLogs(log: seq<DockerLine>, since: int, end: nat, resume: Option<Boundary>)
      returns (delivered: seq<Delivery>)
    requires end <= |log|
    ensures delivered == LetThrough(log, since, end, resume)
  {
    var fence := new DockerResumeBoundary(resume);
    delivered := [];
    for i := 0 to end
      invariant fence.Model() == FenceAt(log, since, i, resume)
      invariant delivered == LetThrough(log, since, i, resume)
    {
      if !InReplay(since, log[i]) || log[i].empty {
        continue;
      }
      if !log[i].stamped {
        delivered := delivered + [Delivery(i, None)];
        continue;
      }
      var skip := fence.ShouldSkip(Some(log[i].time));
      if skip {
        continue;
      }
      delivered := delivered + [Delivery(i, Some(Boundary(log[i].time, fence.observedOccurrence)))];
    }
  }
}
