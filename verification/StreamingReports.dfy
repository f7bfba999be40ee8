/**
 What an idle check or a flush of the streaming assembler reports as its resume point: the release
 of its last event, and when that is the furthest of all it released.
 */
module StreamingReports {
  import opened Common
  import opened EntryAssembly
  import opened StreamAssembly
  import Runs = StreamAssemblyRuns
  import opened StreamingMultiline

  // ------------------------------------------------------------- which prefix gets finished

  ghost predicate IsDone(ps: seq<PendingLine>, base: nat, sent: set<nat>, i: nat)
    requires i < |ps|
  {
    ps[i].finished || base + i in sent
  }

  /** How many of the oldest pending lines are done once the lines at `sent` are. */
  ghost function DonePrefix(ps: seq<PendingLine>, base: nat, sent: set<nat>): (n: nat)
    ensures n <= |ps|
  {
    DoneFrom(ps, base, sent, 0)
  }

  ghost function DoneFrom(ps: seq<PendingLine>, base: nat, sent: set<nat>, i: nat): (n: nat)
    requires i <= |ps|
    ensures n <= |ps|
    decreases |ps| - i
  {
    if i == |ps| || !IsDone(ps, base, sent, i) then i else DoneFrom(ps, base, sent, i + 1)
  }

  /** All of the first `n` lines are done, and the next one is not. */
  ghost predicate DoneUpTo(ps: seq<PendingLine>, base: nat, sent: set<nat>, n: nat) {
    n <= |ps| && (forall i :: 0 <= i < n ==> IsDone(ps, base, sent, i)) && (n < |ps| ==> !IsDone(ps, base, sent, n))
  }

  lemma {:induction false} DoneFromIs(ps: seq<PendingLine>, base: nat, sent: set<nat>, i: nat)
    requires i <= |ps| && forall j :: 0 <= j < i ==> IsDone(ps, base, sent, j)
    ensures DoneUpTo(ps, base, sent, DoneFrom(ps, base, sent, i))
    decreases |ps| - i
  {
    hide IsDone;
    if i < |ps| && IsDone(ps, base, sent, i) {
      DoneFromIs(ps, base, sent, i + 1);
    }
  }

  lemma {:induction false} DonePrefixIs(ps: seq<PendingLine>, base: nat, sent: set<nat>, n: nat)
    ensures DoneUpTo(ps, base, sent, n) <==> DonePrefix(ps, base, sent) == n
  {
    DoneFromIs(ps, base, sent, 0);
    hide IsDone, DoneFrom;
  }

  /** `rest` is what is pending of `ps` once the lines at `sent` are done. */
  ghost predicate LeftOf(ps: seq<PendingLine>, base: nat, sent: set<nat>, rest: seq<PendingLine>) {
    var k := DonePrefix(ps, base, sent);
    && |rest| == |ps| - k
    && forall i :: 0 <= i < |rest| ==>
         && rest[i].stream == ps[k + i].stream && rest[i].checkpoint == ps[k + i].checkpoint
         && (rest[i].finished <==> IsDone(ps, base, sent, k + i))
  }

  lemma {:induction false} SameCheckpoints(a: seq<PendingLine>, b: seq<PendingLine>)
    requires |a| == |b| && forall i :: 0 <= i < |a| ==> a[i].checkpoint == b[i].checkpoint
    ensures LastCheckpoint(a) == LastCheckpoint(b)
  {
    if a != [] {
      SameCheckpoints(a[..|a| - 1], b[..|b| - 1]);
    }
  }

  lemma {:induction false} LastOfBoth(a: seq<PendingLine>, b: seq<PendingLine>)
    ensures LastCheckpoint(a + b) == if LastCheckpoint(b).Some? then LastCheckpoint(b) else LastCheckpoint(a)
  {
    if b == [] {
      assert a + b == a;
    } else {
      assert (a + b)[..|a + b| - 1] == a + b[..|b| - 1];
      LastOfBoth(a, b[..|b| - 1]);
    }
  }

  lemma {:induction false} MarkKeepsLines(ps: seq<PendingLine>, stream: LogStream, count: nat)
    ensures forall i :: 0 <= i < |ps| ==>
      Marked(ps, stream, count)[i].checkpoint == ps[i].checkpoint && Marked(ps, stream, count)[i].stream == ps[i].stream
  {
    if ps != [] && count > 0 {
      MarkKeepsLines(ps[1..], stream, if Waits(ps[0], stream) then count - 1 else count);
    }
  }

  /** The event's mark is on the lines it sends. */
  ghost predicate MarkedAs(ps: seq<PendingLine>, base: nat, sent: set<nat>, k: nat, marked: seq<PendingLine>) {
    && k + |marked| == |ps|
    && forall i :: 0 <= i < |marked| ==>
         && marked[i].stream == ps[k + i].stream && marked[i].checkpoint == ps[k + i].checkpoint
         && (marked[i].finished <==> IsDone(ps, base, sent, k + i))
  }

  lemma {:induction false} MarkSends(ps: seq<PendingLine>, base: nat, sent: set<nat>, rest: seq<PendingLine>,
      e: Emission)
    requires LeftOf(ps, base, sent, rest)
    requires
      var w := Waiting(rest, base + |ps| - |rest|, e.stream);
      |e.lines| <= |w| && w[..|e.lines|] == Starts(e.lines)
    ensures MarkedAs(ps, base, sent + Offsets(e), DonePrefix(ps, base, sent), Marked(rest, e.stream, |e.lines|))
  {
    var k := DonePrefix(ps, base, sent);
    MarkKeepsLines(rest, e.stream, |e.lines|);
    hide Marked, Waiting, DonePrefix;
    forall i | 0 <= i < |rest|
      ensures Marked(rest, e.stream, |e.lines|)[i].finished <==> IsDone(ps, base, sent + Offsets(e), k + i)
    {
      MarkFinishes(rest, base + k, e.stream, |e.lines|, i);
    }
  }

  lemma {:induction false} DoneFurther(ps: seq<PendingLine>, base: nat, sent: set<nat>, more: set<nat>, k: nat,
      marked: seq<PendingLine>)
    requires sent <= more && MarkedAs(ps, base, more, k, marked) && DoneUpTo(ps, base, sent, k)
    ensures DoneUpTo(ps, base, more, k + FinishedPrefix(marked))
  {
    var n := FinishedPrefix(marked);
    forall i | 0 <= i < k + n
      ensures IsDone(ps, base, more, i)
    {
      if i < k {
        assert IsDone(ps, base, sent, i);
      } else {
        assert marked[i - k].finished;
      }
    }
    if n < |marked| {
      assert !marked[n].finished;
    }
  }

  lemma {:induction false} LeftFurther(ps: seq<PendingLine>, base: nat, more: set<nat>, k: nat, n: nat,
      marked: seq<PendingLine>)
    requires MarkedAs(ps, base, more, k, marked) && n <= |marked| && DonePrefix(ps, base, more) == k + n
    ensures LeftOf(ps, base, more, marked[n..])
    ensures LastCheckpoint(marked[..n]) == LastCheckpoint(ps[k..k + n])
  {
    hide IsDone, DonePrefix, LastCheckpoint;
    SameCheckpoints(marked[..n], ps[k..k + n]);
  }

  lemma {:induction false} MarkedLength(ps: seq<PendingLine>, base: nat, sent: set<nat>, k: nat,
      marked: seq<PendingLine>)
    requires MarkedAs(ps, base, sent, k, marked)
    ensures k + |marked| == |ps|
  {
  }

  lemma {:induction false} PopReleases(ps: seq<PendingLine>, base: nat, sent: set<nat>, more: set<nat>,
      marked: seq<PendingLine>)
    requires sent <= more && MarkedAs(ps, base, more, DonePrefix(ps, base, sent), marked)
    ensures
      var k, n := DonePrefix(ps, base, sent), FinishedPrefix(marked);
      && k + n <= |ps| && DonePrefix(ps, base, more) == k + n && LeftOf(ps, base, more, marked[n..])
      && LastCheckpoint(marked[..n]) == LastCheckpoint(ps[k..k + n])
  {
    hide *;
    var k, n := DonePrefix(ps, base, sent), FinishedPrefix(marked);
    MarkedLength(ps, base, more, k, marked);
    DonePrefixIs(ps, base, sent, k);
    DoneFurther(ps, base, sent, more, k, marked);
    DonePrefixIs(ps, base, more, k + n);
    LeftFurther(ps, base, more, k, n, marked);
  }

  lemma {:induction false} ConsumeIs(rest: seq<PendingLine>, e: Emission)
    ensures
      var marked := Marked(rest, e.stream, |e.lines|);
      var n := FinishedPrefix(marked);
      AfterConsume(rest, e.stream, |e.lines|) == marked[n..]
        && SentFor(rest, e).checkpoint == LastCheckpoint(marked[..n])
  {
  }

  ghost predicate Releases(ps: seq<PendingLine>, base: nat, sent: set<nat>, more: set<nat>, released: Option<nat>) {
    var before, after := DonePrefix(ps, base, sent), DonePrefix(ps, base, more);
    before <= after && released == LastCheckpoint(ps[before..after])
  }

  lemma {:induction false} EventReleases(ps: seq<PendingLine>, base: nat, sent: set<nat>, rest: seq<PendingLine>,
      e: Emission)
    requires |rest| <= |ps| && LeftOf(ps, base, sent, rest)
    requires
      var w := Waiting(rest, base + |ps| - |rest|, e.stream);
      |e.lines| <= |w| && w[..|e.lines|] == Starts(e.lines)
    ensures LeftOf(ps, base, sent + Offsets(e), AfterConsume(rest, e.stream, |e.lines|))
    ensures Releases(ps, base, sent, sent + Offsets(e), SentFor(rest, e).checkpoint)
  {
    hide *;
    var marked, more := Marked(rest, e.stream, |e.lines|), sent + Offsets(e);
    MarkSends(ps, base, sent, rest, e);
    ConsumeIs(rest, e);
    Pops(ps, base, sent, more, marked);
  }

  lemma {:induction false} Pops(ps: seq<PendingLine>, base: nat, sent: set<nat>, more: set<nat>,
      marked: seq<PendingLine>)
    requires sent <= more && MarkedAs(ps, base, more, DonePrefix(ps, base, sent), marked)
    ensures LeftOf(ps, base, more, marked[FinishedPrefix(marked)..])
    ensures Releases(ps, base, sent, more, LastCheckpoint(marked[..FinishedPrefix(marked)]))
  {
    hide LeftOf, MarkedAs, DonePrefix, LastCheckpoint, FinishedPrefix;
    PopReleases(ps, base, sent, more, marked);
  }

  /** Sending one event releases the lines that its own complete the prefix with. */
  lemma {:induction false} OneRelease(ps: seq<PendingLine>, base: nat, sent: set<nat>, rest: seq<PendingLine>,
      slots: seq<StreamSlot>, es: seq<Emission>)
    requires LeftOf(ps, base, sent, rest) && Linked(rest, base + |ps|, slots, es) && es != []
    ensures LeftOf(ps, base, sent + Offsets(es[0]), AfterConsume(rest, es[0].stream, |es[0].lines|))
    ensures Releases(ps, base, sent, sent + Offsets(es[0]), SentFor(rest, es[0]).checkpoint)
  {
    hide *;
    LeftLength(ps, base, sent, rest);
    ConsumeLinks(rest, base + |ps|, slots, es);
    EventReleases(ps, base, sent, rest, es[0]);
  }

  // ------------------------------------------------------------------- the furthest release

  /** The last of some events' releases that is a checkpoint. */
  function LastRelease(all: seq<Sent>): Option<nat> {
    if all == [] then None
    else if all[|all| - 1].checkpoint.Some? then all[|all| - 1].checkpoint
    else LastRelease(all[..|all| - 1])
  }

  /** How many of the oldest pending lines are done after the events. */
  ghost function DoneBy(m: Multi, es: seq<Emission>): (n: nat)
    requires |m.pending| <= m.next
    ensures n <= |m.pending|
  {
    DoneAfter(m.pending, m.next - |m.pending|, {}, es)
  }

  lemma {:induction false} OffsetsFront(es: seq<Emission>, j: nat)
    requires 1 <= j <= |es|
    ensures AllOffsets(es[..j]) == Offsets(es[0]) + AllOffsets(es[1..][..j - 1])
  {
    assert es[..j][1..] == es[1..][..j - 1];
  }

  lemma {:induction false} SentTail(ps: seq<PendingLine>, es: seq<Emission>)
    requires es != []
    ensures SentAll(ps, es) == [SentFor(ps, es[0])] + SentAll(AfterConsume(ps, es[0].stream, |es[0].lines|), es[1..])
  {
  }

  ghost function DoneAfter(ps: seq<PendingLine>, base: nat, sent: set<nat>, es: seq<Emission>): (n: nat)
    ensures n <= |ps|
  {
    DonePrefix(ps, base, sent + AllOffsets(es))
  }

  lemma {:induction false} DoneTail(ps: seq<PendingLine>, base: nat, sent: set<nat>, es: seq<Emission>, j: nat)
    requires 1 <= j <= |es|
    ensures DoneAfter(ps, base, sent, es[..j]) == DoneAfter(ps, base, sent + Offsets(es[0]), es[1..][..j - 1])
  {
    OffsetsFront(es, j);
    assert sent + AllOffsets(es[..j]) == sent + Offsets(es[0]) + AllOffsets(es[1..][..j - 1]);
    hide *;
  }

  lemma {:induction false} DoneNone(ps: seq<PendingLine>, base: nat, sent: set<nat>, es: seq<Emission>)
    ensures DoneAfter(ps, base, sent, es[..0]) == DonePrefix(ps, base, sent)
  {
    assert es[..0] == [] && sent + {} == sent;
  }

  lemma {:induction false} ReleasesIs(ps: seq<PendingLine>, base: nat, sent: set<nat>, more: set<nat>,
      released: Option<nat>)
    requires Releases(ps, base, sent, more, released)
    ensures DonePrefix(ps, base, sent) <= DonePrefix(ps, base, more)
    ensures released == LastCheckpoint(ps[DonePrefix(ps, base, sent)..DonePrefix(ps, base, more)])
  {
  }

  /** The `j`-th event releases what it adds to the done prefix. */
  lemma {:induction false} ReleaseOf(
    ps: seq<PendingLine>, base: nat, sent: set<nat>, rest: seq<PendingLine>, slots: seq<StreamSlot>, es: seq<Emission>,
      j: nat)
    requires LeftOf(ps, base, sent, rest) && Linked(rest, base + |ps|, slots, es) && j < |es| == |SentAll(rest, es)|
    ensures
      var before, after := DoneAfter(ps, base, sent, es[..j]), DoneAfter(ps, base, sent, es[..j + 1]);
      before <= after && SentAll(rest, es)[j].checkpoint == LastCheckpoint(ps[before..after])
    decreases |es|
  {
    hide *;
    var more := sent + Offsets(es[0]);
    var rest' := AfterConsume(rest, es[0].stream, |es[0].lines|);
    OneRelease(ps, base, sent, rest, slots, es);
    SentTail(rest, es);
    DoneTail(ps, base, sent, es, j + 1);
    if j == 0 {
      DoneNone(ps, base, sent, es);
      DoneNone(ps, base, more, es[1..]);
      ReleasesIs(ps, base, sent, more, SentFor(rest, es[0]).checkpoint);
    } else {
      DoneTail(ps, base, sent, es, j);
      ConsumeLinks(rest, base + |ps|, slots, es);
      SentEach(rest', es[1..]);
      ReleaseOf(ps, base, more, rest', slots, es[1..], j - 1);
    }
  }

  lemma {:induction false} SentEach(ps: seq<PendingLine>, es: seq<Emission>)
    ensures |SentAll(ps, es)| == |es|
    decreases |es|
  {
    if es != [] {
      SentEach(AfterConsume(ps, es[0].stream, |es[0].lines|), es[1..]);
    }
  }

  /** Finished lines are popped at once. */
  ghost predicate Popped(m: Multi) {
    m.pending == [] || !m.pending[0].finished
  }

  lemma {:induction false} LeftAtFirst(m: Multi)
    requires Popped(m) && |m.pending| <= m.next
    ensures DonePrefix(m.pending, m.next - |m.pending|, {}) == 0
    ensures LeftOf(m.pending, m.next - |m.pending|, {}, m.pending)
  {
    var base := m.next - |m.pending|;
    assert DoneUpTo(m.pending, base, {}, 0);
    DonePrefixIs(m.pending, base, {}, 0);
    assert forall i :: 0 <= i < |m.pending| ==> (m.pending[i].finished <==> IsDone(m.pending, base, {}, i));
    hide DoneFrom, DonePrefix, DoneUpTo, IsDone;
  }

  ghost predicate WillSend(m: Multi, slots: seq<StreamSlot>, es: seq<Emission>) {
    Linked(m.pending, m.next, slots, es) && Popped(m)
  }

  lemma {:induction false} WillSendIs(m: Multi, slots: seq<StreamSlot>, es: seq<Emission>)
    requires WillSend(m, slots, es)
    ensures Linked(m.pending, m.next, slots, es) && Popped(m)
  {
    hide Linked;
  }

  lemma {:induction false} ReleaseIs(m: Multi, slots: seq<StreamSlot>, es: seq<Emission>, j: nat)
    requires WillSend(m, slots, es) && |m.pending| <= m.next && j < |es| == |SentAll(m.pending, es)|
    ensures DoneBy(m, es[..j]) <= DoneBy(m, es[..j + 1])
    ensures SentAll(m.pending, es)[j].checkpoint
      == LastCheckpoint(m.pending[DoneBy(m, es[..j])..DoneBy(m, es[..j + 1])])
  {
    hide *;
    WillSendIs(m, slots, es);
    LeftAtFirst(m);
    DoneByIs(m, es[..j]);
    DoneByIs(m, es[..j + 1]);
    ReleaseOf(m.pending, m.next - |m.pending|, {}, m.pending, slots, es, j);
  }

  lemma {:induction false} LastReleaseSnoc(all: seq<Sent>, j: nat)
    requires 1 <= j <= |all|
    ensures LastRelease(all[..j]) == if all[j - 1].checkpoint.Some? then all[j - 1].checkpoint
      else LastRelease(all[..j - 1])
  {
    assert all[..j][..j - 1] == all[..j - 1];
  }

  /** What some events release in the end is the last checkpoint in the prefix they complete. */
  lemma {:induction false} FurthestIs(m: Multi, slots: seq<StreamSlot>, es: seq<Emission>, j: nat)
    requires WillSend(m, slots, es) && |m.pending| <= m.next && j <= |es| == |SentAll(m.pending, es)|
    ensures LastRelease(SentAll(m.pending, es)[..j]) == LastCheckpoint(m.pending[..DoneBy(m, es[..j])])
  {
    if j == 0 {
      LeftAtFirst(m);
      DoneNone(m.pending, m.next - |m.pending|, {}, es);
      assert m.pending[..0] == [];
    } else {
      hide WillSend, DoneBy, SentAll, LastCheckpoint;
      FurthestIs(m, slots, es, j - 1);
      ReleaseIs(m, slots, es, j - 1);
      var all := SentAll(m.pending, es);
      var before, after := DoneBy(m, es[..j - 1]), DoneBy(m, es[..j]);
      LastReleaseSnoc(all, j);
      hide LastRelease;
      LastOfBoth(m.pending[..before], m.pending[before..after]);
      assert m.pending[..before] + m.pending[before..after] == m.pending[..after];
    }
  }

  /**
   Events sent in turn: the report is the furthest release if and only if the lines the last of them
   completes hold a checkpoint, or those completed before it hold none.
   */
  lemma {:induction false} LastReportsTheFurthest(m: Multi, slots: seq<StreamSlot>, es: seq<Emission>)
    requires WillSend(m, slots, es) && es != []
    ensures
      var before, after := DoneBy(m, es[..|es| - 1]), DoneBy(m, es);
      && before <= after
      && (Reported(m.pending, es) == LastRelease(SentAll(m.pending, es)) <==>
            LastCheckpoint(m.pending[before..after]).Some? || LastCheckpoint(m.pending[..before]).None?)
  {
    var n := |es| - 1;
    SentEach(m.pending, es);
    var all := SentAll(m.pending, es);
    ReleaseIs(m, slots, es, n);
    FurthestIs(m, slots, es, n);
    assert es[..n + 1] == es;
    hide WillSend, DoneBy, SentAll, LastCheckpoint;
  }

  /** An idle check or a flush reports the furthest of its releases exactly when that holds of its events. */
  lemma {:induction false} DrainReportsTheFurthestExactlyWhen(c: AssemblerConfig, m: Multi, mode: DrainMode)
    requires Tracks(m) && Popped(m) && Collect(c, m.slots, mode).emissions != []
    ensures
      var es := Collect(c, m.slots, mode).emissions;
      var before, after := DoneBy(m, es[..|es| - 1]), DoneBy(m, es);
      && before <= after
      && (Reported(m.pending, es) == LastRelease(SentAll(m.pending, es)) <==>
            LastCheckpoint(m.pending[before..after]).Some? || LastCheckpoint(m.pending[..before]).None?)
  {
    CollectLinks(c, m, mode);
    hide Linked, Collect;
    LastReportsTheFurthest(m, Collect(c, m.slots, mode).slots, Collect(c, m.slots, mode).emissions);
  }

  // --------------------------------------------------------- a checkpoint on every line

  predicate AllCheckpointed(ps: seq<PendingLine>) {
    forall i :: 0 <= i < |ps| ==> ps[i].checkpoint.Some?
  }

  /** After the first `j` events the rest of them are linked to what is left. */
  lemma {:induction false} LeftAfter(
    ps: seq<PendingLine>, base: nat, sent: set<nat>, rest: seq<PendingLine>, slots: seq<StreamSlot>, es: seq<Emission>,
      j: nat)
    returns (left: seq<PendingLine>)
    requires LeftOf(ps, base, sent, rest) && Linked(rest, base + |ps|, slots, es) && j <= |es|
    ensures LeftOf(ps, base, sent + AllOffsets(es[..j]), left) && Linked(left, base + |ps|, slots, es[j..])
    decreases |es|
  {
    if j == 0 {
      left := rest;
      assert es[..0] == [] && es[0..] == es && sent + {} == sent;
      hide LeftOf, Linked;
    } else {
      OneRelease(ps, base, sent, rest, slots, es);
      ConsumeLinks(rest, base + |ps|, slots, es);
      hide LeftOf, Linked, AfterConsume;
      left := LeftAfter(ps, base, sent + Offsets(es[0]), AfterConsume(rest, es[0].stream, |es[0].lines|), slots,
        es[1..], j - 1);
      OffsetsFront(es, j);
      assert sent + Offsets(es[0]) + AllOffsets(es[1..][..j - 1]) == sent + AllOffsets(es[..j]);
      assert es[1..][j - 1..] == es[j..];
    }
  }

  lemma {:induction false} EventAdds(ps: seq<PendingLine>, base: nat, sent: set<nat>, left: seq<PendingLine>,
      slots: seq<StreamSlot>, e: Emission)
    requires LeftOf(ps, base, sent, left) && Linked(left, base + |ps|, slots, [e]) && e.lines != []
    ensures
      var before, after := DonePrefix(ps, base, sent), DonePrefix(ps, base, sent + Offsets(e));
      before < after <==> before < |ps| && ps[before].stream == e.stream
  {
    hide *;
    var marked := Marked(left, e.stream, |e.lines|);
    LeftLength(ps, base, sent, left);
    ConsumeLinks(left, base + |ps|, slots, [e]);
    MarkSends(ps, base, sent, left, e);
    PopReleases(ps, base, sent, sent + Offsets(e), marked);
    FirstMarked(left, e.stream, |e.lines|);
  }

  lemma {:induction false} FirstMarked(ps: seq<PendingLine>, stream: LogStream, count: nat)
    requires count > 0 && (ps != [] ==> !ps[0].finished)
    ensures FinishedPrefix(Marked(ps, stream, count)) > 0 <==> ps != [] && ps[0].stream == stream
  {
    if ps != [] {
      MarkUnrolls(ps, stream, count);
    }
  }

  /** The last event adds to the done prefix exactly when the oldest line left is of its stream. */
  lemma {:induction false} LastEventAdds(m: Multi, slots: seq<StreamSlot>, es: seq<Emission>)
    requires WillSend(m, slots, es) && |m.pending| <= m.next && es != [] && es[|es| - 1].lines != []
    ensures
      var before, after := DoneBy(m, es[..|es| - 1]), DoneBy(m, es);
      before < after <==> before < |m.pending| && m.pending[before].stream == es[|es| - 1].stream
  {
    var n, base := |es| - 1, m.next - |m.pending|;
    hide *;
    WillSendIs(m, slots, es);
    LeftAtFirst(m);
    DoneByIs(m, es[..n]);
    DoneByIs(m, es);
    var left := LeftAfter(m.pending, base, {}, m.pending, slots, es, n);
    assert es[n..] == [es[n]];
    var sent := {} + AllOffsets(es[..n]);
    EventAdds(m.pending, base, sent, left, slots, es[n]);
    OffsetsSnoc(es);
    assert {} + AllOffsets(es) == sent + Offsets(es[n]);
  }

  lemma {:induction false} DoneByIs(m: Multi, es: seq<Emission>)
    requires |m.pending| <= m.next
    ensures DoneBy(m, es) == DoneAfter(m.pending, m.next - |m.pending|, {}, es)
      == DonePrefix(m.pending, m.next - |m.pending|, {} + AllOffsets(es))
  {
  }

  lemma {:induction false} OffsetsSnoc(es: seq<Emission>)
    requires es != []
    ensures AllOffsets(es) == AllOffsets(es[..|es| - 1]) + Offsets(es[|es| - 1])
  {
    if |es| == 1 {
      assert es[..0] == [] && es[1..] == [];
    } else {
      OffsetsSnoc(es[1..]);
      assert es[..|es| - 1][1..] == es[1..][..|es| - 2];
    }
  }

  lemma {:induction false} HasCheckpoint(ps: seq<PendingLine>)
    requires AllCheckpointed(ps)
    ensures LastCheckpoint(ps).Some? <==> ps != []
  {
  }

  /**
   With a checkpoint on every line, an idle check or a flush reports the furthest of its releases if
   and only if its other events release none, or the oldest line they leave pending is of the stream
   of the last one.
   */
  lemma {:induction false} CheckpointedReportsExactlyWhen(c: AssemblerConfig, m: Multi, mode: DrainMode)
    requires Tracks(m) && Popped(m) && AllCheckpointed(m.pending) && Collect(c, m.slots, mode).emissions != []
    ensures
      var es := Collect(c, m.slots, mode).emissions;
      var before := DoneBy(m, es[..|es| - 1]);
      Reported(m.pending, es) == LastRelease(SentAll(m.pending, es)) <==>
      before == 0 || (before < |m.pending| && m.pending[before].stream == es[|es| - 1].stream)
  {
    var p := Collect(c, m.slots, mode);
    var es := p.emissions;
    assert es[|es| - 1].lines != [];
    CollectLinks(c, m, mode);
    hide Linked, Collect;
    LastReportsTheFurthest(m, p.slots, es);
    LastEventAdds(m, p.slots, es);
    var before, after := DoneBy(m, es[..|es| - 1]), DoneBy(m, es);
    HasCheckpoint(m.pending[before..after]);
    HasCheckpoint(m.pending[..before]);
    hide DoneBy, SentAll, LastCheckpoint, LastRelease;
  }

  // ------------------------------------------------------------------------ two streams

  ghost predicate OfTwo(ps: seq<PendingLine>, a: LogStream, b: LogStream) {
    forall i :: 0 <= i < |ps| ==> ps[i].stream == a || ps[i].stream == b
  }

  /** Each stream sends one event or none, and none while its assembler still holds lines. */
  ghost predicate OneEach(slots: seq<StreamSlot>, es: seq<Emission>) {
    && (forall i :: 0 <= i < |es| ==> Runs.HeldBy(slots, es[i].stream) == [])
    && forall i, j :: 0 <= i < j < |es| ==> es[i].stream != es[j].stream
  }

  /** The streams of the events are those of drained slots, in slot order. */
  lemma {:induction false} FromDrainedSlots(c: AssemblerConfig, slots: seq<StreamSlot>, mode: DrainMode)
      returns (from: seq<nat>)
    ensures
      var p := Collect(c, slots, mode);
      && |from| == |p.emissions| && (forall i, j :: 0 <= i < j < |from| ==> from[i] < from[j])
      && forall i :: 0 <= i < |from| ==>
           from[i] < |slots| && p.emissions[i].stream == slots[from[i]].stream && p.slots[from[i]].asm.held == []
  {
    if slots == [] {
      from := [];
    } else {
      var n := |slots| - 1;
      from := FromDrainedSlots(c, slots[..n], mode);
      if DrainOne(c, slots[n].asm, mode).emitted != [] {
        from := from + [n];
      }
    }
  }

  lemma {:induction false} CollectsOneEach(c: AssemblerConfig, slots: seq<StreamSlot>, mode: DrainMode)
    requires Runs.Unique(slots)
    ensures OneEach(Collect(c, slots, mode).slots, Collect(c, slots, mode).emissions)
  {
    var p := Collect(c, slots, mode);
    var from := FromDrainedSlots(c, slots, mode);
    Runs.CollectKeepsStreams(c, slots, mode);
    hide Collect;
    forall i | 0 <= i < |p.emissions|
      ensures Runs.HeldBy(p.slots, p.emissions[i].stream) == []
    {
      SlotIndexIs(p.slots, p.emissions[i].stream, from[i]);
    }
  }

  lemma {:induction false} SomeoneWaits(ps: seq<PendingLine>, base: nat, st: LogStream)
    requires Waiting(ps, base, st) != []
    ensures exists i :: 0 <= i < |ps| && ps[i].stream == st
  {
    if Waits(ps[0], st) {
      assert ps[0].stream == st;
    } else {
      SomeoneWaits(ps[1..], base + 1, st);
      var i :| 0 <= i < |ps[1..]| && ps[1..][i].stream == st;
      assert ps[i + 1].stream == st;
    }
  }

  /** An event is of a stream that has lines pending. */
  lemma {:induction false} EventOfPending(ps: seq<PendingLine>, next: nat, slots: seq<StreamSlot>, es: seq<Emission>,
      i: nat)
    requires Linked(ps, next, slots, es) && i < |es| && es[i].lines != []
    ensures exists j :: 0 <= j < |ps| && ps[j].stream == es[i].stream
  {
    var st := es[i].stream;
    InEmitted(es, i);
    assert Waiting(ps, next - |ps|, st) == Starts(Runs.EmittedBy(es, st) + Runs.HeldBy(slots, st));
    SomeoneWaits(ps, next - |ps|, st);
  }

  lemma {:induction false} InEmitted(es: seq<Emission>, i: nat)
    requires i < |es| && es[i].lines != []
    ensures Runs.EmittedBy(es, es[i].stream) != []
  {
    if i < |es| - 1 {
      InEmitted(es[..|es| - 1], i);
    }
  }

  /** The oldest line left is of the stream of the event to come, or its stream still holds lines. */
  lemma {:induction false} LeftIsHeld(left: seq<PendingLine>, next: nat, slots: seq<StreamSlot>, e: Emission)
    requires Linked(left, next, slots, [e]) && left != [] && !left[0].finished && left[0].stream != e.stream
    ensures Runs.HeldBy(slots, left[0].stream) != []
  {
    var st := left[0].stream;
    assert Waiting(left, next - |left|, st) == Starts(Runs.EmittedBy([e], st) + Runs.HeldBy(slots, st));
    assert [e][..0] == [] && Runs.EmittedBy([e], st) == [];
  }

  /**
   With lines of two streams and a checkpoint on each, an idle check or a flush always reports the
   furthest of its releases.
   */
  lemma {:induction false} TwoStreamsReportTheFurthest(c: AssemblerConfig, m: Multi, mode: DrainMode, a: LogStream,
      b: LogStream)
    requires Tracks(m) && Popped(m) && AllCheckpointed(m.pending) && OfTwo(m.pending, a, b)
    requires Collect(c, m.slots, mode).emissions != []
    ensures
      var es := Collect(c, m.slots, mode).emissions;
      Reported(m.pending, es) == LastRelease(SentAll(m.pending, es))
  {
    CheckpointedReportsExactlyWhen(c, m, mode);
    var p := Collect(c, m.slots, mode);
    var es, n := p.emissions, |p.emissions| - 1;
    assert forall i :: 0 <= i < |es| ==> es[i].lines != [];
    CollectLinks(c, m, mode);
    CollectsOneEach(c, m.slots, mode);
    assert WillSend(m, p.slots, es);
    TracksNext(m);
    hide *;
    LeftForLast(m, p.slots, es);
    if m.pending[DoneBy(m, es[..n])].stream != es[n].stream {
      OnlyOneEvent(m, p.slots, es, a, b);
      NothingDoneYet(m, es);
    }
  }

  lemma {:induction false} NothingDoneYet(m: Multi, es: seq<Emission>)
    requires |m.pending| <= m.next && |es| == 1 && Popped(m)
    ensures DoneBy(m, es[..|es| - 1]) == 0
  {
    LeftAtFirst(m);
    DoneNone(m.pending, m.next - |m.pending|, {}, es);
  }

  /** If the oldest line left for the last event is of another stream, there is no other event. */
  lemma {:induction false} OnlyOneEvent(m: Multi, slots: seq<StreamSlot>, es: seq<Emission>, a: LogStream, b: LogStream)
    requires WillSend(m, slots, es) && |m.pending| <= m.next && OneEach(slots, es) && OfTwo(m.pending, a, b)
    requires es != [] && forall i :: 0 <= i < |es| ==> es[i].lines != []
    requires
      var n := |es| - 1;
      DoneBy(m, es[..n]) < |m.pending| && m.pending[DoneBy(m, es[..n])].stream != es[n].stream
    ensures |es| == 1
  {
    var n := |es| - 1;
    hide *;
    WillSendIs(m, slots, es);
    OtherStillHolds(m, slots, es);
    EventOfTwo(m.pending, m.next, slots, es, n, a, b);
    EventOfTwo(m.pending, m.next, slots, es, 0, a, b);
    LineOfTwo(m.pending, DoneBy(m, es[..n]), a, b);
    NotTheSame(slots, es, m.pending[DoneBy(m, es[..n])].stream);
  }

  lemma {:induction false} LineOfTwo(ps: seq<PendingLine>, i: nat, a: LogStream, b: LogStream)
    requires OfTwo(ps, a, b) && i < |ps|
    ensures ps[i].stream == a || ps[i].stream == b
  {
  }

  /** First and last event are of different streams, and neither of one that still holds lines. */
  lemma {:induction false} NotTheSame(slots: seq<StreamSlot>, es: seq<Emission>, other: LogStream)
    requires OneEach(slots, es) && es != [] && Runs.HeldBy(slots, other) != []
    ensures es[0].stream != other && es[|es| - 1].stream != other
    ensures |es| > 1 ==> es[0].stream != es[|es| - 1].stream
  {
  }

  lemma {:induction false} EventOfTwo(ps: seq<PendingLine>, next: nat, slots: seq<StreamSlot>, es: seq<Emission>,
      i: nat, a: LogStream, b: LogStream)
    requires Linked(ps, next, slots, es) && i < |es| && es[i].lines != [] && OfTwo(ps, a, b)
    ensures es[i].stream == a || es[i].stream == b
  {
    hide Linked;
    EventOfPending(ps, next, slots, es, i);
  }

  lemma {:induction false} OtherStillHolds(m: Multi, slots: seq<StreamSlot>, es: seq<Emission>)
    requires WillSend(m, slots, es) && |m.pending| <= m.next && es != []
    requires
      var n := |es| - 1;
      DoneBy(m, es[..n]) < |m.pending| && m.pending[DoneBy(m, es[..n])].stream != es[n].stream
    ensures Runs.HeldBy(slots, m.pending[DoneBy(m, es[..|es| - 1])].stream) != []
  {
    var n, base := |es| - 1, m.next - |m.pending|;
    hide *;
    WillSendIs(m, slots, es);
    LeftAtFirst(m);
    DoneByIs(m, es[..n]);
    var left := LeftAfter(m.pending, base, {}, m.pending, slots, es, n);
    assert es[n..] == [es[n]];
    LeftLength(m.pending, base, {} + AllOffsets(es[..n]), left);
    LeftIsHeld(left, m.next, slots, es[n]);
  }

  // ------------------------------------------------------------------------- a flush

  lemma {:induction false} SomethingWaits(ps: seq<PendingLine>, next: nat, slots: seq<StreamSlot>, es: seq<Emission>)
    requires Linked(ps, next, slots, es) && es != [] && es[0].lines != []
    ensures ps != []
  {
    ConsumeLinks(ps, next, slots, es);
    WaitingAbove(ps, next - |ps|, es[0].stream);
  }

  /** There is always something left for the last event. */
  lemma {:induction false} LeftForLast(m: Multi, slots: seq<StreamSlot>, es: seq<Emission>)
    requires WillSend(m, slots, es) && |m.pending| <= m.next && es != [] && es[|es| - 1].lines != []
    ensures DoneBy(m, es[..|es| - 1]) < |m.pending|
  {
    var n, base := |es| - 1, m.next - |m.pending|;
    hide *;
    WillSendIs(m, slots, es);
    LeftAtFirst(m);
    DoneByIs(m, es[..n]);
    var left := LeftAfter(m.pending, base, {}, m.pending, slots, es, n);
    assert es[n..] == [es[n]];
    SomethingWaits(left, m.next, slots, es[n..]);
    LeftLength(m.pending, base, {} + AllOffsets(es[..n]), left);
  }

  lemma {:induction false} LeftLength(ps: seq<PendingLine>, base: nat, sent: set<nat>, left: seq<PendingLine>)
    requires LeftOf(ps, base, sent, left)
    ensures DonePrefix(ps, base, sent) + |left| == |ps|
    ensures left != [] ==> !left[0].finished && left[0].stream == ps[DonePrefix(ps, base, sent)].stream
  {
    DonePrefixIs(ps, base, sent, DonePrefix(ps, base, sent));
    hide DoneFrom;
  }

  lemma {:induction false} TracksNext(m: Multi)
    requires Tracks(m)
    ensures |m.pending| <= m.next
  {
  }

  /** A flush leaves nothing pending: its events complete all of it. */
  lemma {:induction false} FlushFinishes(c: AssemblerConfig, m: Multi)
    requires Tracks(m) && Popped(m)
    ensures DoneBy(m, Collect(c, m.slots, OnFlush).emissions) == |m.pending|
    ensures m.pending != [] ==> Collect(c, m.slots, OnFlush).emissions != []
  {
    hide *;
    TracksNext(m);
    var p, base := Collect(c, m.slots, OnFlush), m.next - |m.pending|;
    var es := p.emissions;
    CollectLinks(c, m, OnFlush);
    Runs.FlushEmpties(c, m.slots);
    LeftAtFirst(m);
    DoneByIs(m, es);
    var left := LeftAfter(m.pending, base, {}, m.pending, p.slots, es, |es|);
    assert es[..|es|] == es && es[|es|..] == [];
    AllFinished(left, m.next, p.slots);
    LeftLength(m.pending, base, {} + AllOffsets(es), left);
    if es == [] {
      assert {} + AllOffsets(es) == {} by {
        OffsetsOfNone();
      }
    }
  }

  lemma {:induction false} OffsetsOfNone()
    ensures AllOffsets([]) == {}
  {
  }

  /**
   The furthest release of a flush is the last checkpoint pending. It is reported if and only if the
   lines left for the last event hold a checkpoint or the others hold none; so it always is when
   every line has one.
   */
  lemma {:induction false} FlushReportsTheFurthest(c: AssemblerConfig, m: Multi)
    requires Tracks(m) && Popped(m) && m.pending != []
    ensures Collect(c, m.slots, OnFlush).emissions != []
    ensures
      var es := Collect(c, m.slots, OnFlush).emissions;
      var before := DoneBy(m, es[..|es| - 1]);
      && LastRelease(SentAll(m.pending, es)) == LastCheckpoint(m.pending)
      && (Reported(m.pending, es) == LastCheckpoint(m.pending) <==>
            LastCheckpoint(m.pending[before..]).Some? || LastCheckpoint(m.pending[..before]).None?)
      && (AllCheckpointed(m.pending) ==> Reported(m.pending, es) == m.pending[|m.pending| - 1].checkpoint)
  {
    var p := Collect(c, m.slots, OnFlush);
    var es := p.emissions;
    FlushFinishes(c, m);
    assert es[|es| - 1].lines != [];
    CollectLinks(c, m, OnFlush);
    assert WillSend(m, p.slots, es) && |m.pending| <= m.next;
    hide *;
    LastReportsTheFurthest(m, p.slots, es);
    LeftForLast(m, p.slots, es);
    SentEach(m.pending, es);
    FurthestIs(m, p.slots, es, |es|);
    var before := DoneBy(m, es[..|es| - 1]);
    assert es[..|es|] == es && SentAll(m.pending, es)[..|es|] == SentAll(m.pending, es);
    assert m.pending[..|m.pending|] == m.pending && m.pending[before..|m.pending|] == m.pending[before..];
    if AllCheckpointed(m.pending) {
      LastOfMany(m.pending);
      LastOfMany(m.pending[before..]);
      LaterCheckpointed(m.pending, before);
    }
  }

  lemma {:induction false} LastOfMany(ps: seq<PendingLine>)
    ensures AllCheckpointed(ps) && ps != [] ==>
      LastCheckpoint(ps) == ps[|ps| - 1].checkpoint && LastCheckpoint(ps).Some?
  {
  }

  lemma {:induction false} LaterCheckpointed(ps: seq<PendingLine>, i: nat)
    requires AllCheckpointed(ps) && i <= |ps|
    ensures AllCheckpointed(ps[i..])
  {
  }

  lemma {:induction false} AllFinished(ps: seq<PendingLine>, next: nat, slots: seq<StreamSlot>)
    requires Linked(ps, next, slots, []) && forall i :: 0 <= i < |slots| ==> slots[i].asm.held == []
    ensures ps == [] || ps[0].finished
  {
    if ps != [] {
      var st := ps[0].stream;
      Runs.NoneHeld(slots, st);
      assert Waiting(ps, next - |ps|, st) == Starts(Runs.EmittedBy([], st) + Runs.HeldBy(slots, st));
    }
  }

  /** What is left pending never starts with a finished line. */
  lemma {:induction false} ConsumedPops(ps: seq<PendingLine>, es: seq<Emission>)
    requires ps == [] || !ps[0].finished
    ensures ConsumedAll(ps, es) == [] || !ConsumedAll(ps, es)[0].finished
    decreases |es|
  {
    if es != [] {
      ConsumedPops(AfterConsume(ps, es[0].stream, |es[0].lines|), es[1..]);
    }
  }

  // -------------------------------------------------------------------------- every run

  lemma {:induction false} RunPops(c: AssemblerConfig, ops: seq<Op>)
    ensures Popped(RunOps(c, ops).multi)
  {
    if ops != [] {
      var h, op := RunOps(c, ops[..|ops| - 1]), ops[|ops| - 1];
      RunPops(c, ops[..|ops| - 1]);
      ConsumedPops(Pending(h, op), Emitting(c, h, op));
      hide ConsumedAll, Feed, Collect, AllOffsets;
    }
  }

  /** A line on each stream, the second without a timestamp of its own to resume from. */
  ghost function TwoLines(line: bytes): seq<Op> {
    [LineOp(Arriving(Stdout, line, 1, Some(1), 0)), LineOp(Arriving(Stderr, line, 2, None, 0))]
  }

  ghost function HeldAt(line: bytes, o: nat): Held {
    Held(line, LineContext(o, o + 1, 0))
  }

  ghost function TwoSlots(line: bytes): seq<StreamSlot> {
    [InitialSlots[0], StreamSlot(Stdout, Assembler([HeldAt(line, 0)], Some(0))),
     StreamSlot(Stderr, Assembler([HeldAt(line, 1)], Some(0)))]
  }

  ghost function TwoPending(): seq<PendingLine> {
    [PendingLine(Stdout, 1, Some(1), false), PendingLine(Stderr, 2, None, false)]
  }

  /** A line that completes nothing. */
  lemma {:induction false} LineWaits(c: AssemblerConfig, ops: seq<Op>, m: Multi, a: Arriving, slots: seq<StreamSlot>)
    requires RunOps(c, ops).multi == m && FeedOf(c, m, a) == Progress([], slots)
    ensures RunOps(c, ops + [LineOp(a)]).multi == Multi(slots, m.next + 1, PendingWith(m, a))
  {
    assert (ops + [LineOp(a)])[..|ops|] == ops;
    hide Feed, AllOffsets;
  }

  lemma {:induction false} BothWait(c: AssemblerConfig, line: bytes)
    requires c.maxLines > 0
    ensures RunOps(c, TwoLines(line)).multi == Multi(TwoSlots(line), 2, TwoPending())
  {
    var ops, ps := TwoLines(line), TwoPending();
    var s1 := InitialSlots + [StreamSlot(Stdout, Assembler([HeldAt(line, 0)], Some(0)))];
    FeedNew(c, InitialSlots, Arrival(Stdout, HeldAt(line, 0), 0));
    LineWaits(c, [], NewMulti, ops[0].arriving, s1);
    assert [] + [ops[0]] == ops[..1] && [] + [ps[0]] == ps[..1];
    hide Feed, RunOps, Fed;
    FeedNew(c, s1, Arrival(Stderr, HeldAt(line, 1), 0));
    LineWaits(c, ops[..1], Multi(s1, 1, ps[..1]), ops[1].arriving, TwoSlots(line));
    assert ops[..1] + [ops[1]] == ops && ps[..1] + [ps[1]] == ps;
  }

  ghost function TwoEvents(line: bytes): seq<Emission> {
    [Emission(Stdout, [HeldAt(line, 0)]), Emission(Stderr, [HeldAt(line, 1)])]
  }

  lemma {:induction false} BothTimeOut(c: AssemblerConfig, line: bytes)
    ensures Collect(c, TwoSlots(line), OnTimeout(c.timeout + 1)).emissions == TwoEvents(line)
  {
    var s, mode := TwoSlots(line), OnTimeout(c.timeout + 1);
    assert s[..2] == [s[0], s[1]] && [s[0], s[1]][..1] == [s[0]] && [s[0]][..0] == [];
    assert Collect(c, [s[0]], mode).emissions == [];
    assert Collect(c, [s[0], s[1]], mode).emissions == [Emission(Stdout, [HeldAt(line, 0)])];
  }

  lemma {:induction false} OneOffset(stream: LogStream, line: bytes, o: nat)
    ensures Offsets(Emission(stream, [HeldAt(line, o)])) == {o}
  {
    assert Starts([HeldAt(line, o)]) == [o];
  }

  lemma {:induction false} DoneInTurn(m: Multi, line: bytes)
    requires m.pending == TwoPending() && m.next == 2
    ensures DoneBy(m, TwoEvents(line)[..1]) == 1 && DoneBy(m, TwoEvents(line)) == 2
  {
    var es := TwoEvents(line);
    var e, f := es[0], es[1];
    assert es[..1] == [e] && [e][1..] == [] && es[1..] == [f] && [f][1..] == [];
    OneOffset(Stdout, line, 0);
    OneOffset(Stderr, line, 1);
    assert AllOffsets([]) == {} && AllOffsets([e]) == {0} + {} && AllOffsets([f]) == {1} + {};
    assert AllOffsets(es) == {0} + {1};
    assert {} + {0} == {0} && {} + {0, 1} == {0, 1};
    hide AllOffsets, Offsets, DonePrefix;
    DonePrefixIs(m.pending, 0, {0}, 1);
    DonePrefixIs(m.pending, 0, {0, 1}, 2);
  }

  /**
   An idle check can drop a released checkpoint: one stream's event releases its line, the other's
   finishes a line that has no checkpoint, and only the second release, which is none, is reported.
   */
  lemma {:induction false} IdleCheckDropsARelease(c: AssemblerConfig, line: bytes)
    requires c.maxLines > 0
    ensures
      var m := RunOps(c, TwoLines(line)).multi;
      var es := Collect(c, m.slots, OnTimeout(c.timeout + 1)).emissions;
      Reported(m.pending, es) == None && LastRelease(SentAll(m.pending, es)) == Some(1)
  {
    var m := RunOps(c, TwoLines(line)).multi;
    var p := Collect(c, m.slots, OnTimeout(c.timeout + 1));
    RunBalances(c, TwoLines(line));
    RunPops(c, TwoLines(line));
    CollectLinks(c, m, OnTimeout(c.timeout + 1));
    assert WillSend(m, p.slots, p.emissions) && |m.pending| <= m.next;
    hide RunOps, Collect, Linked, WillSend, SentAll, DoneBy, TwoLines, TwoSlots;
    BothWait(c, line);
    BothTimeOut(c, line);
    DoneInTurn(m, line);
    DroppedAfterOne(m, p.slots, p.emissions);
  }

  lemma {:induction false} DroppedAfterOne(m: Multi, slots: seq<StreamSlot>, es: seq<Emission>)
    requires WillSend(m, slots, es) && |es| == 2 && m.pending == TwoPending() && m.next == 2
    requires DoneBy(m, es[..1]) == 1 && DoneBy(m, es) == 2
    ensures Reported(m.pending, es) == None && LastRelease(SentAll(m.pending, es)) == Some(1)
  {
    var all := SentAll(m.pending, es);
    hide WillSend, SentAll, DoneBy;
    SentEach(m.pending, es);
    assert es[..2] == es && all[..2] == all;
    assert m.pending[..2] == [m.pending[0], m.pending[1]] && m.pending[1..2] == [m.pending[1]];
    assert LastCheckpoint([m.pending[1]]) == None;
    assert [m.pending[0], m.pending[1]][..1] == [m.pending[0]] && [m.pending[0]][..0] == [];
    assert LastCheckpoint(m.pending[..2]) == Some(1);
    ReleaseIs(m, slots, es, 1);
    FurthestIs(m, slots, es, 2);
  }
}
