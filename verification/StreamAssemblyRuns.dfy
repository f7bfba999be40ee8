/** What the per-stream assemblers keep over every interleaving of lines and drains. */
module StreamAssemblyRuns {
  import opened Common
  import opened EntryAssembly
  import opened StreamAssembly

  /** No stream owns two slots. */
  ghost predicate Unique(slots: seq<StreamSlot>) {
    forall i, j :: 0 <= i < j < |slots| ==> slots[i].stream != slots[j].stream
  }

  /** Lines still buffered for one stream. */
  function HeldBy(slots: seq<StreamSlot>, stream: LogStream): seq<Held> {
    var i := SlotIndex(slots, stream);
    if i < |slots| then slots[i].asm.held else []
  }

  /** Lines emitted for one stream, in order. */
  function EmittedBy(es: seq<Emission>, stream: LogStream): seq<Held> {
    if es == [] then []
    else
      var n := |es| - 1;
      EmittedBy(es[..n], stream) + if es[n].stream == stream then es[n].lines else []
  }

  /** Lines that arrived on one stream, in order. */
  function ArrivedOn(arrivals: seq<Arrival>, stream: LogStream): seq<Held> {
    if arrivals == [] then []
    else
      var n := |arrivals| - 1;
      ArrivedOn(arrivals[..n], stream) + if arrivals[n].stream == stream then [arrivals[n].held] else []
  }

  ghost predicate WithinCap(c: AssemblerConfig, slots: seq<StreamSlot>) {
    forall i :: 0 <= i < |slots| ==> |slots[i].asm.held| <= c.maxLines
  }

  /** Every event holds at least one line and no more than the cap. */
  ghost predicate EventsWithinCap(c: AssemblerConfig, es: seq<Emission>) {
    forall i :: 0 <= i < |es| ==> 1 <= |es[i].lines| <= c.maxLines
  }

  lemma {:induction false} EmittedByAppend(a: seq<Emission>, b: seq<Emission>, stream: LogStream)
    ensures EmittedBy(a + b, stream) == EmittedBy(a, stream) + EmittedBy(b, stream)
  {
    if b == [] {
      assert a + b == a;
    } else {
      var n := |b| - 1;
      assert (a + b)[..|a + b| - 1] == a + b[..n];
      EmittedByAppend(a, b[..n], stream);
    }
  }

  ghost predicate Sound(c: AssemblerConfig, slots: seq<StreamSlot>) {
    Unique(slots) && WithinCap(c, slots)
  }

  /** Two conserving steps in a row conserve. */
  lemma {:induction false} Chain<T>(e: seq<T>, h: seq<T>, start: seq<T>, input: seq<T>, e': seq<T>, h': seq<T>,
      x: seq<T>)
    requires e + h == start + input
    requires e' + h' == h + x
    ensures (e + e') + h' == start + (input + x)
  {
    assert (e + e') + h' == e + (e' + h');
    assert e + (h + x) == (e + h) + x;
  }

  lemma {:induction false} EmittedByOne(es: seq<Emission>, stream: LogStream)
    requires |es| <= 1
    ensures EmittedBy(es, stream) == if es != [] && es[0].stream == stream then es[0].lines else []
  {
    if es != [] {
      assert es[..0] == [];
      assert EmittedBy([], stream) == [];
    }
  }

  lemma {:induction false} FeedKeepsSound(c: AssemblerConfig, slots: seq<StreamSlot>, a: Arrival)
    requires c.maxLines > 0 && Sound(c, slots)
    ensures Sound(c, Feed(c, slots, a).slots) && EventsWithinCap(c, Feed(c, slots, a).emissions)
  {
  }

  /** Feeding one line moves lines from a stream's slot to its events and loses none. */
  lemma {:induction false} FeedConserves(c: AssemblerConfig, slots: seq<StreamSlot>, a: Arrival, stream: LogStream)
    ensures
      var p := Feed(c, slots, a);
      EmittedBy(p.emissions, stream) + HeldBy(p.slots, stream)
      == HeldBy(slots, stream) + if a.stream == stream then [a.held] else []
  {
    var p := Feed(c, slots, a);
    EmittedByOne(p.emissions, stream);
    if stream == a.stream {
      SlotIndexIs(p.slots, stream, SlotIndex(slots, stream));
    } else {
      var k := SlotIndex(slots, stream);
      SlotIndexIs(p.slots, stream, if k < |slots| then k else |p.slots|);
    }
  }

  lemma {:induction false} CollectKeepsSound(c: AssemblerConfig, slots: seq<StreamSlot>, mode: DrainMode)
    requires Sound(c, slots)
    ensures
      var p := Collect(c, slots, mode);
      && Sound(c, p.slots) && EventsWithinCap(c, p.emissions)
      && (forall i :: 0 <= i < |slots| ==> p.slots[i].stream == slots[i].stream)
  {
    if slots != [] {
      CollectKeepsSound(c, slots[..|slots| - 1], mode);
    }
  }

  lemma {:induction false} HeldBySnoc(slots: seq<StreamSlot>, last: StreamSlot, stream: LogStream)
    requires Unique(slots + [last])
    ensures HeldBy(slots + [last], stream) ==
            if last.stream == stream then HeldBy(slots, stream) + last.asm.held else HeldBy(slots, stream)
  {
    var k := SlotIndex(slots, stream);
    var all := slots + [last];
    if k < |slots| {
      SlotIndexIs(all, stream, k);
      assert all[k].stream != all[|slots|].stream;
    } else {
      SlotIndexIs(all, stream, if last.stream == stream then |slots| else |slots| + 1);
    }
  }

  /** Draining one more slot conserves when the slots before it did. */
  lemma {:induction false} DrainLast(front: seq<StreamSlot>, last: StreamSlot, before: Progress, next: Advance,
      stream: LogStream)
    requires Unique(front + [last])
    requires |before.slots| == |front| && forall i :: 0 <= i < |front| ==> before.slots[i].stream == front[i].stream
    requires next.emitted + next.rest.held == last.asm.held
    requires EmittedBy(before.emissions, stream) + HeldBy(before.slots, stream) == HeldBy(front, stream)
    ensures
      var added := if next.emitted == [] then [] else [Emission(last.stream, next.emitted)];
      EmittedBy(before.emissions + added, stream) + HeldBy(before.slots + [StreamSlot(last.stream, next.rest)], stream)
      == HeldBy(front + [last], stream)
  {
    var added := if next.emitted == [] then [] else [Emission(last.stream, next.emitted)];
    var rest := StreamSlot(last.stream, next.rest);
    hide EmittedBy, HeldBy;
    EmittedByAppend(before.emissions, added, stream);
    EmittedByOne(added, stream);
    HeldBySnoc(front, last, stream);
    assert Unique(before.slots + [rest]) by {
      var all := front + [last];
      assert forall i :: 0 <= i < |all| ==> (before.slots + [rest])[i].stream == all[i].stream;
    }
    HeldBySnoc(before.slots, rest, stream);
    if last.stream == stream {
      NotBeforeLast(front, last);
      Join3(EmittedBy(before.emissions, stream), HeldBy(before.slots, stream), next.emitted, next.rest.held,
        last.asm.held);
    }
  }

  lemma {:induction false} NotBeforeLast(front: seq<StreamSlot>, last: StreamSlot)
    requires Unique(front + [last])
    ensures HeldBy(front, last.stream) == []
  {
    var all := front + [last];
    assert forall i :: 0 <= i < |front| ==> all[i] == front[i] && all[i].stream != all[|front|].stream;
    SlotIndexIs(front, last.stream, |front|);
  }

  /** Draining moves buffered lines to events and loses none. */
  lemma {:induction false} CollectConserves(c: AssemblerConfig, slots: seq<StreamSlot>, mode: DrainMode,
      stream: LogStream)
    requires Unique(slots)
    ensures
      var p := Collect(c, slots, mode);
      EmittedBy(p.emissions, stream) + HeldBy(p.slots, stream) == HeldBy(slots, stream)
  {
    hide EmittedBy, HeldBy;
    if slots == [] {
      NoneCollected(stream);
    } else {
      var n := |slots| - 1;
      var front := slots[..n];
      assert slots == front + [slots[n]];
      CollectConserves(c, front, mode, stream);
      CollectKeepsStreams(c, front, mode);
      DrainLast(front, slots[n], Collect(c, front, mode), DrainOne(c, slots[n].asm, mode), stream);
    }
  }

  lemma {:induction false} NoneCollected(stream: LogStream)
    ensures EmittedBy([], stream) == [] && HeldBy([], stream) == []
  {
  }

  lemma {:induction false} CollectKeepsStreams(c: AssemblerConfig, slots: seq<StreamSlot>, mode: DrainMode)
    ensures forall i :: 0 <= i < |slots| ==> Collect(c, slots, mode).slots[i].stream == slots[i].stream
  {
    if slots != [] {
      CollectKeepsStreams(c, slots[..|slots| - 1], mode);
    }
  }

  lemma {:induction false} Join3<T>(e: seq<T>, h: seq<T>, e': seq<T>, h': seq<T>, all: seq<T>)
    requires e + h == [] && e' + h' == all
    ensures (e + e') + (h + h') == [] + all
  {
    assert |e + h| == 0;
    assert e == [] && h == [];
  }

  lemma {:induction false} FeedAllKeepsSound(c: AssemblerConfig, slots: seq<StreamSlot>, arrivals: seq<Arrival>)
    requires c.maxLines > 0 && Sound(c, slots)
    ensures Sound(c, FeedAll(c, slots, arrivals).slots) && EventsWithinCap(c, FeedAll(c, slots, arrivals).emissions)
  {
    if arrivals != [] {
      var n := |arrivals| - 1;
      FeedAllKeepsSound(c, slots, arrivals[..n]);
      FeedKeepsSound(c, FeedAll(c, slots, arrivals[..n]).slots, arrivals[n]);
    }
  }

  lemma {:induction false} FeedAllConserves(c: AssemblerConfig, slots: seq<StreamSlot>, arrivals: seq<Arrival>,
      stream: LogStream)
    ensures
      var p := FeedAll(c, slots, arrivals);
      EmittedBy(p.emissions, stream) + HeldBy(p.slots, stream) == HeldBy(slots, stream) + ArrivedOn(arrivals, stream)
  {
    if arrivals != [] {
      var n := |arrivals| - 1;
      FeedAllConserves(c, slots, arrivals[..n], stream);
      var before := FeedAll(c, slots, arrivals[..n]);
      var last := Feed(c, before.slots, arrivals[n]);
      FeedConserves(c, before.slots, arrivals[n], stream);
      EmittedByAppend(before.emissions, last.emissions, stream);
      Chain(EmittedBy(before.emissions, stream), HeldBy(before.slots, stream), HeldBy(slots, stream),
        ArrivedOn(arrivals[..n], stream),
            EmittedBy(last.emissions, stream), HeldBy(last.slots, stream),
              if arrivals[n].stream == stream then [arrivals[n].held] else []);
    }
  }

  // ------------------------------------------------------------------ whole runs

  datatype AssemblyOp = Arrive(arrival: Arrival) | DrainAll(mode: DrainMode)

  datatype AssemblyRun = AssemblyRun(slots: seq<StreamSlot>, log: seq<Emission>, seen: seq<Arrival>)

  const NewRun := AssemblyRun(InitialSlots, [], [])

  function Step(c: AssemblerConfig, r: AssemblyRun, op: AssemblyOp): AssemblyRun {
    match op
    case Arrive(a) =>
      var p := Feed(c, r.slots, a);
      AssemblyRun(p.slots, r.log + p.emissions, r.seen + [a])
    case DrainAll(mode) =>
      var p := Collect(c, r.slots, mode);
      AssemblyRun(p.slots, r.log + p.emissions, r.seen)
  }

  function RunOps(c: AssemblerConfig, ops: seq<AssemblyOp>): AssemblyRun {
    if ops == [] then NewRun else Step(c, RunOps(c, ops[..|ops| - 1]), ops[|ops| - 1])
  }

  /**
   For every interleaving of streams and drains: a stream's events, put end to end, followed by
   its buffered lines, are exactly the lines that arrived on it in order; and no event is empty,
   exceeds the line cap or, since it is tagged by its own assembler, mixes streams.
   */
  lemma {:induction false} EveryInterleavingConserves(c: AssemblerConfig, ops: seq<AssemblyOp>, stream: LogStream)
    requires c.maxLines > 0
    ensures Conserved(c, RunOps(c, ops), stream)
  {
    if ops == [] {
      assert HeldBy(InitialSlots, stream) == [];
    } else {
      var n := |ops| - 1;
      EveryInterleavingConserves(c, ops[..n], stream);
      StepConserves(c, RunOps(c, ops[..n]), ops[n], stream);
    }
  }

  ghost predicate Conserved(c: AssemblerConfig, r: AssemblyRun, stream: LogStream) {
    && Sound(c, r.slots) && EventsWithinCap(c, r.log)
    && EmittedBy(r.log, stream) + HeldBy(r.slots, stream) == ArrivedOn(r.seen, stream)
  }

  lemma {:induction false} StepConserves(c: AssemblerConfig, r: AssemblyRun, op: AssemblyOp, stream: LogStream)
    requires c.maxLines > 0 && Conserved(c, r, stream)
    ensures Conserved(c, Step(c, r, op), stream)
  {
    match op
    case Arrive(a) =>
      var p := Feed(c, r.slots, a);
      FeedKeepsSound(c, r.slots, a);
      FeedConserves(c, r.slots, a, stream);
      EmittedByAppend(r.log, p.emissions, stream);
      assert (r.seen + [a])[..|r.seen|] == r.seen;
      Chain(EmittedBy(r.log, stream), HeldBy(r.slots, stream), [], ArrivedOn(r.seen, stream),
            EmittedBy(p.emissions, stream), HeldBy(p.slots, stream), if a.stream == stream then [a.held] else []);
    case DrainAll(mode) =>
      var p := Collect(c, r.slots, mode);
      CollectKeepsSound(c, r.slots, mode);
      CollectConserves(c, r.slots, mode, stream);
      EmittedByAppend(r.log, p.emissions, stream);
      Chain(EmittedBy(r.log, stream), HeldBy(r.slots, stream), [], ArrivedOn(r.seen, stream),
            EmittedBy(p.emissions, stream), HeldBy(p.slots, stream), []);
  }

  // ------------------------------------------------------------ the checkpoint ceiling

  /** Lines arrive in file order. */
  ghost predicate InFileOrder(arrivals: seq<Arrival>) {
    forall i, j :: 0 <= i < j < |arrivals| ==> arrivals[i].held.ctx.start < arrivals[j].held.ctx.start
  }

  /** Starts strictly increase along the list. */
  ghost predicate Ascending(hs: seq<Held>) {
    forall i, j :: 0 <= i < j < |hs| ==> hs[i].ctx.start < hs[j].ctx.start
  }

  lemma {:induction false} ArrivedMembers(arrivals: seq<Arrival>, stream: LogStream)
    ensures forall h :: h in ArrivedOn(arrivals, stream) <==>
              exists i :: 0 <= i < |arrivals| && arrivals[i].stream == stream && arrivals[i].held == h
  {
    if arrivals != [] {
      var n := |arrivals| - 1;
      var before := arrivals[..n];
      ArrivedMembers(before, stream);
      forall h | h in ArrivedOn(before, stream)
        ensures exists i :: 0 <= i < |arrivals| && arrivals[i].stream == stream && arrivals[i].held == h
      {
        var i :| 0 <= i < |before| && before[i].stream == stream && before[i].held == h;
        assert arrivals[i] == before[i];
      }
      forall i | 0 <= i < |arrivals| && arrivals[i].stream == stream
        ensures arrivals[i].held in ArrivedOn(arrivals, stream)
      {
        if i < n {
          assert before[i] == arrivals[i];
        }
      }
    }
  }

  lemma {:induction false} ArrivedAscending(arrivals: seq<Arrival>, stream: LogStream)
    requires InFileOrder(arrivals)
    ensures Ascending(ArrivedOn(arrivals, stream))
  {
    if arrivals != [] {
      var n := |arrivals| - 1;
      var before := arrivals[..n];
      ArrivedAscending(before, stream);
      ArrivedMembers(before, stream);
      forall h | h in ArrivedOn(before, stream)
        ensures h.ctx.start < arrivals[n].held.ctx.start
      {
        var i :| 0 <= i < |before| && before[i].stream == stream && before[i].held == h;
        assert before[i] == arrivals[i];
      }
    }
  }

  /** The slots' lowest oldest start is below every held start, and one slot attains it. */
  lemma {:induction false} BufferedStartIsLowest(slots: seq<StreamSlot>)
    ensures BufferedStart(slots).None? <==> forall i :: 0 <= i < |slots| ==> slots[i].asm.held == []
    ensures BufferedStart(slots).Some? ==>
              && (exists i :: 0 <= i < |slots| && slots[i].asm.held != []
                              && slots[i].asm.held[0].ctx.start == BufferedStart(slots).value)
              && (forall i :: 0 <= i < |slots| && slots[i].asm.held != [] ==>
                    BufferedStart(slots).value <= slots[i].asm.held[0].ctx.start)
  {
    if slots != [] {
      var n := |slots| - 1;
      BufferedStartIsLowest(slots[..n]);
      assert forall i :: 0 <= i < n ==> slots[..n][i] == slots[i];
      var before := BufferedStart(slots[..n]);
      if before.Some? && (slots[n].asm.held == [] || before.value <= slots[n].asm.held[0].ctx.start) {
        var i :| 0 <= i < n && slots[..n][i].asm.held != [] && slots[..n][i].asm.held[0].ctx.start == before.value;
        assert slots[i].asm.held[0].ctx.start == BufferedStart(slots).value;
      } else if slots[n].asm.held != [] {
        assert slots[n].asm.held[0].ctx.start == BufferedStart(slots).value;
      }
    }
  }

  /** A line that arrived and is in no event of its stream yet. */
  ghost predicate ReadNotEmitted(r: AssemblyRun, i: nat) {
    i < |r.seen| && r.seen[i].held !in EmittedBy(r.log, r.seen[i].stream)
  }

  lemma {:induction false} DisjointHalves(a: seq<Held>, b: seq<Held>)
    requires Ascending(a + b)
    ensures Ascending(b)
    ensures forall h :: h in a ==> h !in b
  {
    var all := a + b;
    assert forall i :: 0 <= i < |b| ==> b[i] == all[|a| + i];
    assert forall i :: 0 <= i < |a| ==> a[i] == all[i];
  }

  /** With lines in file order, a line is in its stream's events exactly when it is not buffered. */
  lemma {:induction false} EmittedOrHeld(c: AssemblerConfig, ops: seq<AssemblyOp>, i: nat)
    requires c.maxLines > 0 && InFileOrder(RunOps(c, ops).seen) && i < |RunOps(c, ops).seen|
    ensures
      var r := RunOps(c, ops);
      ReadNotEmitted(r, i) <==> r.seen[i].held in HeldBy(r.slots, r.seen[i].stream)
  {
    var r := RunOps(c, ops);
    var stream := r.seen[i].stream;
    var h := r.seen[i].held;
    EveryInterleavingConserves(c, ops, stream);
    ArrivedAscending(r.seen, stream);
    ArrivedMembers(r.seen, stream);
    var all := ArrivedOn(r.seen, stream);
    var out := EmittedBy(r.log, stream);
    assert h in all;
    DisjointHalves(out, HeldBy(r.slots, stream));
  }

  /**
   Over every run whose lines arrive in file order, the buffered start offset is absent exactly
   when every line read has been emitted; otherwise it is the lowest start of any line read but
   not emitted.
   */
  lemma {:induction false} BufferedStartIsLowestUnemitted(c: AssemblerConfig, ops: seq<AssemblyOp>)
    requires c.maxLines > 0 && InFileOrder(RunOps(c, ops).seen)
    ensures
      var r := RunOps(c, ops);
      var low := BufferedStart(r.slots);
      && (low.None? <==> forall i :: 0 <= i < |r.seen| ==> !ReadNotEmitted(r, i))
      && (low.Some? ==>
            && (exists i: nat :: ReadNotEmitted(r, i) && r.seen[i].held.ctx.start == low.value)
            && (forall i: nat :: ReadNotEmitted(r, i) ==> low.value <= r.seen[i].held.ctx.start))
  {
    var r := RunOps(c, ops);
    var low := BufferedStart(r.slots);
    BufferedStartIsLowest(r.slots);
    forall i: nat | ReadNotEmitted(r, i)
      ensures low.Some? && low.value <= r.seen[i].held.ctx.start
    {
      EmittedOrHeld(c, ops, i);
      HeldAscending(c, ops, r.seen[i].stream);
      var k := SlotIndex(r.slots, r.seen[i].stream);
      var held := r.slots[k].asm.held;
      var x :| 0 <= x < |held| && held[x] == r.seen[i].held;
    }
    if low.Some? {
      var k :| 0 <= k < |r.slots| && r.slots[k].asm.held != [] && r.slots[k].asm.held[0].ctx.start == low.value;
      var stream := r.slots[k].stream;
      EveryInterleavingConserves(c, ops, stream);
      SlotIndexIs(r.slots, stream, k);
      ArrivedMembers(r.seen, stream);
      var h := HeldBy(r.slots, stream)[0];
      assert h in EmittedBy(r.log, stream) + HeldBy(r.slots, stream);
      var i :| 0 <= i < |r.seen| && r.seen[i].stream == stream && r.seen[i].held == h;
      EmittedOrHeld(c, ops, i);
      assert ReadNotEmitted(r, i);
    }
  }

  lemma {:induction false} HeldAscending(c: AssemblerConfig, ops: seq<AssemblyOp>, stream: LogStream)
    requires c.maxLines > 0 && InFileOrder(RunOps(c, ops).seen)
    ensures Ascending(HeldBy(RunOps(c, ops).slots, stream))
  {
    var r := RunOps(c, ops);
    EveryInterleavingConserves(c, ops, stream);
    ArrivedAscending(r.seen, stream);
    DisjointHalves(EmittedBy(r.log, stream), HeldBy(r.slots, stream));
  }

  lemma {:induction false} FlushEmpties(c: AssemblerConfig, slots: seq<StreamSlot>)
    ensures forall i :: 0 <= i < |slots| ==> Collect(c, slots, OnFlush).slots[i].asm.held == []
  {
    if slots != [] {
      FlushEmpties(c, slots[..|slots| - 1]);
    }
  }

  lemma {:induction false} NoneHeld(slots: seq<StreamSlot>, st: LogStream)
    requires forall i :: 0 <= i < |slots| ==> slots[i].asm.held == []
    ensures HeldBy(slots, st) == []
  {
  }

  lemma {:induction false} NoneBuffered(slots: seq<StreamSlot>)
    requires forall i :: 0 <= i < |slots| ==> slots[i].asm.held == []
    ensures BufferedStart(slots) == None
  {
    if slots != [] {
      NoneBuffered(slots[..|slots| - 1]);
    }
  }
}
