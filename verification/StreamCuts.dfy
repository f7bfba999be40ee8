/** Interleaved streams: what one stream's assembler does is what it would do alone, so its events are the right cut. */
module StreamCuts {
  import opened Common
  import opened EntryAssembly
  import opened EventCuts
  import opened StreamAssembly
  import Runs = StreamAssemblyRuns

  /** The stream's assembler; one that has not been created yet is idle. */
  function AssemblerOf(slots: seq<StreamSlot>, stream: LogStream): Assembler {
    var i := SlotIndex(slots, stream);
    if i < |slots| then slots[i].asm else IdleAssembler
  }

  /** The stream's events, in order. */
  function EventsOf(es: seq<Emission>, stream: LogStream): seq<seq<Held>> {
    if es == [] then []
    else
      var n := |es| - 1;
      EventsOf(es[..n], stream) + if es[n].stream == stream then [es[n].lines] else []
  }

  lemma {:induction false} EventsAppend(a: seq<Emission>, b: seq<Emission>, stream: LogStream)
    ensures EventsOf(a + b, stream) == EventsOf(a, stream) + EventsOf(b, stream)
  {
    if b == [] {
      assert a + b == a;
    } else {
      var n := |b| - 1;
      assert (a + b)[..|a + b| - 1] == a + b[..n];
      EventsAppend(a, b[..n], stream);
    }
  }

  lemma {:induction false} EventsOne(e: Emission, stream: LogStream)
    ensures EventsOf([e], stream) == if e.stream == stream then [e.lines] else []
  {
    assert [e][..0] == [];
  }

  function OpOf(mode: DrainMode): Op {
    match mode
    case OnTimeout(now) => CheckOp(now)
    case OnFlush => FlushOp
  }

  /** What the stream's own assembler is asked to do. */
  function Own(ops: seq<Runs.AssemblyOp>, stream: LogStream): seq<Op> {
    if ops == [] then []
    else
      var before := Own(ops[..|ops| - 1], stream);
      match ops[|ops| - 1]
      case Arrive(a) => if a.stream == stream then before + [LineOp(a.held, a.now)] else before
      case DrainAll(mode) => before + [OpOf(mode)]
  }

  function Emitting(next: Advance): seq<seq<Held>> {
    if next.emitted == [] then [] else [next.emitted]
  }

  lemma {:induction false} FeedOwn(c: AssemblerConfig, slots: seq<StreamSlot>, a: Arrival)
    ensures
      var next := Fed(c, AssemblerOf(slots, a.stream), a.held, a.now);
      var p := Feed(c, slots, a);
      AssemblerOf(p.slots, a.stream) == next.rest && EventsOf(p.emissions, a.stream) == Emitting(next)
  {
    var i := SlotIndex(slots, a.stream);
    var p := Feed(c, slots, a);
    SlotIndexIs(p.slots, a.stream, i);
    var next := Fed(c, AssemblerOf(slots, a.stream), a.held, a.now);
    if next.emitted != [] {
      EventsOne(Emission(a.stream, next.emitted), a.stream);
    }
    hide Fed;
  }

  lemma {:induction false} FeedOther(c: AssemblerConfig, slots: seq<StreamSlot>, a: Arrival, stream: LogStream)
    requires a.stream != stream
    ensures AssemblerOf(Feed(c, slots, a).slots, stream) == AssemblerOf(slots, stream)
    ensures EventsOf(Feed(c, slots, a).emissions, stream) == []
  {
    var p := Feed(c, slots, a);
    var i := SlotIndex(slots, stream);
    if i < |slots| {
      SlotIndexIs(p.slots, stream, i);
    } else {
      SlotIndexIs(p.slots, stream, |p.slots|);
    }
    if p.emissions != [] {
      EventsOne(p.emissions[0], stream);
    }
    hide Fed;
  }

  lemma {:induction false} CollectOwn(c: AssemblerConfig, slots: seq<StreamSlot>, mode: DrainMode, stream: LogStream)
    requires Runs.Unique(slots)
    ensures
      var next := DrainOne(c, AssemblerOf(slots, stream), mode);
      var p := Collect(c, slots, mode);
      AssemblerOf(p.slots, stream) == next.rest && EventsOf(p.emissions, stream) == Emitting(next)
  {
    IdleStaysIdle(c, mode);
    if slots != [] {
      hide DrainOne, AssemblerOf, EventsOf;
      var n := |slots| - 1;
      var front := slots[..n];
      assert slots == front + [slots[n]];
      CollectOwn(c, front, mode, stream);
      Runs.CollectKeepsStreams(c, front, mode);
      OneMoreSlot(front, slots[n], Collect(c, front, mode), DrainOne(c, slots[n].asm, mode), stream);
    }
  }

  lemma {:induction false} OneMoreSlot(front: seq<StreamSlot>, last: StreamSlot, before: Progress, next: Advance,
      stream: LogStream)
    requires |before.slots| == |front| && forall i :: 0 <= i < |front| ==> before.slots[i].stream == front[i].stream
    requires forall i :: 0 <= i < |front| ==> front[i].stream != last.stream
    ensures
      var added := if next.emitted == [] then [] else [Emission(last.stream, next.emitted)];
      var slots := before.slots + [StreamSlot(last.stream, next.rest)];
      var own := stream == last.stream;
      && AssemblerOf(slots, stream) == (if own then next.rest else AssemblerOf(before.slots, stream))
      && EventsOf(before.emissions + added, stream)
         == EventsOf(before.emissions, stream) + (if own then Emitting(next) else [])
      && AssemblerOf(front + [last], stream) == (if own then last.asm else AssemblerOf(front, stream))
      && (own ==> AssemblerOf(front, stream) == IdleAssembler)
  {
    hide *;
    var added := if next.emitted == [] then [] else [Emission(last.stream, next.emitted)];
    EventsAppend(before.emissions, added, stream);
    AssemblerAmong(front, last, stream);
    AssemblerAmong(before.slots, StreamSlot(last.stream, next.rest), stream);
    EmittingIs(next, last.stream, stream);
  }

  lemma {:induction false} EmittingIs(next: Advance, of: LogStream, stream: LogStream)
    ensures
      var added := if next.emitted == [] then [] else [Emission(of, next.emitted)];
      EventsOf(added, stream) == if stream == of then Emitting(next) else []
  {
    if next.emitted != [] {
      EventsOne(Emission(of, next.emitted), stream);
    }
  }

  lemma {:induction false} IdleStaysIdle(c: AssemblerConfig, mode: DrainMode)
    ensures DrainOne(c, IdleAssembler, mode) == Advance([], IdleAssembler)
  {
  }

  lemma {:induction false} AssemblerAmong(front: seq<StreamSlot>, last: StreamSlot, stream: LogStream)
    requires forall i :: 0 <= i < |front| ==> front[i].stream != last.stream
    ensures AssemblerOf(front + [last], stream)
      == if stream == last.stream then last.asm else AssemblerOf(front, stream)
    ensures stream == last.stream ==> AssemblerOf(front, stream) == IdleAssembler
  {
    var all := front + [last];
    var i := SlotIndex(front, stream);
    if stream == last.stream {
      SlotIndexIs(all, stream, |front|);
      SlotIndexIs(front, stream, |front|);
    } else if i < |front| {
      SlotIndexIs(all, stream, i);
    } else {
      SlotIndexIs(all, stream, |all|);
    }
  }

  /** The stream's assembler has done what its own operations alone make it do. */
  ghost predicate OnItsOwn(c: AssemblerConfig, r: Runs.AssemblyRun, stream: LogStream, own: seq<Op>) {
    Run(EventsOf(r.log, stream), AssemblerOf(r.slots, stream)) == RunOf(c, own)
  }

  lemma {:induction false} OwnStep(c: AssemblerConfig, own: seq<Op>, op: Op)
    ensures
      var r := RunOf(c, own);
      var next := Advanced(c, r.assembler, op);
      RunOf(c, own + [op]) == Run(r.events + Emitting(next), next.rest)
  {
    assert (own + [op])[..|own|] == own;
  }

  lemma {:induction false} StepOnItsOwn(c: AssemblerConfig, r: Runs.AssemblyRun, op: Runs.AssemblyOp,
      stream: LogStream, own: seq<Op>)
    requires Runs.Unique(r.slots) && OnItsOwn(c, r, stream, own)
    ensures
      match op
      case Arrive(a) =>
        OnItsOwn(c, Runs.Step(c, r, op), stream, if a.stream == stream then own + [LineOp(a.held, a.now)] else own)
      case DrainAll(mode) => OnItsOwn(c, Runs.Step(c, r, op), stream, own + [OpOf(mode)])
  {
    match op
    case Arrive(a) =>
      var p := Feed(c, r.slots, a);
      EventsAppend(r.log, p.emissions, stream);
      if a.stream == stream {
        FeedOwn(c, r.slots, a);
        OwnStep(c, own, LineOp(a.held, a.now));
      } else {
        FeedOther(c, r.slots, a, stream);
      }
      hide Feed, Fed, EventsOf, AssemblerOf, RunOf;
    case DrainAll(mode) =>
      var p := Collect(c, r.slots, mode);
      EventsAppend(r.log, p.emissions, stream);
      CollectOwn(c, r.slots, mode, stream);
      OwnStep(c, own, OpOf(mode));
      hide Collect, EventsOf, AssemblerOf, RunOf;
  }

  lemma {:induction false} EveryStreamIsOnItsOwn(c: AssemblerConfig, ops: seq<Runs.AssemblyOp>, stream: LogStream)
    requires c.maxLines > 0
    ensures OnItsOwn(c, Runs.RunOps(c, ops), stream, Own(ops, stream))
  {
    if ops == [] {
      assert AssemblerOf(InitialSlots, stream) == IdleAssembler;
    } else {
      var n := |ops| - 1;
      EveryStreamIsOnItsOwn(c, ops[..n], stream);
      Runs.EveryInterleavingConserves(c, ops[..n], stream);
      hide OnItsOwn, Runs.Step;
      StepOnItsOwn(c, Runs.RunOps(c, ops[..n]), ops[n], stream, Own(ops[..n], stream));
    }
  }

  /**
   For every interleaving of streams, idle checks and flushes: a stream's events, and the lines its
   assembler holds after them, are the one right cut of the lines that arrived on it.
   */
  lemma {:induction false} EveryStreamIsCutRightly(c: AssemblerConfig, ops: seq<Runs.AssemblyOp>, stream: LogStream)
      returns (done: seq<seq<Arrived>>, current: seq<Arrived>)
    requires c.maxLines > 0
    ensures
      var r := Runs.RunOps(c, ops);
      CutSoFar(c, SeenOf(c, Own(ops, stream)), Run(EventsOf(r.log, stream), AssemblerOf(r.slots, stream)), done,
        current)
  {
    hide CutSoFar;
    EveryStreamIsOnItsOwn(c, ops, stream);
    done, current := EveryRunIsTheCut(c, Own(ops, stream));
  }
}
