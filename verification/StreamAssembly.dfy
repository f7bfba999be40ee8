/** One assembler per container output stream, so that no event mixes streams. */
module StreamAssembly {
  import opened Common
  import opened EntryAssembly

  /** A stream and the value of its assembler. */
  datatype StreamSlot = StreamSlot(stream: LogStream, asm: Assembler)

  /** One line arriving at a given time. */
  datatype Arrival = Arrival(stream: LogStream, held: Held, now: int)

  /** The lines of one emitted event, tagged with the stream that wrote them. */
  datatype Emission = Emission(stream: LogStream, lines: seq<Held>)

  /** What a step emits, and the slots afterwards. */
  datatype Progress = Progress(emissions: seq<Emission>, slots: seq<StreamSlot>)

  /** How the idle check and the shutdown flush drain an assembler. */
  datatype DrainMode = OnTimeout(now: int) | OnFlush

  /** A plain file only ever owns this first slot. */
  const InitialSlots := [StreamSlot(Unspecified, IdleAssembler)]

  function SlotIndex(slots: seq<StreamSlot>, stream: LogStream): (i: nat)
    ensures i <= |slots|
    ensures i < |slots| ==> slots[i].stream == stream
    ensures forall j :: 0 <= j < i ==> slots[j].stream != stream
  {
    if slots == [] || slots[0].stream == stream then 0 else 1 + SlotIndex(slots[1..], stream)
  }

  /** The slots with one for `stream`, created on first sight. */
  function Ensured(slots: seq<StreamSlot>, stream: LogStream): (r: seq<StreamSlot>)
    ensures slots <= r && SlotIndex(slots, stream) < |r|
    ensures r[SlotIndex(slots, stream)].stream == stream
  {
    if SlotIndex(slots, stream) < |slots| then slots else slots + [StreamSlot(stream, IdleAssembler)]
  }

  function Feed(c: AssemblerConfig, slots: seq<StreamSlot>, a: Arrival): (p: Progress)
    ensures forall i :: 0 <= i < |p.emissions| ==> p.emissions[i].lines != []
  {
    var i := SlotIndex(slots, a.stream);
    var ready := Ensured(slots, a.stream);
    var next := Fed(c, ready[i].asm, a.held, a.now);
    Progress(
      if next.emitted == [] then [] else [Emission(a.stream, next.emitted)],
      ready[i := StreamSlot(a.stream, next.rest)])
  }

  function FeedAll(c: AssemblerConfig, slots: seq<StreamSlot>, arrivals: seq<Arrival>): (p: Progress)
    ensures forall i :: 0 <= i < |p.emissions| ==> p.emissions[i].lines != []
  {
    if arrivals == [] then Progress([], slots)
    else
      var n := |arrivals| - 1;
      var before := FeedAll(c, slots, arrivals[..n]);
      var last := Feed(c, before.slots, arrivals[n]);
      Progress(before.emissions + last.emissions, last.slots)
  }

  function DrainOne(c: AssemblerConfig, a: Assembler, mode: DrainMode): Advance {
    match mode
    case OnTimeout(now) => TimedOut(c, a, now)
    case OnFlush => Flushed(a)
  }

  /** Drain every slot in turn, keeping the events in slot order. */
  function Collect(c: AssemblerConfig, slots: seq<StreamSlot>, mode: DrainMode): (p: Progress)
    ensures |p.slots| == |slots|
    ensures forall i :: 0 <= i < |p.emissions| ==> p.emissions[i].lines != []
  {
    if slots == [] then Progress([], [])
    else
      var n := |slots| - 1;
      var before := Collect(c, slots[..n], mode);
      var last := DrainOne(c, slots[n].asm, mode);
      Progress(
        before.emissions + (if last.emitted == [] then [] else [Emission(slots[n].stream, last.emitted)]),
        before.slots + [StreamSlot(slots[n].stream, last.rest)])
  }

  function LowerOf(a: Option<nat>, b: Option<nat>): Option<nat> {
    match (a, b)
    case (None, _) => b
    case (_, None) => a
    case (Some(x), Some(y)) => Some(Min(x, y))
  }

  /** The lowest of the slots' oldest buffered starts. */
  function BufferedStart(slots: seq<StreamSlot>): Option<nat> {
    if slots == [] then None
    else
      var n := |slots| - 1;
      var held := slots[n].asm.held;
      LowerOf(BufferedStart(slots[..n]), if held == [] then None else Some(held[0].ctx.start))
  }

  // ------------------------------------------------------------------ the object

  class StreamAssemblers {
    const config: AssemblerConfig
    var perStream: seq<(LogStream, EntryAssembler)>

    ghost function Assemblers(): set<EntryAssembler>
      reads this
    {
      set i | 0 <= i < |perStream| :: perStream[i].1
    }

    ghost predicate Valid()
      reads this, Assemblers()
    {
      && config.maxLines > 0 && config.timeout > 0
      && (forall i :: 0 <= i < |perStream| ==> perStream[i].1.Valid() && perStream[i].1.config == config)
      && (forall i, j :: 0 <= i < j < |perStream| ==> perStream[i].1 != perStream[j].1)
    }

    ghost function Slot(i: nat): StreamSlot
      requires Valid() && i < |perStream|
      reads this, Assemblers()
    {
      StreamSlot(perStream[i].0, perStream[i].1.Model())
    }

    ghost function Model(): (m: seq<StreamSlot>)
      requires Valid()
      reads this, Assemblers()
      ensures |m| == |perStream| && forall i :: 0 <= i < |m| ==> m[i] == Slot(i)
    {
      seq(|perStream|, i requires 0 <= i < |perStream| && Valid() reads this, Assemblers() => Slot(i))
    }

    constructor (isStart: bytes -> bool, maxLines: nat, timeout: nat)
      ensures Valid() && fresh(Assemblers())
      ensures config == Configured(isStart, maxLines, timeout) && Model() == InitialSlots
    {
      config := Configured(isStart, maxLines, timeout);
      var first := new EntryAssembler(isStart, maxLines, timeout);
      perStream := [(Unspecified, first)];
    }

    /** A new stream's assembler goes last and leaves the others alone. */
    method Create(stream: LogStream)
      requires Valid()
      modifies this`perStream
      ensures Valid() && fresh(Assemblers() - old(Assemblers())) && old(Assemblers()) <= Assemblers()
      ensures Model() == old(Model()) + [StreamSlot(stream, IdleAssembler)]
    {
      hide IdleAssembler;
      var created := new EntryAssembler(config.isStart, config.maxLines, config.timeout);
      ghost var before := perStream;
      perStream := perStream + [(stream, created)];
      assert forall j :: 0 <= j < |before| ==> before[j] == perStream[j];
    }

    /** Index of the stream's assembler, created on first sight. */
    method ForStream(stream: LogStream) returns (i: nat)
      requires Valid()
      modifies this`perStream
      ensures Valid() && fresh(Assemblers() - old(Assemblers())) && old(Assemblers()) <= Assemblers()
      ensures i == SlotIndex(old(Model()), stream) < |perStream|
      ensures Model() == Ensured(old(Model()), stream)
    {
      i := 0;
      hide SlotIndex, IdleAssembler;
      while i < |perStream| && perStream[i].0 != stream
        invariant 0 <= i <= |perStream|
        invariant forall j :: 0 <= j < i ==> perStream[j].0 != stream
      {
        i := i + 1;
      }
      SlotIndexIs(Model(), stream, i);
      if i == |perStream| {
        Create(stream);
      }
    }

    /** Feed one line to the assembler of its stream. */
    method Process(stream: LogStream, line: bytes, ctx: LineContext, now: int) returns (e: Option<Event>)
      requires Valid()
      modifies this`perStream, Assemblers()
      ensures Valid() && fresh(Assemblers() - old(Assemblers()))
      ensures
        var p := Feed(config, old(Model()), Arrival(stream, Held(line, ctx), now));
        && Model() == p.slots
        && e == if p.emissions == [] then None else Some(EventOf(p.emissions[0].lines))
    {
      hide SlotIndex, EventOf, Fed, Join;
      var i := ForStream(stream);
      label found:
      var chosen := perStream[i].1;
      assert chosen in Assemblers();
      e := chosen.Process(line, ctx, now);
      assert forall j :: 0 <= j < |perStream| && j != i ==> perStream[j].1 != chosen && Slot(j) == old@found(Slot(j));
    }

    method DrainAt(i: nat, mode: DrainMode) returns (e: Option<Event>)
      requires Valid() && i < |perStream|
      modifies Assemblers()
      ensures Valid()
      ensures
        var next := DrainOne(config, old(Model())[i].asm, mode);
        && Model() == old(Model())[i := StreamSlot(perStream[i].0, next.rest)]
        && e == EmittedEvent(next.emitted)
      ensures perStream[i].0 == old(Model())[i].stream
    {
      var chosen := perStream[i].1;
      assert chosen in Assemblers();
      match mode {
        case OnTimeout(now) => e := chosen.CheckTimeout(now);
        case OnFlush => e := chosen.Flush();
      }
      assert forall j :: 0 <= j < |perStream| && j != i ==> perStream[j].1 != chosen && Slot(j) == old(Slot(j));
    }

    /** Drain every stream's assembler, keeping each event tagged with its stream. */
    method CollectReady(mode: DrainMode) returns (events: seq<(LogStream, Event)>)
      requires Valid()
      modifies Assemblers()
      ensures Valid()
      ensures Model() == Collect(config, old(Model()), mode).slots
      ensures events == TaggedEvents(Collect(config, old(Model()), mode).emissions)
    {
      ghost var before := Model();
      ghost var m := before;
      events := [];
      var i := 0;
      hide Collect, TaggedEvents, DrainOne, Model, Valid, Slot, EventOf;
      hide CollectedTo;
      CollectStart(config, before, mode);
      while i < |perStream|
        invariant 0 <= i <= |perStream| == |before| && Valid() && m == Model()
        invariant CollectedTo(config, before, mode, i, m, events)
      {
        CollectUpTo(config, before, mode, i, m, events);
        var e := DrainAt(i, mode);
        m := m[i := StreamSlot(before[i].stream, DrainOne(config, before[i].asm, mode).rest)];
        if e.Some? {
          events := events + [(perStream[i].0, e.value)];
        }
        i := i + 1;
      }
      CollectEnd(config, before, mode, m, events);
    }

    /** The furthest offset any line still held allows. */
    method BufferedStartOffset() returns (r: Option<nat>)
      requires Valid()
      ensures r == BufferedStart(Model())
    {
      r := None;
      var i := 0;
      while i < |perStream|
        invariant 0 <= i <= |perStream|
        invariant r == BufferedStart(Model()[..i])
      {
        assert Model()[..i + 1][..i] == Model()[..i];
        assert Model()[i] == Slot(i);
        r := LowerOf(r, perStream[i].1.BufferedStartOffset());
        i := i + 1;
      }
      assert Model()[..i] == Model();
    }
  }

  /** The joined events of a list of emissions. */
  function TaggedEvents(es: seq<Emission>): (r: seq<(LogStream, Event)>)
    requires forall i :: 0 <= i < |es| ==> es[i].lines != []
  {
    if es == [] then []
    else [(es[0].stream, EventOf(es[0].lines))] + TaggedEvents(es[1..])
  }

  lemma {:induction false} TaggedAppend(a: seq<Emission>, b: seq<Emission>)
    requires forall i :: 0 <= i < |a| ==> a[i].lines != []
    requires forall i :: 0 <= i < |b| ==> b[i].lines != []
    ensures TaggedEvents(a + b) == TaggedEvents(a) + TaggedEvents(b)
  {
    if a == [] {
      assert a + b == b;
    } else {
      assert (a + b)[1..] == a[1..] + b;
      TaggedAppend(a[1..], b);
    }
  }

  /** Draining has reached slot `i`: the slots before it are drained, the others untouched. */
  ghost predicate CollectedTo(c: AssemblerConfig, before: seq<StreamSlot>, mode: DrainMode, i: nat, m: seq<StreamSlot>,
      events: seq<(LogStream, Event)>) {
    && i <= |before| && m == Collect(c, before[..i], mode).slots + before[i..]
    && events == TaggedEvents(Collect(c, before[..i], mode).emissions)
  }

  lemma {:induction false} CollectStart(c: AssemblerConfig, before: seq<StreamSlot>, mode: DrainMode)
    ensures CollectedTo(c, before, mode, 0, before, [])
  {
    assert before[..0] == [];
  }

  lemma {:induction false} CollectEnd(c: AssemblerConfig, before: seq<StreamSlot>, mode: DrainMode, m: seq<StreamSlot>,
      events: seq<(LogStream, Event)>)
    requires CollectedTo(c, before, mode, |before|, m, events)
    ensures m == Collect(c, before, mode).slots && events == TaggedEvents(Collect(c, before, mode).emissions)
  {
    assert before[..|before|] == before;
  }

  lemma {:induction false} CollectUpTo(c: AssemblerConfig, before: seq<StreamSlot>, mode: DrainMode, i: nat,
      m: seq<StreamSlot>, events: seq<(LogStream, Event)>)
    requires i < |before| && CollectedTo(c, before, mode, i, m, events)
    ensures |m| == |before| && m[i] == before[i]
    ensures
      var next := DrainOne(c, before[i].asm, mode);
      CollectedTo(c, before, mode, i + 1, m[i := StreamSlot(before[i].stream, next.rest)],
                  if next.emitted == [] then events else events + [(before[i].stream, EventOf(next.emitted))])
  {
    hide Collect, TaggedEvents, EventOf, DrainOne;
    CollectSnoc(c, before, i, mode);
    var done := Collect(c, before[..i], mode).slots;
    assert before[i..] == [before[i]] + before[i + 1..];
    assert m == done + [before[i]] + before[i + 1..];
  }

  lemma {:induction false} CollectSnoc(c: AssemblerConfig, slots: seq<StreamSlot>, i: nat, mode: DrainMode)
    requires i < |slots|
    ensures
      var done := Collect(c, slots[..i], mode);
      var next := DrainOne(c, slots[i].asm, mode);
      var more := Collect(c, slots[..i + 1], mode);
      && more.slots == done.slots + [StreamSlot(slots[i].stream, next.rest)]
      && TaggedEvents(more.emissions) == TaggedEvents(done.emissions)
         + if next.emitted == [] then [] else [(slots[i].stream, EventOf(next.emitted))]
  {
    hide DrainOne, TaggedEvents, EventOf;
    assert slots[..i + 1][..i] == slots[..i];
    var done := Collect(c, slots[..i], mode);
    var next := DrainOne(c, slots[i].asm, mode);
    var added := if next.emitted == [] then [] else [Emission(slots[i].stream, next.emitted)];
    assert Collect(c, slots[..i + 1], mode).emissions == done.emissions + added;
    TaggedAppend(done.emissions, added);
    TaggedOne(slots[i].stream, next.emitted);
  }

  lemma {:induction false} TaggedOne(stream: LogStream, lines: seq<Held>)
    ensures TaggedEvents([]) == []
    ensures lines != [] ==> TaggedEvents([Emission(stream, lines)]) == [(stream, EventOf(lines))]
  {
    if lines != [] {
      assert [Emission(stream, lines)][1..] == [];
    }
  }

  lemma {:induction false} SlotIndexIs(slots: seq<StreamSlot>, stream: LogStream, i: nat)
    requires i <= |slots|
    requires i < |slots| ==> slots[i].stream == stream
    requires forall j :: 0 <= j < i ==> slots[j].stream != stream
    ensures SlotIndex(slots, stream) == i
  {
    if i > 0 {
      SlotIndexIs(slots[1..], stream, i - 1);
    }
  }

  /** A stream seen for the first time gets a slot of its own. */
  lemma {:induction false} FeedNew(c: AssemblerConfig, slots: seq<StreamSlot>, a: Arrival)
    requires c.maxLines > 0 && forall j :: 0 <= j < |slots| ==> slots[j].stream != a.stream
    ensures Feed(c, slots, a) == Progress([], slots + [StreamSlot(a.stream, Assembler([a.held], Some(a.now)))])
  {
    SlotIndexIs(slots, a.stream, |slots|);
    assert IdleAssembler.held + [a.held] == [a.held];
    assert Fed(c, IdleAssembler, a.held, a.now) == Advance([], Assembler([a.held], Some(a.now)));
    var ready := Ensured(slots, a.stream);
    assert ready == slots + [StreamSlot(a.stream, IdleAssembler)];
    assert ready[|slots| := StreamSlot(a.stream, Assembler([a.held], Some(a.now)))]
        == slots + [StreamSlot(a.stream, Assembler([a.held], Some(a.now)))];
  }

  /** A stream with a slot is fed there. */
  lemma {:induction false} FeedKnown(c: AssemblerConfig, slots: seq<StreamSlot>, a: Arrival, i: nat, next: Advance)
    requires i < |slots| && slots[i].stream == a.stream && forall j :: 0 <= j < i ==> slots[j].stream != a.stream
    requires next == Fed(c, slots[i].asm, a.held, a.now)
    ensures
      Feed(c, slots, a)
      == Progress(if next.emitted == [] then [] else [Emission(a.stream, next.emitted)],
                  slots[i := StreamSlot(a.stream, next.rest)])
  {
    SlotIndexIs(slots, a.stream, i);
    hide Fed;
  }
}
