/**
 Multi-line assembly for streaming sources. Lines are recorded in arrival order and marked when the
 event holding them is sent; a resume point is released only through the finished prefix.
 */
module StreamingMultiline {
  import opened Common
  import opened EntryAssembly
  import opened StreamAssembly
  import opened StreamAssemblyRuns

  datatype PendingLine = PendingLine(stream: LogStream, timestampNs: int, checkpoint: Option<nat>, finished: bool)

  // ----------------------------------------------------------------- marking and releasing

  predicate Waits(p: PendingLine, stream: LogStream) {
    !p.finished && p.stream == stream
  }

  /** The first `count` waiting lines of the stream become finished. */
  function Marked(ps: seq<PendingLine>, stream: LogStream, count: nat): (r: seq<PendingLine>)
    ensures |r| == |ps|
  {
    if ps == [] || count == 0 then ps
    else if Waits(ps[0], stream) then [ps[0].(finished := true)] + Marked(ps[1..], stream, count - 1)
    else [ps[0]] + Marked(ps[1..], stream, count)
  }

  /** Timestamp of the first line the mark takes. */
  function FirstStamp(ps: seq<PendingLine>, stream: LogStream, count: nat): Option<int> {
    if ps == [] || count == 0 then None
    else if Waits(ps[0], stream) then Some(ps[0].timestampNs)
    else FirstStamp(ps[1..], stream, count)
  }

  function FinishedPrefix(ps: seq<PendingLine>): (n: nat)
    ensures n <= |ps| && (forall i :: 0 <= i < n ==> ps[i].finished) && (n < |ps| ==> !ps[n].finished)
  {
    if ps == [] || !ps[0].finished then 0 else 1 + FinishedPrefix(ps[1..])
  }

  /** The last checkpoint among some lines. */
  function LastCheckpoint(ps: seq<PendingLine>): Option<nat> {
    if ps == [] then None
    else if ps[|ps| - 1].checkpoint.Some? then ps[|ps| - 1].checkpoint
    else LastCheckpoint(ps[..|ps| - 1])
  }

  datatype Multi = Multi(slots: seq<StreamSlot>, next: nat, pending: seq<PendingLine>)

  const NewMulti := Multi(InitialSlots, 0, [])

  /** An event on its way to the actor, with the resume point its sending releases. */
  datatype Sent = Sent(event: Emission, timestampNs: int, checkpoint: Option<nat>)

  function AfterConsume(ps: seq<PendingLine>, stream: LogStream, count: nat): seq<PendingLine> {
    var marked := Marked(ps, stream, count);
    marked[FinishedPrefix(marked)..]
  }

  function Released(ps: seq<PendingLine>, stream: LogStream, count: nat): Option<nat> {
    var marked := Marked(ps, stream, count);
    LastCheckpoint(marked[..FinishedPrefix(marked)])
  }

  function SentFor(ps: seq<PendingLine>, e: Emission): Sent {
    var stamp := FirstStamp(ps, e.stream, |e.lines|);
    Sent(e, if stamp.Some? then stamp.value else 0, Released(ps, e.stream, |e.lines|))
  }

  /** Send events in turn. */
  function ConsumedAll(ps: seq<PendingLine>, es: seq<Emission>): seq<PendingLine>
    decreases |es|
  {
    if es == [] then ps else ConsumedAll(AfterConsume(ps, es[0].stream, |es[0].lines|), es[1..])
  }

  function SentAll(ps: seq<PendingLine>, es: seq<Emission>): seq<Sent>
    decreases |es|
  {
    if es == [] then []
    else [SentFor(ps, es[0])] + SentAll(AfterConsume(ps, es[0].stream, |es[0].lines|), es[1..])
  }

  /** A line arrives: it is pending, and its arrival may complete an event of its stream. */
  datatype Arriving = Arriving(stream: LogStream, line: bytes, timestampNs: int, checkpoint: Option<nat>, now: int)

  function ContextOf(m: Multi): LineContext {
    LineContext(m.next, m.next + 1, 0)
  }

  function FeedOf(c: AssemblerConfig, m: Multi, a: Arriving): Progress {
    Feed(c, m.slots, Arrival(a.stream, Held(a.line, ContextOf(m)), a.now))
  }

  function PendingWith(m: Multi, a: Arriving): seq<PendingLine> {
    m.pending + [PendingLine(a.stream, a.timestampNs, a.checkpoint, false)]
  }

  function AfterLine(c: AssemblerConfig, m: Multi, a: Arriving): Multi {
    var p := FeedOf(c, m, a);
    Multi(p.slots, m.next + 1, ConsumedAll(PendingWith(m, a), p.emissions))
  }

  function AfterCollect(c: AssemblerConfig, m: Multi, mode: DrainMode): Multi {
    var p := Collect(c, m.slots, mode);
    Multi(p.slots, m.next, ConsumedAll(m.pending, p.emissions))
  }

  // ------------------------------------------------------------ pending lines and held lines

  /** Offsets of the stream's waiting lines; the first pending line has offset `base`. */
  function Waiting(ps: seq<PendingLine>, base: nat, stream: LogStream): seq<nat> {
    if ps == [] then []
    else if Waits(ps[0], stream) then [base] + Waiting(ps[1..], base + 1, stream)
    else Waiting(ps[1..], base + 1, stream)
  }

  function Starts(hs: seq<Held>): (r: seq<nat>)
    ensures |r| == |hs| && forall i :: 0 <= i < |r| ==> r[i] == hs[i].ctx.start
  {
    seq(|hs|, i requires 0 <= i < |hs| => hs[i].ctx.start)
  }

  /** With events `es` still to be sent: each stream's waiting lines are theirs, then the assembler's. */
  ghost predicate Linked(ps: seq<PendingLine>, next: nat, slots: seq<StreamSlot>, es: seq<Emission>) {
    && |ps| <= next && Unique(slots)
    && forall st :: Waiting(ps, next - |ps|, st) == Starts(EmittedBy(es, st) + HeldBy(slots, st))
  }

  lemma {:induction false} WaitingAppend(a: seq<PendingLine>, b: seq<PendingLine>, base: nat, stream: LogStream)
    ensures Waiting(a + b, base, stream) == Waiting(a, base, stream) + Waiting(b, base + |a|, stream)
  {
    if a == [] {
      assert a + b == b;
    } else {
      assert (a + b)[1..] == a[1..] + b;
      WaitingAppend(a[1..], b, base + 1, stream);
    }
  }

  /** A mark takes the oldest waiting lines of its stream and no other. */
  lemma {:induction false} WaitingHead(head: PendingLine, rest: seq<PendingLine>, base: nat, stream: LogStream)
    ensures Waiting([head] + rest, base, stream)
         == (if Waits(head, stream) then [base] else []) + Waiting(rest, base + 1, stream)
  {
    assert ([head] + rest)[1..] == rest;
  }

  lemma {:induction false} MarkTakes(ps: seq<PendingLine>, base: nat, stream: LogStream, count: nat, st: LogStream)
    requires count <= |Waiting(ps, base, stream)|
    ensures Waiting(Marked(ps, stream, count), base, st)
         == if st == stream then Waiting(ps, base, stream)[count..] else Waiting(ps, base, st)
  {
    if ps != [] && count > 0 {
      var head, rest := ps[0], ps[1..];
      if Waits(head, stream) {
        MarkTakes(rest, base + 1, stream, count - 1, st);
        WaitingHead(head.(finished := true), Marked(rest, stream, count - 1), base, st);
      } else {
        MarkTakes(rest, base + 1, stream, count, st);
        WaitingHead(head, Marked(rest, stream, count), base, st);
      }
      hide Marked;
    }
  }

  lemma {:induction false} ReleaseKeepsWaiting(ps: seq<PendingLine>, base: nat, st: LogStream, n: nat)
    requires n <= |ps| && forall i :: 0 <= i < n ==> ps[i].finished
    ensures Waiting(ps[n..], base + n, st) == Waiting(ps, base, st)
  {
    WaitingAppend(ps[..n], ps[n..], base, st);
    assert ps == ps[..n] + ps[n..];
    NoneWait(ps[..n], base, st);
  }

  lemma {:induction false} NoneWait(ps: seq<PendingLine>, base: nat, st: LogStream)
    requires forall i :: 0 <= i < |ps| ==> ps[i].finished
    ensures Waiting(ps, base, st) == []
  {
    if ps != [] {
      NoneWait(ps[1..], base + 1, st);
    }
  }

  lemma {:induction false} EmittedFirst(es: seq<Emission>, st: LogStream)
    requires es != []
    ensures EmittedBy(es, st) == (if es[0].stream == st then es[0].lines else []) + EmittedBy(es[1..], st)
  {
    assert es == [es[0]] + es[1..];
    EmittedByAppend([es[0]], es[1..], st);
    EmittedByOne([es[0]], st);
  }

  lemma {:induction false} StartsSplit(a: seq<Held>, b: seq<Held>)
    ensures Starts(a + b) == Starts(a) + Starts(b)
  {
  }

  lemma {:induction false} WaitingFirst(es: seq<Emission>, slots: seq<StreamSlot>, st: LogStream)
    requires es != []
    ensures
      var own := if es[0].stream == st then es[0].lines else [];
      Starts(EmittedBy(es, st) + HeldBy(slots, st)) == Starts(own) + Starts(EmittedBy(es[1..], st) + HeldBy(slots, st))
  {
    EmittedFirst(es, st);
    var own := if es[0].stream == st then es[0].lines else [];
    assert own + EmittedBy(es[1..], st) + HeldBy(slots, st) == own + (EmittedBy(es[1..], st) + HeldBy(slots, st));
    StartsSplit(own, EmittedBy(es[1..], st) + HeldBy(slots, st));
  }

  /** Sending the next event marks exactly its own lines. */
  lemma {:induction false} ConsumeLinks(ps: seq<PendingLine>, next: nat, slots: seq<StreamSlot>, es: seq<Emission>)
    requires Linked(ps, next, slots, es) && es != []
    ensures Linked(AfterConsume(ps, es[0].stream, |es[0].lines|), next, slots, es[1..])
    ensures
      var w := Waiting(ps, next - |ps|, es[0].stream);
      |es[0].lines| <= |w| && w[..|es[0].lines|] == Starts(es[0].lines)
  {
    var e := es[0];
    var base := next - |ps|;
    var n := |e.lines|;
    var marked := Marked(ps, e.stream, n);
    var k := FinishedPrefix(marked);
    WaitingFirst(es, slots, e.stream);
    forall st
      ensures Waiting(marked[k..], base + k, st) == Starts(EmittedBy(es[1..], st) + HeldBy(slots, st))
    {
      WaitingFirst(es, slots, st);
      MarkTakes(ps, base, e.stream, n, st);
      ReleaseKeepsWaiting(marked, base, st, k);
      if st == e.stream {
        assert Waiting(ps, base, st)[n..] == Starts(EmittedBy(es[1..], st) + HeldBy(slots, st));
      } else {
        assert Starts([]) == [];
      }
      hide *;
    }
  }

  lemma {:induction false} ConsumeAllLinks(ps: seq<PendingLine>, next: nat, slots: seq<StreamSlot>, es: seq<Emission>)
    requires Linked(ps, next, slots, es)
    ensures Linked(ConsumedAll(ps, es), next, slots, [])
    decreases |es|
  {
    if es != [] {
      ConsumeLinks(ps, next, slots, es);
      hide Linked, AfterConsume;
      ConsumeAllLinks(AfterConsume(ps, es[0].stream, |es[0].lines|), next, slots, es[1..]);
    }
  }

  ghost predicate Tracks(m: Multi) {
    Linked(m.pending, m.next, m.slots, [])
  }

  lemma {:induction false} LineLinks(c: AssemblerConfig, m: Multi, a: Arriving)
    requires Tracks(m)
    ensures Linked(PendingWith(m, a), m.next + 1, FeedOf(c, m, a).slots, FeedOf(c, m, a).emissions)
  {
    var p := FeedOf(c, m, a);
    var base := m.next - |m.pending|;
    var h := Held(a.line, ContextOf(m));
    var line := PendingLine(a.stream, a.timestampNs, a.checkpoint, false);
    FeedKeepsUnique(c, m.slots, Arrival(a.stream, h, a.now));
    forall st
      ensures Waiting(PendingWith(m, a), base, st) == Starts(EmittedBy(p.emissions, st) + HeldBy(p.slots, st))
    {
      WaitingAppend(m.pending, [line], base, st);
      WaitingOne(line, m.next, st);
      FeedConserves(c, m.slots, Arrival(a.stream, h, a.now), st);
      assert EmittedBy([], st) + HeldBy(m.slots, st) == HeldBy(m.slots, st);
      StartsSplit(HeldBy(m.slots, st), if a.stream == st then [h] else []);
      assert Starts(if a.stream == st then [h] else []) == if a.stream == st then [m.next] else [];
      hide Feed, HeldBy, Waiting;
    }
  }

  lemma {:induction false} WaitingOne(p: PendingLine, base: nat, st: LogStream)
    ensures Waiting([p], base, st) == if Waits(p, st) then [base] else []
  {
    assert [p][1..] == [];
    assert Waiting([], base + 1, st) == [];
  }

  lemma {:induction false} FeedKeepsUnique(c: AssemblerConfig, slots: seq<StreamSlot>, a: Arrival)
    requires Unique(slots)
    ensures Unique(Feed(c, slots, a).slots)
  {
  }

  lemma {:induction false} CollectLinks(c: AssemblerConfig, m: Multi, mode: DrainMode)
    requires Tracks(m)
    ensures Linked(m.pending, m.next, Collect(c, m.slots, mode).slots, Collect(c, m.slots, mode).emissions)
  {
    var p := Collect(c, m.slots, mode);
    CollectKeepsStreams(c, m.slots, mode);
    assert Unique(p.slots);
    forall st
      ensures Waiting(m.pending, m.next - |m.pending|, st) == Starts(EmittedBy(p.emissions, st) + HeldBy(p.slots, st))
    {
      CollectConserves(c, m.slots, mode, st);
      assert EmittedBy([], st) + HeldBy(m.slots, st) == HeldBy(m.slots, st);
      hide Collect, HeldBy, Waiting;
    }
  }

  // ----------------------------------------------------------- a released resume point is honest

  /** A pending line's offset has been sent exactly when it is finished; everything before them has. */
  ghost predicate Accounted(ps: seq<PendingLine>, next: nat, sent: set<nat>) {
    && |ps| <= next && (forall o :: o in sent ==> o < next)
    && (forall o :: 0 <= o < next - |ps| ==> o in sent)
    && forall i :: 0 <= i < |ps| ==> (next - |ps| + i in sent <==> ps[i].finished)
  }

  /** `tokens[o]` is the checkpoint line `o` came with. */
  ghost predicate Tokened(ps: seq<PendingLine>, next: nat, tokens: seq<Option<nat>>) {
    |ps| <= next == |tokens| && forall i :: 0 <= i < |ps| ==> ps[i].checkpoint == tokens[next - |ps| + i]
  }

  /** The checkpoint is that of a line with every line up to it, itself included, sent. */
  ghost predicate Honest(checkpoint: Option<nat>, sent: set<nat>, tokens: seq<Option<nat>>) {
    checkpoint.Some? ==>
      exists o :: 0 <= o < |tokens| && tokens[o] == checkpoint && forall j :: 0 <= j <= o ==> j in sent
  }

  function Offsets(e: Emission): set<nat> {
    set o | o in Starts(e.lines)
  }

  lemma {:induction false} MarkFinishes(ps: seq<PendingLine>, base: nat, stream: LogStream, count: nat, i: nat)
    requires count <= |Waiting(ps, base, stream)| && i < |ps|
    ensures Marked(ps, stream, count)[i].checkpoint == ps[i].checkpoint
    ensures Marked(ps, stream, count)[i].finished <==> ps[i].finished || base + i in Waiting(ps, base, stream)[..count]
  {
    if count == 0 {
      assert Waiting(ps, base, stream)[..0] == [];
    } else if i == 0 {
      MarkFinishesFirst(ps, base, stream, count);
    } else {
      var less := if Waits(ps[0], stream) then count - 1 else count;
      MarkFinishes(ps[1..], base + 1, stream, less, i - 1);
      MarkFinishesRest(ps, base, stream, count, i);
    }
  }

  lemma {:induction false} MarkFinishesFirst(ps: seq<PendingLine>, base: nat, stream: LogStream, count: nat)
    requires 0 < count <= |Waiting(ps, base, stream)| && ps != []
    ensures Marked(ps, stream, count)[0].checkpoint == ps[0].checkpoint
    ensures Marked(ps, stream, count)[0].finished <==> ps[0].finished || base in Waiting(ps, base, stream)[..count]
  {
    var rest := Waiting(ps[1..], base + 1, stream);
    WaitingAbove(ps[1..], base + 1, stream);
    if Waits(ps[0], stream) {
      assert Waiting(ps, base, stream)[..count][0] == base;
    } else {
      assert forall o :: o in rest[..count] ==> o in rest;
    }
    hide Marked;
    MarkUnrolls(ps, stream, count);
  }

  lemma {:induction false} MarkUnrolls(ps: seq<PendingLine>, stream: LogStream, count: nat)
    requires ps != [] && count > 0
    ensures Marked(ps, stream, count)[0] == if Waits(ps[0], stream) then ps[0].(finished := true) else ps[0]
    ensures Marked(ps, stream, count)[1..] == Marked(ps[1..], stream, if Waits(ps[0], stream) then count - 1 else count)
  {
  }

  lemma {:induction false} MarkFinishesRest(ps: seq<PendingLine>, base: nat, stream: LogStream, count: nat, i: nat)
    requires 0 < count <= |Waiting(ps, base, stream)| && 0 < i < |ps|
    ensures
      var less := if Waits(ps[0], stream) then count - 1 else count;
      && Marked(ps, stream, count)[i] == Marked(ps[1..], stream, less)[i - 1]
      && (base + i in Waiting(ps, base, stream)[..count] <==>
        base + 1 + (i - 1) in Waiting(ps[1..], base + 1, stream)[..less])
  {
    MarkUnrolls(ps, stream, count);
    hide Marked;
    var rest := Waiting(ps[1..], base + 1, stream);
    if Waits(ps[0], stream) {
      assert Waiting(ps, base, stream) == [base] + rest;
      assert ([base] + rest)[..count] == [base] + rest[..count - 1];
    }
  }

  lemma {:induction false} WaitingAbove(ps: seq<PendingLine>, base: nat, stream: LogStream)
    ensures forall o :: o in Waiting(ps, base, stream) ==> base <= o < base + |ps|
  {
    if ps != [] {
      WaitingAbove(ps[1..], base + 1, stream);
    }
  }

  lemma {:induction false} LastCheckpointIs(ps: seq<PendingLine>)
    ensures LastCheckpoint(ps).Some? ==> exists i :: 0 <= i < |ps| && ps[i].checkpoint == LastCheckpoint(ps)
  {
    if ps != [] {
      var n := |ps| - 1;
      LastCheckpointIs(ps[..n]);
      if ps[n].checkpoint.None? && LastCheckpoint(ps).Some? {
        var i :| 0 <= i < n && ps[..n][i].checkpoint == LastCheckpoint(ps[..n]);
        assert ps[i].checkpoint == LastCheckpoint(ps);
      }
    }
  }

  /** Sending one event: what it releases is honest, and the books still balance. */
  lemma {:induction false} ConsumeIsHonest(ps: seq<PendingLine>, next: nat, slots: seq<StreamSlot>, es: seq<Emission>,
      sent: set<nat>, tokens: seq<Option<nat>>)
    requires Linked(ps, next, slots, es) && es != [] && Accounted(ps, next, sent) && Tokened(ps, next, tokens)
    ensures
      var ps' := AfterConsume(ps, es[0].stream, |es[0].lines|);
      var sent' := sent + Offsets(es[0]);
      && Accounted(ps', next, sent') && Tokened(ps', next, tokens)
      && Honest(Released(ps, es[0].stream, |es[0].lines|), sent', tokens)
  {
    var e := es[0];
    ConsumeLinks(ps, next, slots, es);
    hide Linked, Waiting, Accounted, Tokened, Honest;
    MarkAccounts(ps, next, e, sent, tokens);
    MarkedIsHonest(Marked(ps, e.stream, |e.lines|), next, sent + Offsets(e), tokens);
  }

  lemma {:induction false} MarkAccounts(ps: seq<PendingLine>, next: nat, e: Emission, sent: set<nat>,
      tokens: seq<Option<nat>>)
    requires Accounted(ps, next, sent) && Tokened(ps, next, tokens)
    requires
      var w := Waiting(ps, next - |ps|, e.stream);
      |e.lines| <= |w| && w[..|e.lines|] == Starts(e.lines)
    ensures
      var marked := Marked(ps, e.stream, |e.lines|);
      Accounted(marked, next, sent + Offsets(e)) && Tokened(marked, next, tokens)
  {
    var n, base := |e.lines|, next - |ps|;
    var w := Waiting(ps, base, e.stream);
    var marked := Marked(ps, e.stream, n);
    var sent' := sent + Offsets(e);
    WaitingAbove(ps, base, e.stream);
    assert forall o :: o in w[..n] ==> o in w;
    assert forall o :: o in Offsets(e) <==> o in w[..n];
    forall i | 0 <= i < |ps|
      ensures marked[i].checkpoint == ps[i].checkpoint
      ensures base + i in sent' <==> marked[i].finished
    {
      MarkFinishes(ps, base, e.stream, n, i);
    }
  }

  lemma {:induction false} MarkedIsHonest(marked: seq<PendingLine>, next: nat, sent: set<nat>, tokens: seq<Option<nat>>)
    requires Accounted(marked, next, sent) && Tokened(marked, next, tokens)
    ensures
      var k := FinishedPrefix(marked);
      && Accounted(marked[k..], next, sent) && Tokened(marked[k..], next, tokens)
      && Honest(LastCheckpoint(marked[..k]), sent, tokens)
  {
    var k, base := FinishedPrefix(marked), next - |marked|;
    var released := LastCheckpoint(marked[..k]);
    forall o | 0 <= o < base + k
      ensures o in sent
    {
      if o >= base {
        assert marked[o - base].finished;
      }
    }
    LastCheckpointIs(marked[..k]);
    if released.Some? {
      var i :| 0 <= i < k && marked[..k][i].checkpoint == released;
      assert tokens[base + i] == released;
    }
  }

  /** Every event of a list, sent in turn, releases honestly. */
  ghost predicate AllHonest(ps: seq<PendingLine>, es: seq<Emission>, sent: set<nat>, tokens: seq<Option<nat>>)
    decreases |es|
  {
    es != [] ==>
      && Honest(SentFor(ps, es[0]).checkpoint, sent + Offsets(es[0]), tokens)
      && AllHonest(AfterConsume(ps, es[0].stream, |es[0].lines|), es[1..], sent + Offsets(es[0]), tokens)
  }

  ghost function AllOffsets(es: seq<Emission>): set<nat> {
    if es == [] then {} else Offsets(es[0]) + AllOffsets(es[1..])
  }

  lemma {:induction false} ConsumeAllIsHonest(ps: seq<PendingLine>, next: nat, slots: seq<StreamSlot>,
      es: seq<Emission>, sent: set<nat>, tokens: seq<Option<nat>>)
    requires Linked(ps, next, slots, es) && Accounted(ps, next, sent) && Tokened(ps, next, tokens)
    ensures AllHonest(ps, es, sent, tokens)
    ensures Accounted(ConsumedAll(ps, es), next, sent + AllOffsets(es)) && Tokened(ConsumedAll(ps, es), next, tokens)
    decreases |es|
  {
    if es == [] {
      assert sent + {} == sent;
    } else {
      ConsumeIsHonest(ps, next, slots, es, sent, tokens);
      ConsumeLinks(ps, next, slots, es);
      hide Linked, Accounted, Tokened, AfterConsume, Honest, Released;
      var ps' := AfterConsume(ps, es[0].stream, |es[0].lines|);
      ConsumeAllIsHonest(ps', next, slots, es[1..], sent + Offsets(es[0]), tokens);
      assert sent + Offsets(es[0]) + AllOffsets(es[1..]) == sent + AllOffsets(es);
    }
  }

  // -------------------------------------------------------------------------- every run

  datatype Op = LineOp(arriving: Arriving) | DrainOp(mode: DrainMode)

  /** The assembler with everything it has sent and every line's checkpoint. */
  datatype History = History(multi: Multi, sent: set<nat>, tokens: seq<Option<nat>>)

  ghost function Pending(h: History, op: Op): seq<PendingLine> {
    match op
    case LineOp(a) => PendingWith(h.multi, a)
    case DrainOp(_) => h.multi.pending
  }

  function Emitting(c: AssemblerConfig, h: History, op: Op): seq<Emission> {
    match op
    case LineOp(a) => FeedOf(c, h.multi, a).emissions
    case DrainOp(mode) => Collect(c, h.multi.slots, mode).emissions
  }

  ghost function Tokens(h: History, op: Op): seq<Option<nat>> {
    match op
    case LineOp(a) => h.tokens + [a.checkpoint]
    case DrainOp(_) => h.tokens
  }

  ghost function Applied(c: AssemblerConfig, h: History, op: Op): History {
    History(
      match op
      case LineOp(a) => AfterLine(c, h.multi, a)
      case DrainOp(mode) => AfterCollect(c, h.multi, mode),
      h.sent + AllOffsets(Emitting(c, h, op)),
      Tokens(h, op))
  }

  ghost function RunOps(c: AssemblerConfig, ops: seq<Op>): History {
    if ops == [] then History(NewMulti, {}, []) else Applied(c, RunOps(c, ops[..|ops| - 1]), ops[|ops| - 1])
  }

  ghost predicate Balanced(h: History) {
    Tracks(h.multi) && Accounted(h.multi.pending, h.multi.next, h.sent)
      && Tokened(h.multi.pending, h.multi.next, h.tokens)
  }

  lemma {:induction false} OpStarts(c: AssemblerConfig, h: History, op: Op)
    requires Balanced(h)
    ensures
      var next := if op.LineOp? then h.multi.next + 1 else h.multi.next;
      var slots := Applied(c, h, op).multi.slots;
      && Linked(Pending(h, op), next, slots, Emitting(c, h, op))
      && Accounted(Pending(h, op), next, h.sent) && Tokened(Pending(h, op), next, Tokens(h, op))
  {
    match op
    case LineOp(a) =>
      LineLinks(c, h.multi, a);
      hide Linked, Feed, ConsumedAll;
    case DrainOp(mode) =>
      CollectLinks(c, h.multi, mode);
      hide Linked, Collect, ConsumedAll;
  }

  /**
   Over every run of lines from any streams, idle checks and flushes: each event sent releases
   only a checkpoint whose line, and every line before it, is in an event already sent.
   */
  lemma {:induction false} ReleasesAreHonest(c: AssemblerConfig, ops: seq<Op>, i: nat)
    requires i < |ops|
    ensures Balanced(RunOps(c, ops[..i]))
    ensures
      var h := RunOps(c, ops[..i]);
      AllHonest(Pending(h, ops[i]), Emitting(c, h, ops[i]), h.sent, Tokens(h, ops[i]))
  {
    RunBalances(c, ops[..i]);
    OpIsHonest(c, RunOps(c, ops[..i]), ops[i]);
  }

  lemma {:induction false} OpIsHonest(c: AssemblerConfig, h: History, op: Op)
    requires Balanced(h)
    ensures AllHonest(Pending(h, op), Emitting(c, h, op), h.sent, Tokens(h, op)) && Balanced(Applied(c, h, op))
  {
    hide Linked, Accounted, Tokened, AllHonest, ConsumedAll, Feed, Collect, Waiting;
    OpStarts(c, h, op);
    var next := if op.LineOp? then h.multi.next + 1 else h.multi.next;
    var slots := Applied(c, h, op).multi.slots;
    ConsumeAllIsHonest(Pending(h, op), next, slots, Emitting(c, h, op), h.sent, Tokens(h, op));
    ConsumeAllLinks(Pending(h, op), next, slots, Emitting(c, h, op));
  }

  lemma {:induction false} RunBalances(c: AssemblerConfig, ops: seq<Op>)
    ensures Balanced(RunOps(c, ops))
  {
    if ops == [] {
      NewBalances();
    } else {
      RunBalances(c, ops[..|ops| - 1]);
      OpIsHonest(c, RunOps(c, ops[..|ops| - 1]), ops[|ops| - 1]);
    }
  }

  lemma {:induction false} NewBalances()
    ensures Balanced(History(NewMulti, {}, []))
  {
    forall st
      ensures Waiting([], 0, st) == Starts(EmittedBy([], st) + HeldBy(InitialSlots, st))
    {
      assert HeldBy(InitialSlots, st) == [];
    }
  }

  // ----------------------------------------------------------- which release gets reported

  /** An idle check or a flush reports what its last event released, or nothing when it sends none. */
  function Reported(ps: seq<PendingLine>, es: seq<Emission>): Option<nat> {
    var all := SentAll(ps, es);
    if all == [] then None else all[|all| - 1].checkpoint
  }

  // ------------------------------------------------------------------------- the object

  class StreamingEntryAssembler {
    const config: Option<AssemblerConfig>
    var slots: seq<StreamSlot>
    var nextOffset: nat
    var pending: seq<PendingLine>

    ghost function Model(): Multi
      reads this
    {
      Multi(slots, nextOffset, pending)
    }

    constructor (config: Option<AssemblerConfig>)
      ensures Model() == NewMulti && this.config == config
    {
      this.config, slots, nextOffset, pending := config, InitialSlots, 0, [];
    }

    /** Mark the event's lines and pop the finished prefix. */
    method ConsumePending(stream: LogStream, lineCount: nat) returns (timestampNs: int, checkpoint: Option<nat>)
      modifies this`pending
      ensures pending == AfterConsume(old(pending), stream, lineCount)
      ensures checkpoint == Released(old(pending), stream, lineCount)
      ensures timestampNs == var s := FirstStamp(old(pending), stream, lineCount); if s.Some? then s.value else 0
    {
      ghost var ps := pending;
      var stamp: Option<int> := None;
      var marked, i := 0, 0;
      MarkStart(ps, stream, lineCount);
      hide MarkedTo, Marked, FirstStamp;
      while i < |pending| && marked < lineCount
        invariant 0 <= i <= |pending| == |ps| && marked <= lineCount
          && MarkedTo(ps, stream, lineCount, i, marked, pending, stamp)
        decreases |pending| - i
      {
        MarkStep(ps, stream, lineCount, i, marked, pending, stamp);
        if Waits(pending[i], stream) {
          if stamp.None? {
            stamp := Some(pending[i].timestampNs);
          }
          pending := pending[i := pending[i].(finished := true)];
          marked := marked + 1;
        }
        i := i + 1;
      }
      MarkEnd(ps, stream, lineCount, i, marked, pending, stamp);
      timestampNs := if stamp.Some? then stamp.value else 0;
      checkpoint := PopFinished();
    }

    method PopFinished() returns (checkpoint: Option<nat>)
      modifies this`pending
      ensures pending == old(pending)[FinishedPrefix(old(pending))..]
      ensures checkpoint == LastCheckpoint(old(pending)[..FinishedPrefix(old(pending))])
    {
      ghost var ps := pending;
      ghost var k := 0;
      checkpoint := None;
      while pending != [] && pending[0].finished
        invariant k <= |ps| && pending == ps[k..] && checkpoint == LastCheckpoint(ps[..k])
        invariant forall i :: 0 <= i < k ==> ps[i].finished
        decreases |pending|
      {
        assert ps[..k + 1][..k] == ps[..k];
        if pending[0].checkpoint.Some? {
          checkpoint := pending[0].checkpoint;
        }
        pending := pending[1..];
        k := k + 1;
      }
      PrefixIs(ps, k);
    }

    /** Send one event: its lines are settled first, then it goes to the actor. */
    method EmitAssembled(e: Emission) returns (sent: Sent)
      modifies this`pending
      ensures sent == SentFor(old(pending), e) && pending == AfterConsume(old(pending), e.stream, |e.lines|)
    {
      var timestampNs, checkpoint := ConsumePending(e.stream, |e.lines|);
      sent := Sent(e, timestampNs, checkpoint);
    }

    /** Send events in turn; only the last one's release is reported. */
    method EmitAll(ready: seq<Emission>) returns (sent: seq<Sent>, last: Option<nat>)
      modifies this`pending
      ensures sent == SentAll(old(pending), ready) && pending == ConsumedAll(old(pending), ready)
      ensures last == Reported(old(pending), ready)
    {
      ghost var ps := pending;
      sent, last := [], None;
      for i := 0 to |ready|
        invariant sent + SentAll(pending, ready[i..]) == SentAll(ps, ready)
        invariant ConsumedAll(pending, ready[i..]) == ConsumedAll(ps, ready)
        invariant last == if sent == [] then None else sent[|sent| - 1].checkpoint
      {
        assert ready[i..][0] == ready[i] && ready[i..][1..] == ready[i + 1..];
        ghost var before, rest := sent, SentAll(pending, ready[i..]);
        var one := EmitAssembled(ready[i]);
        sent, last := sent + [one], one.checkpoint;
        assert before + rest == sent + SentAll(pending, ready[i + 1..]);
      }
      assert ready[|ready|..] == [];
    }

    method ProcessStreamLine(a: Arriving) returns (sent: seq<Sent>)
      modifies this
      ensures config.Some? ==>
        sent == SentAll(PendingWith(old(Model()), a), FeedOf(config.value, old(Model()), a).emissions)
        && Model() == AfterLine(config.value, old(Model()), a)
      ensures config.None? ==>
        sent == [Sent(Emission(a.stream, [Held(a.line, ContextOf(old(Model())))]), a.timestampNs, a.checkpoint)]
          && Model() == old(Model())
    {
      var ctx := LineContext(nextOffset, nextOffset + 1, 0);
      if config.None? {
        return [Sent(Emission(a.stream, [Held(a.line, ctx)]), a.timestampNs, a.checkpoint)];
      }
      nextOffset := nextOffset + 1;
      pending := pending + [PendingLine(a.stream, a.timestampNs, a.checkpoint, false)];
      var p := Feed(config.value, slots, Arrival(a.stream, Held(a.line, ctx), a.now));
      slots := p.slots;
      var last;
      sent, last := EmitAll(p.emissions);
    }

    method Drain(mode: DrainMode) returns (sent: seq<Sent>, last: Option<nat>)
      requires config.Some?
      modifies this
      ensures Model() == AfterCollect(config.value, old(Model()), mode)
      ensures sent == SentAll(old(pending), Collect(config.value, old(slots), mode).emissions)
      ensures last == Reported(old(pending), Collect(config.value, old(slots), mode).emissions)
    {
      var p := Collect(config.value, slots, mode);
      slots := p.slots;
      sent, last := EmitAll(p.emissions);
    }
  }

  /** The mark has passed the first `i` lines and taken `marked` of them. */
  ghost predicate MarkedTo(ps: seq<PendingLine>, stream: LogStream, count: nat, i: nat, marked: nat,
      current: seq<PendingLine>, stamp: Option<int>) {
    && i <= |ps| == |current| && marked <= count && current[i..] == ps[i..]
    && Marked(ps, stream, count) == current[..i] + Marked(ps[i..], stream, count - marked)
    && (if marked == 0 then stamp.None? && FirstStamp(ps, stream, count) == FirstStamp(ps[i..], stream, count)
        else stamp.Some? && stamp == FirstStamp(ps, stream, count))
  }

  lemma {:induction false} MarkStart(ps: seq<PendingLine>, stream: LogStream, count: nat)
    ensures MarkedTo(ps, stream, count, 0, 0, ps, None)
  {
    assert ps[0..] == ps && ps[..0] == [];
  }

  lemma {:induction false} MarkStep(ps: seq<PendingLine>, stream: LogStream, count: nat, i: nat, marked: nat,
      current: seq<PendingLine>, stamp: Option<int>)
    requires MarkedTo(ps, stream, count, i, marked, current, stamp) && i < |ps| && marked < count
    ensures
      if Waits(current[i], stream) then
        MarkedTo(ps, stream, count, i + 1, marked + 1, current[i := current[i].(finished := true)],
                 if stamp.None? then Some(current[i].timestampNs) else stamp)
      else MarkedTo(ps, stream, count, i + 1, marked, current, stamp)
  {
    assert current[i] == current[i..][0] == ps[i];
    assert ps[i..][1..] == ps[i + 1..] && current[i..][1..] == current[i + 1..];
    var rest := Marked(ps[i + 1..], stream, count - marked);
    if Waits(current[i], stream) {
      var next := current[i := current[i].(finished := true)];
      assert next[..i + 1] == current[..i] + [next[i]] && next[i + 1..] == current[i + 1..];
    } else {
      assert current[..i + 1] == current[..i] + [current[i]];
    }
  }

  lemma {:induction false} MarkEnd(ps: seq<PendingLine>, stream: LogStream, count: nat, i: nat, marked: nat,
      current: seq<PendingLine>, stamp: Option<int>)
    requires MarkedTo(ps, stream, count, i, marked, current, stamp) && (i == |ps| || marked == count)
    ensures current == Marked(ps, stream, count) && stamp == FirstStamp(ps, stream, count)
  {
    assert Marked(ps[i..], stream, count - marked) == ps[i..];
    assert current == current[..i] + current[i..];
  }

  lemma {:induction false} PrefixIs(ps: seq<PendingLine>, k: nat)
    requires k <= |ps| && (forall i :: 0 <= i < k ==> ps[i].finished) && (k < |ps| ==> !ps[k].finished)
    ensures FinishedPrefix(ps) == k
  {
  }
}
