/** Rejoining the records Docker's json-file driver splits a long line into. */
module DockerJson {
  import opened Common

  /** What the wrapper of one raw line says; parsing it is not modelled. */
  datatype JsonRecord = JsonRecord(payload: bytes, stream: LogStream, partial: bool)

  /** A complete line, its stream, and the raw bytes consumed to make it. */
  datatype JsonLine = JsonLine(payload: bytes, stream: LogStream, sourceLen: nat)

  datatype Partial = Partial(stream: LogStream, payload: bytes, sourceLen: nat)

  /** Parsing as a parameter: `None` for a line that is not a wrapper. */
  type Parser = bytes -> Option<JsonRecord>

  function RawLen(raw: bytes): nat {
    |raw| + 1
  }

  function StreamOf(parse: Parser, raw: bytes): LogStream {
    match parse(raw)
    case None => Unspecified
    case Some(r) => r.stream
  }

  function IndexOf(ps: seq<Partial>, stream: LogStream): (i: nat)
    ensures i <= |ps| && (i < |ps| ==> ps[i].stream == stream) && forall j :: 0 <= j < i ==> ps[j].stream != stream
  {
    if ps == [] || ps[0].stream == stream then 0 else 1 + IndexOf(ps[1..], stream)
  }

  /** The stream's buffer, empty if it has none yet. */
  function BufferOf(ps: seq<Partial>, stream: LogStream): Partial {
    var i := IndexOf(ps, stream);
    if i < |ps| then ps[i] else Partial(stream, [], 0)
  }

  function WithBuffer(ps: seq<Partial>, b: Partial): seq<Partial> {
    var i := IndexOf(ps, b.stream);
    if i < |ps| then ps[i := b] else ps + [b]
  }

  datatype Pushed = Pushed(partials: seq<Partial>, line: Option<JsonLine>)

  function Push(parse: Parser, ps: seq<Partial>, raw: bytes): Pushed {
    match parse(raw)
    case None => Pushed(ps, Some(JsonLine(raw, Unspecified, RawLen(raw))))
    case Some(r) =>
      var b := BufferOf(ps, r.stream);
      var joined := Partial(r.stream, b.payload + r.payload, b.sourceLen + RawLen(raw));
      if r.partial then Pushed(WithBuffer(ps, joined), None)
      else Pushed(WithBuffer(ps, Partial(r.stream, [], 0)), Some(JsonLine(joined.payload, r.stream, joined.sourceLen)))
  }

  function AfterAll(parse: Parser, raws: seq<bytes>): seq<Partial> {
    if raws == [] then [] else Push(parse, AfterAll(parse, raws[..|raws| - 1]), raws[|raws| - 1]).partials
  }

  function LinesOut(parse: Parser, raws: seq<bytes>): seq<JsonLine> {
    if raws == [] then []
    else
      var n := |raws| - 1;
      var p := Push(parse, AfterAll(parse, raws[..n]), raws[n]);
      if p.line.None? then LinesOut(parse, raws[..n]) else LinesOut(parse, raws[..n]) + [p.line.value]
  }

  function PendingBytes(ps: seq<Partial>): nat {
    if ps == [] then 0 else PendingBytes(ps[..|ps| - 1]) + ps[|ps| - 1].sourceLen
  }

  class DockerJsonReassembler {
    const parse: Parser
    var partials: seq<Partial>

    constructor (parse: Parser)
      ensures this.parse == parse && partials == []
    {
      this.parse, partials := parse, [];
    }

    /** Index of the stream's buffer, created on first sight. */
    method BufferFor(stream: LogStream) returns (i: nat)
      modifies this`partials
      ensures i == IndexOf(old(partials), stream) < |partials| && partials[i] == BufferOf(old(partials), stream)
      ensures partials == if i < |old(partials)| then old(partials) else old(partials) + [Partial(stream, [], 0)]
    {
      i := 0;
      while i < |partials| && partials[i].stream != stream
        invariant i <= |partials| && partials == old(partials) && forall j :: 0 <= j < i ==>
          partials[j].stream != stream
      {
        i := i + 1;
      }
      IndexIs(partials, stream, i);
      if i == |partials| {
        partials := partials + [Partial(stream, [], 0)];
      }
    }

    method PushRaw(raw: bytes) returns (line: Option<JsonLine>)
      modifies this`partials
      ensures Pushed(partials, line) == Push(parse, old(partials), raw)
    {
      var record := parse(raw);
      if record.None? {
        return Some(JsonLine(raw, Unspecified, RawLen(raw)));
      }
      var i := BufferFor(record.value.stream);
      var b := partials[i];
      var joined := Partial(b.stream, b.payload + record.value.payload, b.sourceLen + RawLen(raw));
      if record.value.partial {
        partials := partials[i := joined];
        return None;
      }
      partials := partials[i := Partial(b.stream, [], 0)];
      return Some(JsonLine(joined.payload, joined.stream, joined.sourceLen));
    }

    method ComputePendingBytes() returns (n: nat)
      ensures n == PendingBytes(partials)
    {
      n := 0;
      for i := 0 to |partials|
        invariant n == PendingBytes(partials[..i])
      {
        assert partials[..i + 1][..i] == partials[..i];
        n := n + partials[i].sourceLen;
      }
      assert partials[..|partials|] == partials;
    }
  }

  lemma {:induction false} IndexIs(ps: seq<Partial>, stream: LogStream, i: nat)
    requires i <= |ps| && (i < |ps| ==> ps[i].stream == stream) && forall j :: 0 <= j < i ==> ps[j].stream != stream
    ensures IndexOf(ps, stream) == i
  {
  }

  // --------------------------------------------------------------- streams are independent

  /** The raw lines one stream wrote, in order. */
  function RawsOf(parse: Parser, raws: seq<bytes>, stream: LogStream): seq<bytes> {
    if raws == [] then []
    else
      var n := |raws| - 1;
      if StreamOf(parse, raws[n]) == stream then RawsOf(parse, raws[..n], stream) + [raws[n]]
        else RawsOf(parse, raws[..n], stream)
  }

  function LinesOn(lines: seq<JsonLine>, stream: LogStream): seq<JsonLine> {
    if lines == [] then []
    else
      var n := |lines| - 1;
      if lines[n].stream == stream then LinesOn(lines[..n], stream) + [lines[n]] else LinesOn(lines[..n], stream)
  }

  lemma {:induction false} BufferAfter(ps: seq<Partial>, b: Partial, stream: LogStream)
    ensures BufferOf(WithBuffer(ps, b), stream) == if stream == b.stream then b else BufferOf(ps, stream)
  {
    var i := IndexOf(ps, b.stream);
    var qs := WithBuffer(ps, b);
    if stream == b.stream {
      IndexIs(qs, stream, i);
    } else {
      var k := IndexOf(ps, stream);
      IndexIs(qs, stream, if k < |ps| then k else |qs|);
    }
  }

  /** Feeding one raw line leaves every other stream's buffer alone. */
  lemma {:induction false} PushTouchesOneStream(parse: Parser, ps: seq<Partial>, qs: seq<Partial>, raw: bytes,
      stream: LogStream)
    requires BufferOf(ps, stream) == BufferOf(qs, stream)
    ensures
      var p := Push(parse, ps, raw);
      && (StreamOf(parse, raw) != stream ==>
        BufferOf(p.partials, stream) == BufferOf(ps, stream) && (p.line.Some? ==> p.line.value.stream != stream))
      && (StreamOf(parse, raw) == stream ==>
            && BufferOf(p.partials, stream) == BufferOf(Push(parse, qs, raw).partials, stream)
            && p.line == Push(parse, qs, raw).line && (p.line.Some? ==> p.line.value.stream == stream))
  {
    if parse(raw).Some? {
      var r := parse(raw).value;
      var b, c := BufferOf(ps, r.stream), BufferOf(qs, r.stream);
      BufferAfter(ps, Partial(r.stream, b.payload + r.payload, b.sourceLen + RawLen(raw)), stream);
      BufferAfter(ps, Partial(r.stream, [], 0), stream);
      BufferAfter(qs, Partial(r.stream, c.payload + r.payload, c.sourceLen + RawLen(raw)), stream);
      BufferAfter(qs, Partial(r.stream, [], 0), stream);
      hide BufferOf, WithBuffer;
    }
  }

  /** Each stream's lines are what rejoining its own records alone would give, however they are interleaved. */
  lemma {:induction false} StreamsAreIndependent(parse: Parser, raws: seq<bytes>, stream: LogStream)
    ensures LinesOn(LinesOut(parse, raws), stream) == LinesOut(parse, RawsOf(parse, raws, stream))
    ensures BufferOf(AfterAll(parse, raws), stream) == BufferOf(AfterAll(parse, RawsOf(parse, raws, stream)), stream)
  {
    hide AfterAll, Push, BufferOf, StreamOf;
    if raws != [] {
      var n := |raws| - 1;
      var front, own := raws[..n], RawsOf(parse, raws[..n], stream);
      StreamsAreIndependent(parse, front, stream);
      RawsOfLast(parse, raws, stream);
      assert raws == front + [raws[n]];
      OneRaw(parse, front, own, raws[n], stream);
    }
  }

  lemma {:induction false} RawsOfLast(parse: Parser, raws: seq<bytes>, stream: LogStream)
    requires raws != []
    ensures
      var n := |raws| - 1;
      var own := RawsOf(parse, raws[..n], stream);
      RawsOf(parse, raws, stream) == if StreamOf(parse, raws[n]) == stream then own + [raws[n]] else own
  {
  }

  lemma {:induction false} OneRaw(parse: Parser, front: seq<bytes>, own: seq<bytes>, raw: bytes, stream: LogStream)
    requires LinesOn(LinesOut(parse, front), stream) == LinesOut(parse, own)
    requires BufferOf(AfterAll(parse, front), stream) == BufferOf(AfterAll(parse, own), stream)
    ensures
      var own' := if StreamOf(parse, raw) == stream then own + [raw] else own;
      && LinesOn(LinesOut(parse, front + [raw]), stream) == LinesOut(parse, own')
      && BufferOf(AfterAll(parse, front + [raw]), stream) == BufferOf(AfterAll(parse, own'), stream)
  {
    PushTouchesOneStream(parse, AfterAll(parse, front), AfterAll(parse, own), raw, stream);
    hide LinesOut, AfterAll, Push, BufferOf, LinesOn, StreamOf;
    OneMore(parse, front, raw);
    OneMore(parse, own, raw);
    var line := Push(parse, AfterAll(parse, front), raw).line;
    if line.Some? {
      LinesOnSnoc(LinesOut(parse, front), line.value, stream);
    }
  }

  lemma {:induction false} OneMore(parse: Parser, raws: seq<bytes>, raw: bytes)
    ensures
      var p := Push(parse, AfterAll(parse, raws), raw);
      && AfterAll(parse, raws + [raw]) == p.partials
      && LinesOut(parse, raws + [raw]) == if p.line.None? then LinesOut(parse, raws)
        else LinesOut(parse, raws) + [p.line.value]
  {
    assert (raws + [raw])[..|raws|] == raws;
  }

  lemma {:induction false} LinesOnSnoc(lines: seq<JsonLine>, line: JsonLine, stream: LogStream)
    ensures LinesOn(lines + [line], stream) == if line.stream == stream then LinesOn(lines, stream) + [line]
      else LinesOn(lines, stream)
  {
    assert (lines + [line])[..|lines|] == lines;
  }

  // ---------------------------------------------------- one stream's records, without a buffer

  /** What a stream's records hold after the last complete one: fragments end to end, and their raw bytes. */
  function OpenRun(parse: Parser, raws: seq<bytes>): (bytes, nat) {
    if raws == [] then ([], 0)
    else
      var n := |raws| - 1;
      match parse(raws[n])
      case None => OpenRun(parse, raws[..n])
      case Some(r) =>
        if !r.partial then ([], 0)
        else (OpenRun(parse, raws[..n]).0 + r.payload, OpenRun(parse, raws[..n]).1 + RawLen(raws[n]))
  }

  /** The lines of one stream, read off its records: each complete record closes the run before it. */
  function WholeLines(parse: Parser, raws: seq<bytes>): seq<JsonLine> {
    if raws == [] then []
    else
      var n := |raws| - 1;
      match parse(raws[n])
      case None => WholeLines(parse, raws[..n]) + [JsonLine(raws[n], Unspecified, RawLen(raws[n]))]
      case Some(r) =>
        var run := OpenRun(parse, raws[..n]);
        if r.partial then WholeLines(parse, raws[..n])
        else WholeLines(parse, raws[..n]) + [JsonLine(run.0 + r.payload, r.stream, run.1 + RawLen(raws[n]))]
  }

  /** For one stream alone the buffer is the open run and the lines are the whole ones. */
  lemma {:induction false} AloneIsWholeLines(parse: Parser, raws: seq<bytes>, stream: LogStream)
    requires forall i :: 0 <= i < |raws| ==> StreamOf(parse, raws[i]) == stream
    ensures LinesOut(parse, raws) == WholeLines(parse, raws)
    ensures BufferOf(AfterAll(parse, raws), stream) == Partial(stream, OpenRun(parse, raws).0, OpenRun(parse, raws).1)
  {
    if raws != [] {
      var n := |raws| - 1;
      assert StreamOf(parse, raws[n]) == stream;
      assert raws == raws[..n] + [raws[n]];
      AloneIsWholeLines(parse, raws[..n], stream);
      OneAlone(parse, raws[..n], raws[n], stream);
      hide *;
    }
  }

  lemma {:induction false} OneAlone(parse: Parser, front: seq<bytes>, raw: bytes, stream: LogStream)
    requires StreamOf(parse, raw) == stream && LinesOut(parse, front) == WholeLines(parse, front)
    requires BufferOf(AfterAll(parse, front), stream)
      == Partial(stream, OpenRun(parse, front).0, OpenRun(parse, front).1)
    ensures LinesOut(parse, front + [raw]) == WholeLines(parse, front + [raw])
    ensures BufferOf(AfterAll(parse, front + [raw]), stream)
      == Partial(stream, OpenRun(parse, front + [raw]).0, OpenRun(parse, front + [raw]).1)
  {
    OneMore(parse, front, raw);
    PushAlone(parse, AfterAll(parse, front), raw, stream);
    assert (front + [raw])[..|front|] == front;
    hide LinesOut, AfterAll, BufferOf, Push;
  }

  lemma {:induction false} PushAlone(parse: Parser, ps: seq<Partial>, raw: bytes, stream: LogStream)
    requires StreamOf(parse, raw) == stream
    ensures
      var p := Push(parse, ps, raw);
      var b := BufferOf(ps, stream);
      match parse(raw)
      case None => p == Pushed(ps, Some(JsonLine(raw, Unspecified, RawLen(raw))))
      case Some(r) =>
        var payload, bytes := b.payload + r.payload, b.sourceLen + RawLen(raw);
        if r.partial then p.line.None? && BufferOf(p.partials, stream) == Partial(stream, payload, bytes)
        else p.line == Some(JsonLine(payload, stream, bytes)) && BufferOf(p.partials, stream) == Partial(stream, [], 0)
  {
    if parse(raw).Some? {
      var b := BufferOf(ps, stream);
      BufferAfter(ps, Partial(stream, b.payload + parse(raw).value.payload, b.sourceLen + RawLen(raw)), stream);
      BufferAfter(ps, Partial(stream, [], 0), stream);
      hide BufferOf, WithBuffer;
    }
  }

  // ------------------------------------------------------------------------ every byte counted

  function SourceBytes(lines: seq<JsonLine>): nat {
    if lines == [] then 0 else SourceBytes(lines[..|lines| - 1]) + lines[|lines| - 1].sourceLen
  }

  function RawBytes(raws: seq<bytes>): nat {
    if raws == [] then 0 else RawBytes(raws[..|raws| - 1]) + RawLen(raws[|raws| - 1])
  }

  lemma {:induction false} PendingAppend(a: seq<Partial>, b: seq<Partial>)
    ensures PendingBytes(a + b) == PendingBytes(a) + PendingBytes(b)
  {
    if b == [] {
      assert a + b == a;
    } else {
      assert (a + b)[..|a + b| - 1] == a + b[..|b| - 1];
      PendingAppend(a, b[..|b| - 1]);
    }
  }

  lemma {:induction false} PendingAfter(ps: seq<Partial>, b: Partial)
    ensures PendingBytes(WithBuffer(ps, b)) + BufferOf(ps, b.stream).sourceLen == PendingBytes(ps) + b.sourceLen
  {
    var i := IndexOf(ps, b.stream);
    if i < |ps| {
      PendingUpdate(ps, i, b);
    } else {
      PendingOne(b);
      PendingAppend(ps, [b]);
    }
    hide PendingBytes, IndexOf;
  }

  lemma {:induction false} PendingOne(b: Partial)
    ensures PendingBytes([b]) == b.sourceLen
  {
    assert [b][..0] == [];
  }

  lemma {:induction false} PendingUpdate(ps: seq<Partial>, i: nat, b: Partial)
    requires i < |ps|
    ensures PendingBytes(ps[i := b]) + ps[i].sourceLen == PendingBytes(ps) + b.sourceLen
  {
    PendingSplit(ps, i);
    PendingSplit(ps[i := b], i);
    assert ps[i := b][..i] == ps[..i] && ps[i := b][i + 1..] == ps[i + 1..];
    hide PendingBytes;
  }

  lemma {:induction false} PendingSplit(ps: seq<Partial>, i: nat)
    requires i < |ps|
    ensures PendingBytes(ps) == PendingBytes(ps[..i]) + ps[i].sourceLen + PendingBytes(ps[i + 1..])
  {
    PendingAppend(ps[..i], [ps[i]]);
    PendingAppend(ps[..i] + [ps[i]], ps[i + 1..]);
    PendingOne(ps[i]);
    assert ps == ps[..i] + [ps[i]] + ps[i + 1..];
    hide PendingBytes;
  }

  /** Emitted source lengths plus pending bytes are always the raw bytes consumed. */
  lemma {:induction false} EveryByteCounted(parse: Parser, raws: seq<bytes>)
    ensures SourceBytes(LinesOut(parse, raws)) + PendingBytes(AfterAll(parse, raws)) == RawBytes(raws)
  {
    if raws != [] {
      var n := |raws| - 1;
      var ps := AfterAll(parse, raws[..n]);
      EveryByteCounted(parse, raws[..n]);
      PushCounts(parse, ps, raws[n]);
      var line := Push(parse, ps, raws[n]).line;
      if line.Some? {
        var before := LinesOut(parse, raws[..n]);
        assert (before + [line.value])[..|before|] == before;
      }
      hide Push, PendingBytes;
    }
  }

  lemma {:induction false} PushCounts(parse: Parser, ps: seq<Partial>, raw: bytes)
    ensures
      var p := Push(parse, ps, raw);
      PendingBytes(p.partials) + (if p.line.Some? then p.line.value.sourceLen else 0) == PendingBytes(ps) + RawLen(raw)
  {
    if parse(raw).Some? {
      var r := parse(raw).value;
      var b := BufferOf(ps, r.stream);
      PendingAfter(ps, Partial(r.stream, b.payload + r.payload, b.sourceLen + RawLen(raw)));
      PendingAfter(ps, Partial(r.stream, [], 0));
      hide BufferOf, WithBuffer, PendingBytes;
    }
  }

  lemma {:induction false} LinesOnlyGrow(parse: Parser, raws: seq<bytes>, m: nat)
    requires m <= |raws|
    ensures LinesOut(parse, raws[..m]) <= LinesOut(parse, raws)
  {
    if m < |raws| {
      LinesOnlyGrow(parse, raws[..|raws| - 1], m);
      assert raws[..|raws| - 1][..m] == raws[..m];
    } else {
      assert raws[..m] == raws;
    }
  }

  lemma {:induction false} SourceAppend(a: seq<JsonLine>, b: seq<JsonLine>)
    ensures SourceBytes(a + b) == SourceBytes(a) + SourceBytes(b)
  {
    if b == [] {
      assert a + b == a;
    } else {
      assert (a + b)[..|a + b| - 1] == a + b[..|b| - 1];
      SourceAppend(a, b[..|b| - 1]);
    }
  }

  /**
   However the reads are cut into batches, the start computed for a batch, its position less the
   pending bytes less the batch's bytes, is the end of the lines before it.
   */
  lemma {:induction false} BatchesLieEndToEnd(parse: Parser, raws: seq<bytes>, m: nat)
    requires m <= |raws|
    ensures LinesOut(parse, raws[..m]) <= LinesOut(parse, raws)
    ensures
      var batch := LinesOut(parse, raws)[|LinesOut(parse, raws[..m])|..];
      RawBytes(raws) - PendingBytes(AfterAll(parse, raws)) - SourceBytes(batch)
        == SourceBytes(LinesOut(parse, raws[..m]))
  {
    LinesOnlyGrow(parse, raws, m);
    EveryByteCounted(parse, raws);
    var before, all := LinesOut(parse, raws[..m]), LinesOut(parse, raws);
    assert all == before + all[|before|..];
    SourceAppend(before, all[|before|..]);
    hide LinesOut, SourceBytes, PendingBytes, AfterAll, RawBytes;
  }

  // ------------------------------------------------------------- where the bytes are held

  predicate IsFragment(parse: Parser, raw: bytes, stream: LogStream) {
    parse(raw).Some? && parse(raw).value.partial && parse(raw).value.stream == stream
  }

  /** The raw line completes a line of the stream. */
  predicate Closes(parse: Parser, raw: bytes, stream: LogStream) {
    parse(raw).Some? && !parse(raw).value.partial && parse(raw).value.stream == stream
  }

  /** Raw line `i` is a fragment of the stream that nothing has completed since. */
  ghost predicate WaitsOn(parse: Parser, raws: seq<bytes>, stream: LogStream, i: nat) {
    && i < |raws| && IsFragment(parse, raws[i], stream)
    && forall j :: i < j < |raws| ==> !Closes(parse, raws[j], stream)
  }

  ghost predicate Waits(parse: Parser, raws: seq<bytes>, i: nat) {
    i < |raws| && WaitsOn(parse, raws, StreamOf(parse, raws[i]), i)
  }

  ghost function WaitingOn(parse: Parser, raws: seq<bytes>, stream: LogStream): nat -> bool {
    (i: nat) => WaitsOn(parse, raws, stream, i)
  }

  ghost function Waiting(parse: Parser, raws: seq<bytes>): nat -> bool {
    (i: nat) => Waits(parse, raws, i)
  }

  /** The bytes of the raw lines picked among the first `n`. */
  ghost function BytesOf(raws: seq<bytes>, picked: nat -> bool, n: nat): nat
    requires n <= |raws|
  {
    if n == 0 then 0 else BytesOf(raws, picked, n - 1) + if picked(n - 1) then RawLen(raws[n - 1]) else 0
  }

  lemma {:induction false} SameBytes(raws: seq<bytes>, p: nat -> bool, raws': seq<bytes>, q: nat -> bool, n: nat)
    requires n <= |raws| && n <= |raws'|
    requires forall i :: 0 <= i < n ==> raws[i] == raws'[i] && p(i) == q(i)
    ensures BytesOf(raws, p, n) == BytesOf(raws', q, n)
  {
    if n > 0 {
      SameBytes(raws, p, raws', q, n - 1);
    }
  }

  lemma {:induction false} SplitBytes(raws: seq<bytes>, p: nat -> bool, q: nat -> bool, r: nat -> bool, n: nat)
    requires n <= |raws|
    requires forall i :: 0 <= i < n ==> (p(i) <==> q(i) || r(i)) && !(q(i) && r(i))
    ensures BytesOf(raws, p, n) == BytesOf(raws, q, n) + BytesOf(raws, r, n)
  {
    if n > 0 {
      SplitBytes(raws, p, q, r, n - 1);
    }
  }

  lemma {:induction false} NoBytes(raws: seq<bytes>, p: nat -> bool, n: nat)
    requires n <= |raws|
    ensures BytesOf(raws, p, n) == 0 <==> forall i :: 0 <= i < n ==> !p(i)
  {
    if n > 0 {
      NoBytes(raws, p, n - 1);
    }
  }

  /** From `e` on everything is picked exactly when the bytes picked are all there are from `e` on. */
  lemma {:induction false} AllPicked(raws: seq<bytes>, p: nat -> bool, e: nat, n: nat)
    requires e <= n <= |raws| && forall i :: 0 <= i < e ==> !p(i)
    ensures BytesOf(raws, p, n) + RawBytes(raws[..e]) <= RawBytes(raws[..n])
    ensures BytesOf(raws, p, n) + RawBytes(raws[..e]) == RawBytes(raws[..n]) <==> forall i :: e <= i < n ==> p(i)
  {
    if n == e {
      NoBytes(raws, p, n);
    } else {
      AllPicked(raws, p, e, n - 1);
      assert raws[..n][..n - 1] == raws[..n - 1];
    }
  }

  lemma {:induction false} WaitsAfter(parse: Parser, raws: seq<bytes>, stream: LogStream, i: nat)
    requires raws != []
    ensures
      var n := |raws| - 1;
      WaitsOn(parse, raws, stream, i) <==>
      (if i == n then IsFragment(parse, raws[n], stream)
        else WaitsOn(parse, raws[..n], stream, i) && !Closes(parse, raws[n], stream))
  {
    var n := |raws| - 1;
    if i < n && WaitsOn(parse, raws, stream, i) {
      forall j | i < j < n
        ensures !Closes(parse, raws[..n][j], stream)
      {
        assert raws[..n][j] == raws[j];
      }
    }
    if i < n && WaitsOn(parse, raws[..n], stream, i) && !Closes(parse, raws[n], stream) {
      forall j | i < j < |raws|
        ensures !Closes(parse, raws[j], stream)
      {
        assert j < n ==> raws[..n][j] == raws[j];
      }
    }
  }

  /** A stream's buffer holds the bytes of its waiting fragments. */
  lemma {:induction false} BufferHolds(parse: Parser, raws: seq<bytes>, stream: LogStream)
    ensures BufferOf(AfterAll(parse, raws), stream).sourceLen == BytesOf(raws, WaitingOn(parse, raws, stream), |raws|)
  {
    if raws != [] {
      var n := |raws| - 1;
      var p, q := WaitingOn(parse, raws, stream), WaitingOn(parse, raws[..n], stream);
      BufferHolds(parse, raws[..n], stream);
      BufferGrows(parse, AfterAll(parse, raws[..n]), raws[n], stream);
      forall i | 0 <= i <= n
        ensures p(i) <==> if i == n then IsFragment(parse, raws[n], stream) else q(i) && !Closes(parse, raws[n], stream)
      {
        WaitsAfter(parse, raws, stream, i);
      }
      hide WaitsOn, BufferOf, Push;
      if Closes(parse, raws[n], stream) {
        NoBytes(raws, p, |raws|);
      } else {
        SameBytes(raws, p, raws[..n], q, n);
      }
    }
  }

  lemma {:induction false} BufferGrows(parse: Parser, ps: seq<Partial>, raw: bytes, stream: LogStream)
    ensures
      BufferOf(Push(parse, ps, raw).partials, stream).sourceLen
      == if Closes(parse, raw, stream) then 0
        else BufferOf(ps, stream).sourceLen + if IsFragment(parse, raw, stream) then RawLen(raw) else 0
  {
    PushTouchesOneStream(parse, ps, ps, raw, stream);
    if StreamOf(parse, raw) == stream {
      PushAlone(parse, ps, raw, stream);
    }
    hide BufferOf, Push;
  }

  /** What is pending is the bytes of the waiting fragments. */
  lemma {:induction false} PendingHolds(parse: Parser, raws: seq<bytes>)
    ensures PendingBytes(AfterAll(parse, raws)) == BytesOf(raws, Waiting(parse, raws), |raws|)
  {
    if raws != [] {
      var n := |raws| - 1;
      PendingHolds(parse, raws[..n]);
      PushCounts(parse, AfterAll(parse, raws[..n]), raws[n]);
      WaitingBytes(parse, raws);
      hide Push, PendingBytes, Waits, BytesOf;
    }
  }

  /** How the waiting bytes change with the last raw line. */
  lemma {:induction false} WaitingBytes(parse: Parser, raws: seq<bytes>)
    requires raws != []
    ensures
      var n := |raws| - 1;
      var line := Push(parse, AfterAll(parse, raws[..n]), raws[n]).line;
      BytesOf(raws, Waiting(parse, raws), |raws|) + (if line.Some? then line.value.sourceLen else 0)
      == BytesOf(raws[..n], Waiting(parse, raws[..n]), n) + RawLen(raws[n])
  {
    var n := |raws| - 1;
    var ps := AfterAll(parse, raws[..n]);
    var st := StreamOf(parse, raws[n]);
    var p, q := Waiting(parse, raws), Waiting(parse, raws[..n]);
    forall i | 0 <= i < n
      ensures p(i) <==> q(i) && !Closes(parse, raws[n], StreamOf(parse, raws[i]))
    {
      WaitsAfter(parse, raws, StreamOf(parse, raws[i]), i);
    }
    WaitsAfter(parse, raws, st, n);
    if parse(raws[n]).Some? && !parse(raws[n]).value.partial {
      var own := WaitingOn(parse, raws[..n], st);
      forall i | 0 <= i < n
        ensures q(i) <==> p(i) || own(i)
        ensures !(p(i) && own(i))
      {
        OwnOrNot(parse, raws[..n], st, i);
      }
      BufferHolds(parse, raws[..n], st);
      PushAlone(parse, ps, raws[n], st);
      hide WaitsOn, Waits, BufferOf, Push;
      SameBytes(raws, p, raws[..n], p, n);
      SplitBytes(raws[..n], q, p, own, n);
    } else {
      if parse(raws[n]).Some? {
        PushAlone(parse, ps, raws[n], st);
      }
      hide WaitsOn, Waits, BufferOf;
      SameBytes(raws, p, raws[..n], q, n);
    }
  }

  lemma {:induction false} OwnOrNot(parse: Parser, raws: seq<bytes>, stream: LogStream, i: nat)
    requires i < |raws|
    ensures WaitsOn(parse, raws, stream, i) <==> Waits(parse, raws, i) && StreamOf(parse, raws[i]) == stream
  {
  }

  /**
   The offset the pipeline keeps, its position less the pending bytes, is where the earliest waiting
   fragment starts if and only if every raw line from that fragment on is waiting too. Otherwise it
   is past the start of the fragment.
   */
  lemma {:induction false} HeldBackExactlyWhen(parse: Parser, raws: seq<bytes>, e: nat)
    requires e < |raws| && Waits(parse, raws, e) && forall i :: 0 <= i < e ==> !Waits(parse, raws, i)
    ensures
      var offset := RawBytes(raws) - PendingBytes(AfterAll(parse, raws));
      && RawBytes(raws[..e]) <= offset
      && (offset == RawBytes(raws[..e]) <==> forall i :: e <= i < |raws| ==> Waits(parse, raws, i))
  {
    PendingHolds(parse, raws);
    AllPicked(raws, Waiting(parse, raws), e, |raws|);
    assert raws[..|raws|] == raws;
    assert forall i: nat :: Waiting(parse, raws)(i) == Waits(parse, raws, i);
    hide Waits, PendingBytes, AfterAll;
  }

  /** Raw line `i` is part of the line that the last raw line completes. */
  ghost predicate IsPart(parse: Parser, raws: seq<bytes>, i: nat)
    requires raws != []
  {
    var n := |raws| - 1;
    i == n || (parse(raws[n]).Some? && WaitsOn(parse, raws[..n], StreamOf(parse, raws[n]), i))
  }

  ghost function Parts(parse: Parser, raws: seq<bytes>): nat -> bool
    requires raws != []
  {
    (i: nat) => IsPart(parse, raws, i)
  }

  lemma {:induction false} LineHolds(parse: Parser, raws: seq<bytes>)
    requires raws != [] && Push(parse, AfterAll(parse, raws[..|raws| - 1]), raws[|raws| - 1]).line.Some?
    ensures
      var line := Push(parse, AfterAll(parse, raws[..|raws| - 1]), raws[|raws| - 1]).line.value;
      line.sourceLen == BytesOf(raws, Parts(parse, raws), |raws|)
  {
    var n := |raws| - 1;
    var p := Parts(parse, raws);
    var st := StreamOf(parse, raws[n]);
    if parse(raws[n]).None? {
      NoBytes(raws, p, n);
    } else {
      var own := WaitingOn(parse, raws[..n], st);
      BufferHolds(parse, raws[..n], st);
      PushAlone(parse, AfterAll(parse, raws[..n]), raws[n], st);
      hide WaitsOn, BufferOf, Push;
      SameBytes(raws, p, raws[..n], own, n);
    }
  }

  /**
   The pipeline lays emitted lines end to end. The range it gives a line is the one from its first
   fragment to its last record if and only if nothing comes between them and no earlier fragment of
   another stream is waiting.
   */
  lemma {:induction false} AssignedRangeExactlyWhen(parse: Parser, raws: seq<bytes>, first: nat)
    requires raws != [] && Push(parse, AfterAll(parse, raws[..|raws| - 1]), raws[|raws| - 1]).line.Some?
    requires first < |raws| && IsPart(parse, raws, first) && forall i :: 0 <= i < first ==> !IsPart(parse, raws, i)
    ensures
      var n := |raws| - 1;
      var line := Push(parse, AfterAll(parse, raws[..n]), raws[n]).line.value;
      var start := SourceBytes(LinesOut(parse, raws[..n]));
      start == RawBytes(raws[..first]) && start + line.sourceLen == RawBytes(raws) <==>
      (forall i :: first <= i < |raws| ==> IsPart(parse, raws, i))
        && (forall i :: 0 <= i < first ==> !Waits(parse, raws, i))
  {
    var n := |raws| - 1;
    var ps := AfterAll(parse, raws[..n]);
    var line := Push(parse, ps, raws[n]).line.value;
    var start := SourceBytes(LinesOut(parse, raws[..n]));
    assert start + line.sourceLen + PendingBytes(AfterAll(parse, raws)) == RawBytes(raws) by {
      EveryByteCounted(parse, raws[..n]);
      PushCounts(parse, ps, raws[n]);
    }
    PendingHolds(parse, raws);
    NoBytes(raws, Waiting(parse, raws), |raws|);
    LineHolds(parse, raws);
    AllPicked(raws, Parts(parse, raws), first, |raws|);
    assert raws[..|raws|] == raws;
    assert forall i: nat :: Waiting(parse, raws)(i) == Waits(parse, raws, i);
    assert forall i: nat :: Parts(parse, raws)(i) == IsPart(parse, raws, i);
    forall i | first <= i < |raws| && IsPart(parse, raws, i)
      ensures !Waits(parse, raws, i)
    {
      PartsAreDone(parse, raws, i);
    }
    hide Waits, IsPart, PendingBytes, AfterAll, BytesOf, RawBytes, SourceBytes, LinesOut, Push;
  }

  lemma {:induction false} PartsAreDone(parse: Parser, raws: seq<bytes>, i: nat)
    requires raws != [] && i < |raws| && IsPart(parse, raws, i)
    requires Push(parse, AfterAll(parse, raws[..|raws| - 1]), raws[|raws| - 1]).line.Some?
    ensures !Waits(parse, raws, i)
  {
    var n := |raws| - 1;
    WaitsAfter(parse, raws, StreamOf(parse, raws[i]), i);
    hide AfterAll, BufferOf;
  }

  /** One stream's fragment in front of another's record: the record is taken for the first bytes of the file. */
  lemma {:induction false} InterleavedRangeIsWrong(parse: Parser, a: bytes, b: bytes)
    requires parse(a).Some? && parse(a).value.partial && parse(b).Some? && !parse(b).value.partial
    requires parse(a).value.stream != parse(b).value.stream
    ensures
      var line := JsonLine(parse(b).value.payload, parse(b).value.stream, RawLen(b));
      && LinesOut(parse, [a]) == [] && LinesOut(parse, [a, b]) == [line]
      && RawBytes([a, b]) - PendingBytes(AfterAll(parse, [a, b])) == RawLen(b)
      && Waits(parse, [a, b], 0) && RawBytes([a, b][..0]) == 0
  {
    var r, s := parse(a).value, parse(b).value;
    assert [a, b][..1] == [a] && [a][..0] == [] && [a, b][..0] == [];
    FirstFragment(parse, a);
    OneMore(parse, [], a);
    assert [] + [a] == [a] && [a] + [b] == [a, b];
    OneMore(parse, [a], b);
    RecordAfter(parse, AfterAll(parse, [a]), b);
    EveryByteCounted(parse, [a, b]);
    var lines := LinesOut(parse, [a, b]);
    assert lines == [] + [JsonLine(s.payload, s.stream, RawLen(b))];
    assert lines[..0] == [];
    assert IsFragment(parse, [a, b][0], r.stream) && !Closes(parse, [a, b][1], r.stream);
    hide Push, PendingBytes;
  }

  lemma {:induction false} FirstFragment(parse: Parser, a: bytes)
    requires parse(a).Some? && parse(a).value.partial
    ensures
      var r := parse(a).value;
      Push(parse, [], a) == Pushed([Partial(r.stream, r.payload, RawLen(a))], None)
  {
    assert [] + parse(a).value.payload == parse(a).value.payload;
  }

  lemma {:induction false} RecordAfter(parse: Parser, ps: seq<Partial>, b: bytes)
    requires parse(b).Some? && !parse(b).value.partial && |ps| == 1 && ps[0].stream != parse(b).value.stream
    ensures
      var s := parse(b).value;
      Push(parse, ps, b).line == Some(JsonLine(s.payload, s.stream, RawLen(b)))
  {
    IndexIs(ps, parse(b).value.stream, 1);
    assert [] + parse(b).value.payload == parse(b).value.payload;
  }
}
