/** Reading a Kubernetes container log: physical lines, partial records rejoined, in batches or in one pass. */
module ContainerReading {
  import opened Common
  import opened AnsiStripping

  /** Longest message kept. */
  const DEFAULT_MAX_LINE_BYTES: nat := 1_048_576

  /** What a raw line says: its message, its stream, and whether it is a fragment of a container record. */
  datatype CriRecord = CriRecord(message: bytes, stream: LogStream, fragment: bool)

  /** Parsing as a parameter. */
  type Parser = bytes -> CriRecord

  datatype ContainerLine = ContainerLine(message: bytes, stream: LogStream, sourceLen: nat)

  // ---------------------------------------------------------------------- physical lines

  /** Offset just past the line that starts at `at`: after its LF, or the end of the file. */
  function LineEnd(file: bytes, at: nat): (e: nat)
    requires at <= |file|
    ensures at <= e <= |file| && (at < |file| ==> at < e)
    decreases |file| - at
  {
    if at == |file| then at
    else if file[at] == LF then at + 1
    else LineEnd(file, at + 1)
  }

  /** Without its LF, and without a CR before that. */
  function Trimmed(raw: bytes): bytes {
    var a := if raw != [] && raw[|raw| - 1] == LF then raw[..|raw| - 1] else raw;
    if a != [] && a[|a| - 1] == CR then a[..|a| - 1] else a
  }

  /** What comes off is one line ending, and nothing else does. */
  lemma {:induction false} TrimsTheEnding(line: bytes)
    ensures Trimmed(line + [CR] + [LF]) == line && Trimmed(line + [CR]) == line
    ensures line == [] || line[|line| - 1] != CR ==> Trimmed(line + [LF]) == line
    ensures line == [] || (line[|line| - 1] != CR && line[|line| - 1] != LF) ==> Trimmed(line) == line
  {
    LastComesOff(line, CR);
    LastComesOff(line + [CR], LF);
    LastComesOff(line, LF);
  }

  lemma {:induction false} LastComesOff(line: bytes, b: byte)
    ensures
      var all := line + [b];
      |all| == |line| + 1 && all[|line|] == b && all[..|line|] == line
  {
  }

  function Shortened(message: bytes): bytes {
    message[..Min(|message|, DEFAULT_MAX_LINE_BYTES)]
  }

  lemma {:induction false} ShortensToAMebibyte(message: bytes)
    ensures Shortened(message) <= message
    ensures |Shortened(message)| == if |message| <= 1024 * 1024 then |message| else 1024 * 1024
  {
  }

  // ------------------------------------------------------------------------ one line read

  /** Where a reader stands: offset, fragments gathered, and the raw bytes they took. */
  datatype Reading = Reading(offset: nat, partial: bytes, partialLen: nat)

  const AtStart := Reading(0, [], 0)

  datatype Progress = Progress(reading: Reading, lines: seq<ContainerLine>)

  function ReadLine(parse: Parser, file: bytes, r: Reading): (p: Progress)
    requires r.offset < |file|
    ensures r.offset < p.reading.offset <= |file|
  {
    var e := LineEnd(file, r.offset);
    var record := parse(Trimmed(file[r.offset..e]));
    var taken := r.partialLen + (e - r.offset);
    if record.fragment then Progress(Reading(e, r.partial + record.message, taken), [])
    else
      Progress(Reading(e, [], 0), [ContainerLine(Shortened(Strip(r.partial + record.message)), record.stream, taken)])
  }

  /** One more line, unless the end of the file is reached. */
  function ReadMore(parse: Parser, file: bytes, p: Progress): (q: Progress)
    requires p.reading.offset <= |file|
    ensures p.reading.offset <= q.reading.offset <= |file|
    ensures p.reading.offset < |file| ==> p.reading.offset < q.reading.offset
  {
    if p.reading.offset == |file| then p
    else
      var one := ReadLine(parse, file, p.reading);
      Progress(one.reading, p.lines + one.lines)
  }

  /** Up to `n` physical lines, fewer at the end of the file. */
  function ReadMany(parse: Parser, file: bytes, r: Reading, n: nat): (p: Progress)
    requires r.offset <= |file|
    ensures r.offset <= p.reading.offset <= |file|
    decreases n
  {
    if n == 0 then Progress(r, []) else ReadMore(parse, file, ReadMany(parse, file, r, n - 1))
  }

  lemma {:induction false} ReadManyEnds(parse: Parser, file: bytes, r: Reading, n: nat)
    requires r.offset <= |file|
    ensures ReadMany(parse, file, r, n).reading.offset >= Min(|file|, r.offset + n)
  {
    hide ReadMore;
    if n > 0 {
      ReadManyEnds(parse, file, r, n - 1);
    }
  }

  /** At the end of the file more lines change nothing; before it they only add. */
  lemma {:induction false} ReadManyGrows(parse: Parser, file: bytes, r: Reading, n: nat, m: nat)
    requires r.offset <= |file| && n <= m
    ensures ReadMany(parse, file, r, n).lines <= ReadMany(parse, file, r, m).lines
    ensures ReadMany(parse, file, r, n).reading.offset == |file| ==>
      ReadMany(parse, file, r, m) == ReadMany(parse, file, r, n)
  {
    hide ReadMore;
    if n < m {
      ReadManyGrows(parse, file, r, n, m - 1);
      var p := ReadMany(parse, file, r, m - 1);
      assert ReadMany(parse, file, r, m) == ReadMore(parse, file, p);
      hide ReadMany;
      MoreAddsLines(parse, file, p);
      Prefixes(ReadMany(parse, file, r, n).lines, p.lines, ReadMore(parse, file, p).lines);
    }
  }

  lemma {:induction false} Prefixes<T>(a: seq<T>, b: seq<T>, c: seq<T>)
    requires a <= b <= c
    ensures a <= c
  {
  }

  lemma {:induction false} MoreAddsLines(parse: Parser, file: bytes, p: Progress)
    requires p.reading.offset <= |file|
    ensures p.lines <= ReadMore(parse, file, p).lines && (p.reading.offset == |file| ==> ReadMore(parse, file, p) == p)
  {
    hide ReadLine;
  }

  /** What was read before does not change what one more line adds. */
  lemma {:induction false} MoreAfter(parse: Parser, file: bytes, before: seq<ContainerLine>, p: Progress)
    requires p.reading.offset <= |file|
    ensures
      var q := ReadMore(parse, file, p);
      ReadMore(parse, file, Progress(p.reading, before + p.lines)) == Progress(q.reading, before + q.lines)
  {
    hide ReadLine;
    if p.reading.offset < |file| {
      var one := ReadLine(parse, file, p.reading);
      assert before + p.lines + one.lines == before + (p.lines + one.lines);
    }
  }

  /** Two batches are one batch of both sizes. */
  lemma {:induction false} BatchesAdd(parse: Parser, file: bytes, r: Reading, a: nat, b: nat)
    requires r.offset <= |file|
    ensures
      var first := ReadMany(parse, file, r, a);
      var second := ReadMany(parse, file, first.reading, b);
      ReadMany(parse, file, r, a + b) == Progress(second.reading, first.lines + second.lines)
    decreases b
  {
    hide ReadMore;
    var first := ReadMany(parse, file, r, a);
    if b == 0 {
      assert first.lines + [] == first.lines;
    } else {
      BatchesAdd(parse, file, r, a, b - 1);
      MoreAfter(parse, file, first.lines, ReadMany(parse, file, first.reading, b - 1));
    }
  }

  // ------------------------------------------------------------------ batches of any size

  /** What a list of batched reads delivers, one after another. */
  function InBatches(parse: Parser, file: bytes, sizes: seq<nat>): (p: Progress)
    ensures p.reading.offset <= |file|
  {
    if sizes == [] then Progress(AtStart, [])
    else
      var n := |sizes| - 1;
      var before := InBatches(parse, file, sizes[..n]);
      var last := ReadMany(parse, file, before.reading, sizes[n]);
      Progress(last.reading, before.lines + last.lines)
  }

  /** The one-pass read of the whole file. */
  function Sample(parse: Parser, file: bytes): seq<ContainerLine> {
    ReadMany(parse, file, AtStart, |file|).lines
  }

  lemma {:induction false} BatchesAreOneRead(parse: Parser, file: bytes, sizes: seq<nat>)
    ensures InBatches(parse, file, sizes) == ReadMany(parse, file, AtStart, Sum(sizes))
  {
    if sizes == [] {
    } else {
      var n := |sizes| - 1;
      BatchesAreOneRead(parse, file, sizes[..n]);
      SumSnoc(sizes);
      BatchesAdd(parse, file, AtStart, Sum(sizes[..n]), sizes[n]);
    }
    hide ReadMore;
  }

  lemma {:induction false} SumSnoc(sizes: seq<nat>)
    requires sizes != []
    ensures Sum(sizes) == Sum(sizes[..|sizes| - 1]) + sizes[|sizes| - 1]
  {
    var n := |sizes| - 1;
    assert sizes == sizes[..n] + [sizes[n]];
    SumAppend(sizes[..n], [sizes[n]]);
    assert Sum([sizes[n]]) == sizes[n] + Sum([]);
  }

  /**
   Reading in batches of any sizes delivers a prefix of the one-pass result, and all of it once the
   end of the file is reached.
   */
  lemma {:induction false} BatchesMatchTheSample(parse: Parser, file: bytes, sizes: seq<nat>)
    ensures
      var p := InBatches(parse, file, sizes);
      && p.lines <= Sample(parse, file)
      && (p.reading.offset == |file| ==> p.lines == Sample(parse, file))
  {
    var total := Sum(sizes);
    BatchesAreOneRead(parse, file, sizes);
    ReadManyEnds(parse, file, AtStart, |file|);
    if total <= |file| {
      ReadManyGrows(parse, file, AtStart, total, |file|);
    } else {
      ReadManyGrows(parse, file, AtStart, |file|, total);
    }
    hide ReadMany, InBatches, Sum;
  }

  // ------------------------------------------------------------------------ bytes accounted for

  function SourceBytes(lines: seq<ContainerLine>): nat {
    if lines == [] then 0 else SourceBytes(lines[..|lines| - 1]) + lines[|lines| - 1].sourceLen
  }

  lemma {:induction false} SourceSnoc(lines: seq<ContainerLine>, line: ContainerLine)
    ensures SourceBytes(lines + [line]) == SourceBytes(lines) + line.sourceLen
  {
    assert (lines + [line])[..|lines|] == lines;
  }

  /** Lines emitted and fragments held back account for every byte between two points of a read. */
  lemma {:induction false} EveryByteCounted(parse: Parser, file: bytes, r: Reading, n: nat)
    requires r.offset <= |file|
    ensures
      var p := ReadMany(parse, file, r, n);
      SourceBytes(p.lines) + p.reading.partialLen == r.partialLen + (p.reading.offset - r.offset)
  {
    if n > 0 {
      EveryByteCounted(parse, file, r, n - 1);
      MoreCounts(parse, file, ReadMany(parse, file, r, n - 1));
      hide ReadMore, SourceBytes;
    }
  }

  lemma {:induction false} MoreCounts(parse: Parser, file: bytes, p: Progress)
    requires p.reading.offset <= |file|
    ensures
      var q := ReadMore(parse, file, p);
      SourceBytes(q.lines) + q.reading.partialLen
        == SourceBytes(p.lines) + p.reading.partialLen + (q.reading.offset - p.reading.offset)
  {
    if p.reading.offset < |file| {
      var one := ReadLine(parse, file, p.reading);
      if one.lines != [] {
        SourceSnoc(p.lines, one.lines[0]);
      } else {
        assert p.lines + [] == p.lines;
      }
    }
    hide Strip, LineEnd, SourceBytes;
  }

  // ------------------------------------------------------------------------- whole messages

  /** Whole physical lines: a line feed ends each of them and is nowhere else. */
  ghost predicate ArePhysical(raws: seq<bytes>, terminated: bool) {
    forall i :: 0 <= i < |raws| ==>
      && raws[i] != [] && LF !in raws[i][..|raws[i]| - 1]
      && (terminated || i < |raws| - 1 ==> raws[i][|raws[i]| - 1] == LF)
  }

  predicate IsFragment(parse: Parser, raw: bytes) {
    parse(Trimmed(raw)).fragment
  }

  /** Physical lines that make up one message: fragments, and the record that closes it. */
  ghost predicate IsMessage(parse: Parser, g: seq<bytes>) {
    g != [] && !IsFragment(parse, g[|g| - 1]) && forall i :: 0 <= i < |g| - 1 ==> IsFragment(parse, g[i])
  }

  /** The text of some physical lines, end to end. */
  function Text(parse: Parser, g: seq<bytes>): bytes {
    if g == [] then [] else Text(parse, g[..|g| - 1]) + parse(Trimmed(g[|g| - 1])).message
  }

  /** The line a message makes: all of its text, under the stream of the record that closes it. */
  function LineOf(parse: Parser, g: seq<bytes>): ContainerLine
    requires g != []
  {
    ContainerLine(Shortened(Strip(Text(parse, g))), parse(Trimmed(g[|g| - 1])).stream, |Flatten(g)|)
  }

  /** The physical lines are these whole messages and then these fragments. */
  ghost predicate Splits(parse: Parser, raws: seq<bytes>, messages: seq<seq<bytes>>, rest: seq<bytes>) {
    && Flatten(messages) + rest == raws
    && (forall i :: 0 <= i < |messages| ==> IsMessage(parse, messages[i]))
    && forall i :: 0 <= i < |rest| ==> IsFragment(parse, rest[i])
  }

  /** The lines read are those of the messages, and the fragments are what is gathered for the next. */
  ghost predicate Gives(parse: Parser, p: Progress, messages: seq<seq<bytes>>, rest: seq<bytes>) {
    && |p.lines| == |messages|
    && (forall i :: 0 <= i < |p.lines| ==> messages[i] != [] && p.lines[i] == LineOf(parse, messages[i]))
    && p.reading.partial == Text(parse, rest) && p.reading.partialLen == |Flatten(rest)|
  }

  /** The file up to where the reader stands. */
  ghost predicate IsFileUpTo(file: bytes, offset: nat, raws: seq<bytes>) {
    offset <= |file| && Flatten(raws) == file[..offset] && ArePhysical(raws, offset < |file|)
  }

  ghost predicate ReadAs(parse: Parser, file: bytes, p: Progress, raws: seq<bytes>, messages: seq<seq<bytes>>,
      rest: seq<bytes>) {
    IsFileUpTo(file, p.reading.offset, raws) && Splits(parse, raws, messages, rest) && Gives(parse, p, messages, rest)
  }

  /** A physical line is all there is up to and including the next line feed. */
  lemma {:induction false} LineEndIsPhysical(file: bytes, at: nat)
    requires at < |file|
    ensures
      var e := LineEnd(file, at);
      LF !in file[at..e - 1] && (e < |file| ==> file[e - 1] == LF)
    decreases |file| - at
  {
    if file[at] != LF && at + 1 < |file| {
      LineEndIsPhysical(file, at + 1);
      var e := LineEnd(file, at);
      assert file[at..e - 1] == [file[at]] + file[at + 1..e - 1];
    }
  }

  lemma {:induction false} RawsGrow(file: bytes, raws: seq<bytes>, at: nat)
    requires at < |file| && IsFileUpTo(file, at, raws)
    ensures
      var e := LineEnd(file, at);
      IsFileUpTo(file, e, raws + [file[at..e]])
  {
    var e := LineEnd(file, at);
    var raw := file[at..e];
    LineEndIsPhysical(file, at);
    FlattenSnoc(raws, raw);
    hide LineEnd, Flatten;
    assert file[..at] + raw == file[..e];
    assert raw[..|raw| - 1] == file[at..e - 1];
  }

  lemma {:induction false} TextSnoc(parse: Parser, g: seq<bytes>, raw: bytes)
    ensures Text(parse, g + [raw]) == Text(parse, g) + parse(Trimmed(raw)).message
    ensures |Flatten(g + [raw])| == |Flatten(g)| + |raw|
  {
    assert (g + [raw])[..|g|] == g;
    FlattenSnoc(g, raw);
  }

  lemma {:induction false} SplitGrows(parse: Parser, raws: seq<bytes>, messages: seq<seq<bytes>>, rest: seq<bytes>,
      raw: bytes)
    requires Splits(parse, raws, messages, rest)
    ensures
      if IsFragment(parse, raw) then Splits(parse, raws + [raw], messages, rest + [raw])
      else Splits(parse, raws + [raw], messages + [rest + [raw]], [])
  {
    var whole := rest + [raw];
    FlattenSnoc(messages, whole);
    hide Flatten, IsFragment;
    assert Flatten(messages) + whole == raws + [raw];
    assert Flatten(messages + [whole]) + [] == raws + [raw];
    assert whole[|whole| - 1] == raw;
  }

  lemma {:induction false} GivesMore(parse: Parser, file: bytes, p: Progress, messages: seq<seq<bytes>>,
      rest: seq<bytes>)
    requires p.reading.offset < |file| && Gives(parse, p, messages, rest)
    ensures
      var raw := file[p.reading.offset..LineEnd(file, p.reading.offset)];
      var q := ReadMore(parse, file, p);
      && q.reading.offset == LineEnd(file, p.reading.offset)
      && if IsFragment(parse, raw) then Gives(parse, q, messages, rest + [raw])
         else Gives(parse, q, messages + [rest + [raw]], [])
  {
    var raw := file[p.reading.offset..LineEnd(file, p.reading.offset)];
    TextSnoc(parse, rest, raw);
    NoText(parse);
    hide LineEnd, Flatten, Strip, Trimmed, Shortened, Text;
    assert p.lines + [] == p.lines;
  }

  lemma {:induction false} NoText(parse: Parser)
    ensures Text(parse, []) == [] && Flatten<byte>([]) == []
  {
  }

  /**
   Reading from the start, however far: the lines read are the whole messages of the file, each the
   stripped and shortened text of all its fragments and the record that closes it, and what is left
   over are fragments still waiting for theirs.
   */
  lemma {:induction false} LinesAreWholeMessages(parse: Parser, file: bytes, n: nat)
      returns (raws: seq<bytes>, messages: seq<seq<bytes>>, rest: seq<bytes>)
    ensures ReadAs(parse, file, ReadMany(parse, file, AtStart, n), raws, messages, rest)
  {
    if n == 0 {
      raws, messages, rest := [], [], [];
      NoText(parse);
    } else {
      hide ReadAs, ReadMore;
      raws, messages, rest := LinesAreWholeMessages(parse, file, n - 1);
      raws, messages, rest :=
        OneMoreReadAs(parse, file, ReadMany(parse, file, AtStart, n - 1), raws, messages, rest);
    }
  }

  lemma {:induction false} OneMoreReadAs(parse: Parser, file: bytes, p: Progress, raws: seq<bytes>,
      messages: seq<seq<bytes>>, rest: seq<bytes>)
      returns (raws': seq<bytes>, messages': seq<seq<bytes>>, rest': seq<bytes>)
    requires p.reading.offset <= |file| && ReadAs(parse, file, p, raws, messages, rest)
    ensures ReadAs(parse, file, ReadMore(parse, file, p), raws', messages', rest')
  {
    raws', messages', rest' := raws, messages, rest;
    if p.reading.offset == |file| {
      MoreAddsLines(parse, file, p);
      hide ReadMore, ReadAs;
    } else {
      hide IsFileUpTo, Splits, Gives, ReadMore, LineEnd, Trimmed, IsFragment;
      var raw := file[p.reading.offset..LineEnd(file, p.reading.offset)];
      RawsGrow(file, raws, p.reading.offset);
      SplitGrows(parse, raws, messages, rest, raw);
      GivesMore(parse, file, p, messages, rest);
      raws' := raws + [raw];
      if IsFragment(parse, raw) {
        rest' := rest + [raw];
      } else {
        messages', rest' := messages + [rest + [raw]], [];
      }
    }
  }

  /** There is only one way to tell the messages apart. */
  lemma {:induction false} MessagesAreUnique(parse: Parser, raws: seq<bytes>, a: seq<seq<bytes>>, x: seq<bytes>,
      b: seq<seq<bytes>>, y: seq<bytes>)
    requires Splits(parse, raws, a, x) && Splits(parse, raws, b, y)
    ensures a == b && x == y
    decreases |a| + |b|
  {
    if a != [] {
      FirstMessage(parse, raws, a, x);
    }
    if b != [] {
      FirstMessage(parse, raws, b, y);
    }
    if a != [] && b != [] {
      SameFirst(parse, a[0], b[0], raws);
      hide Splits, IsFragment;
      MessagesAreUnique(parse, raws[|a[0]|..], a[1..], x, b[1..], y);
      assert a == [a[0]] + a[1..] && b == [b[0]] + b[1..];
    } else if a == [] && b == [] {
      hide IsFragment;
      assert Flatten(a) + x == x && Flatten(b) + y == y;
    }
  }

  lemma {:induction false} FirstMessage(parse: Parser, raws: seq<bytes>, a: seq<seq<bytes>>, x: seq<bytes>)
    requires Splits(parse, raws, a, x) && a != []
    ensures IsMessage(parse, a[0]) && a[0] <= raws && Splits(parse, raws[|a[0]|..], a[1..], x)
    ensures !IsFragment(parse, raws[|a[0]| - 1])
  {
    hide IsFragment;
    var rest := a[1..];
    assert Flatten(a) == a[0] + Flatten(rest);
    assert raws == a[0] + (Flatten(rest) + x);
    assert forall i :: 0 <= i < |rest| ==> rest[i] == a[i + 1];
    assert raws[|a[0]| - 1] == a[0][|a[0]| - 1];
  }

  lemma {:induction false} SameFirst(parse: Parser, g: seq<bytes>, h: seq<bytes>, all: seq<bytes>)
    requires g <= all && h <= all && IsMessage(parse, g) && IsMessage(parse, h)
    ensures g == h
  {
    hide IsFragment;
    assert g[|g| - 1] == all[|g| - 1] && h[|h| - 1] == all[|h| - 1];
    assert forall i :: 0 <= i < |g| ==> g[i] == all[i];
    assert forall i :: 0 <= i < |h| ==> h[i] == all[i];
  }

  // ------------------------------------------------------------------------------ the loops

  class ContainerReader {
    const parse: Parser
    var offset: nat
    var partialBuffer: bytes
    var partialSourceLen: nat

    ghost function Model(): Reading
      reads this
    {
      Reading(offset, partialBuffer, partialSourceLen)
    }

    constructor FromStart(parse: Parser)
      ensures Model() == AtStart && this.parse == parse
    {
      this.parse, offset, partialBuffer, partialSourceLen := parse, 0, [], 0;
    }

    /** One physical line; nothing while fragments are still waiting for their last record. */
    method ReadOne(file: bytes) returns (line: Option<ContainerLine>)
      requires offset < |file|
      modifies this
      ensures
        var one := ReadLine(parse, file, old(Model()));
        Model() == one.reading && one.lines == if line.None? then [] else [line.value]
    {
      hide Strip, Trimmed, Shortened, LineEnd;
      var end := LineEnd(file, offset);
      var record := parse(Trimmed(file[offset..end]));
      partialSourceLen := partialSourceLen + (end - offset);
      offset := end;
      partialBuffer := partialBuffer + record.message;
      if record.fragment {
        return None;
      }
      line := Some(ContainerLine(Shortened(Strip(partialBuffer)), record.stream, partialSourceLen));
      partialBuffer, partialSourceLen := [], 0;
    }

    method ReadLines(file: bytes, maxLines: nat) returns (lines: seq<ContainerLine>)
      requires offset <= |file|
      modifies this
      ensures Progress(Model(), lines) == ReadMany(parse, file, old(Model()), maxLines)
    {
      lines := [];
      ghost var start := Model();
      hide ReadLine;
      var i := 0;
      while i < maxLines && offset < |file|
        invariant i <= maxLines && offset <= |file| && Progress(Model(), lines) == ReadMany(parse, file, start, i)
      {
        var line := ReadOne(file);
        if line.Some? {
          lines := lines + [line.value];
        } else {
          assert lines + [] == lines;
        }
        i := i + 1;
      }
      ReadManyGrows(parse, file, start, i, maxLines);
    }
  }

  /** The sampler's one pass over the file. */
  method SampleLines(parse: Parser, file: bytes) returns (lines: seq<ContainerLine>)
    ensures lines == Sample(parse, file)
  {
    var p := Progress(AtStart, []);
    ghost var n := 0;
    hide ReadLine;
    while p.reading.offset < |file|
      invariant p.reading.offset <= |file| && p == ReadMany(parse, file, AtStart, n) && n <= p.reading.offset
      decreases |file| - p.reading.offset
    {
      p := ReadMore(parse, file, p);
      n := n + 1;
    }
    ReadManyGrows(parse, file, AtStart, n, |file|);
    lines := p.lines;
  }
}
