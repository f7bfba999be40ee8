/** Stitching continuation lines into multi-line events, one stream at a time. */
module EntryAssembly {
  import opened Common

  const DEFAULT_MAX_LINES: nat := 500
  const DEFAULT_TIMEOUT: nat := 5_000

  /** Byte range of one line in its source file. */
  datatype LineContext = LineContext(start: nat, end: nat, inode: nat)

  datatype EventMetadata = EventMetadata(first: LineContext, last: LineContext, lineCount: nat)

  /** A buffered line with its byte range. */
  datatype Held = Held(line: bytes, ctx: LineContext)

  /** An emitted event: the joined bytes and where they came from. */
  datatype Event = Event(body: bytes, meta: EventMetadata)

  /** Start-pattern test, line cap (at least one) and idle timeout. */
  datatype AssemblerConfig = AssemblerConfig(isStart: bytes -> bool, maxLines: nat, timeout: nat)

  /** Zero settings fall back to the defaults. */
  function Configured(isStart: bytes -> bool, maxLines: nat, timeout: nat): (c: AssemblerConfig)
    ensures c.maxLines > 0 && c.timeout > 0
  {
    AssemblerConfig(
      isStart,
      if maxLines == 0 then DEFAULT_MAX_LINES else maxLines,
      if timeout == 0 then DEFAULT_TIMEOUT else timeout)
  }

  /** The value of an assembler: the lines of the event in progress and the last arrival. */
  datatype Assembler = Assembler(held: seq<Held>, lastLineAt: Option<int>)

  const IdleAssembler := Assembler([], None)

  predicate IdleTooLong(c: AssemblerConfig, a: Assembler, now: int) {
    a.lastLineAt.Some? && now - a.lastLineAt.value > c.timeout && a.held != []
  }

  /** Does the arrival of `line` close the event in progress? */
  predicate Closes(c: AssemblerConfig, a: Assembler, line: bytes, now: int) {
    || (c.isStart(line) && a.held != [])
    || |a.held| >= c.maxLines
    || IdleTooLong(c, a, now)
  }

  /** The lines a step emits (none when it emits no event) and the assembler afterwards. */
  datatype Advance = Advance(emitted: seq<Held>, rest: Assembler)

  function Fed(c: AssemblerConfig, a: Assembler, h: Held, now: int): Advance {
    if Closes(c, a, h.line, now) then
      Advance(a.held, Assembler([h], Some(now)))
    else
      Advance([], Assembler(a.held + [h], Some(now)))
  }

  function TimedOut(c: AssemblerConfig, a: Assembler, now: int): Advance {
    if IdleTooLong(c, a, now) then Advance(a.held, IdleAssembler) else Advance([], a)
  }

  function Flushed(a: Assembler): Advance {
    if a.held == [] then Advance([], a) else Advance(a.held, IdleAssembler)
  }

  function Lines(hs: seq<Held>): (r: seq<bytes>)
    ensures |r| == |hs| && forall i :: 0 <= i < |r| ==> r[i] == hs[i].line
  {
    seq(|hs|, i requires 0 <= i < |hs| => hs[i].line)
  }

  /** Lines separated by single line feeds, none at the end. */
  function Join(lines: seq<bytes>): bytes {
    if lines == [] then []
    else if |lines| == 1 then lines[0]
    else lines[0] + [LF] + Join(lines[1..])
  }

  function EventOf(hs: seq<Held>): (e: Event)
    requires hs != []
  {
    Event(Join(Lines(hs)), EventMetadata(hs[0].ctx, hs[|hs| - 1].ctx, |hs|))
  }

  function EmittedEvent(hs: seq<Held>): Option<Event> {
    if hs == [] then None else Some(EventOf(hs))
  }

  method JoinWithNewline(lines: seq<bytes>) returns (out: bytes)
    ensures out == Join(lines)
  {
    out := [];
    var i := 0;
    while i < |lines|
      invariant 0 <= i <= |lines|
      invariant out == Join(lines[..i])
    {
      JoinSnoc(lines[..i], lines[i]);
      assert lines[..i + 1] == lines[..i] + [lines[i]];
      if i > 0 {
        out := out + [LF];
      }
      out := out + lines[i];
      i := i + 1;
    }
    assert lines[..i] == lines;
  }

  lemma {:induction false} JoinSnoc(lines: seq<bytes>, last: bytes)
    ensures Join(lines + [last]) == if lines == [] then last else Join(lines) + [LF] + last
  {
    if |lines| >= 1 {
      var all := lines + [last];
      assert all[1..] == lines[1..] + [last];
      JoinSnoc(lines[1..], last);
      if |lines| == 1 {
        assert all[1..] == [last];
      }
    }
  }

  // ------------------------------------------------------- the lines can be recovered

  function SplitAtLF(text: bytes, from: nat): (r: seq<bytes>)
    requires from <= |text|
    ensures r != []
    decreases |text| - from
  {
    if from == |text| then [[]]
    else
      var rest := SplitAtLF(text, from + 1);
      if text[from] == LF then [[]] + rest
      else [[text[from]] + rest[0]] + rest[1..]
  }

  lemma {:induction false} SplitShift(a: bytes, b: bytes, from: nat)
    requires from <= |b|
    ensures SplitAtLF(a + b, |a| + from) == SplitAtLF(b, from)
    decreases |b| - from
  {
    if from < |b| {
      SplitShift(a, b, from + 1);
    }
  }

  lemma {:induction false} SplitLine(line: bytes, tail: bytes, from: nat)
    requires from <= |line| && LF !in line
    ensures SplitAtLF(line + [LF] + tail, from) == [line[from..]] + SplitAtLF(tail, 0)
    ensures SplitAtLF(line, from) == [line[from..]]
    decreases |line| - from
  {
    var text := line + [LF] + tail;
    if from == |line| {
      SplitShift(line + [LF], tail, 0);
    } else {
      SplitLine(line, tail, from + 1);
      assert text[from] == line[from];
      assert line[from] in line;
      assert [line[from]] + line[from + 1..] == line[from..];
      assert ([line[from + 1..]] + SplitAtLF(tail, 0))[1..] == SplitAtLF(tail, 0);
    }
  }

  /** Lines read from a file hold no line feed, so the joined event still tells them apart. */
  lemma {:induction false} JoinRoundTrip(lines: seq<bytes>)
    requires lines != []
    requires forall i :: 0 <= i < |lines| ==> LF !in lines[i]
    ensures SplitAtLF(Join(lines), 0) == lines
  {
    if |lines| == 1 {
      SplitLine(lines[0], [], 0);
      assert lines[0][0..] == lines[0];
    } else {
      JoinRoundTrip(lines[1..]);
      SplitLine(lines[0], Join(lines[1..]), 0);
      assert lines[0][0..] == lines[0];
    }
  }

  // ------------------------------------------------------------------- the object

  class EntryAssembler {
    const config: AssemblerConfig
    var buffer: seq<bytes>
    var contexts: seq<LineContext>
    var lastLineAt: Option<int>

    ghost predicate Valid()
      reads this
    {
      |buffer| == |contexts| && config.maxLines > 0 && (buffer != [] ==> lastLineAt.Some?)
    }

    ghost function Model(): (a: Assembler)
      requires Valid()
      reads this
    {
      Assembler(seq(|buffer|, i requires 0 <= i < |buffer| && Valid() reads this => Held(buffer[i], contexts[i])),
        lastLineAt)
    }

    constructor (isStart: bytes -> bool, maxLines: nat, timeout: nat)
      ensures Valid() && Model() == IdleAssembler && config == Configured(isStart, maxLines, timeout)
    {
      config := Configured(isStart, maxLines, timeout);
      buffer := [];
      contexts := [];
      lastLineAt := None;
    }

    method DrainCurrent() returns (e: Event)
      requires Valid() && buffer != []
      modifies this
      ensures Valid() && Model() == IdleAssembler
      ensures e == EventOf(old(Model()).held)
      ensures e.meta.lineCount == |old(buffer)| && e.meta.first == old(contexts)[0]
        && e.meta.last == old(contexts)[|old(contexts)| - 1]
    {
      ghost var held := Model().held;
      var body := JoinWithNewline(buffer);
      assert Lines(held) == buffer;
      e := Event(body, EventMetadata(contexts[0], contexts[|contexts| - 1], |contexts|));
      buffer := [];
      contexts := [];
      lastLineAt := None;
    }

    /** The event in progress ends exactly at a start, at the cap, or after a gap longer than the timeout. */
    method Process(line: bytes, ctx: LineContext, now: int) returns (e: Option<Event>)
      requires Valid()
      modifies this
      ensures Valid()
      ensures e.Some? <==> old(buffer) != [] && (config.isStart(line) || |old(buffer)| >= config.maxLines
                                                 || now - old(lastLineAt).value > config.timeout)
      ensures buffer == (if e.Some? then [] else old(buffer)) + [line] && lastLineAt == Some(now)
      ensures
        var next := Fed(config, old(Model()), Held(line, ctx), now);
        Model() == next.rest && e == EmittedEvent(next.emitted)
    {
      var timedOut := lastLineAt.Some? && now - lastLineAt.value > config.timeout && buffer != [];
      var full := |buffer| >= config.maxLines;
      e := None;
      if (config.isStart(line) && buffer != []) || full || timedOut {
        var emitted := DrainCurrent();
        e := Some(emitted);
      }
      buffer := buffer + [line];
      contexts := contexts + [ctx];
      lastLineAt := Some(now);
    }

    method CheckTimeout(now: int) returns (e: Option<Event>)
      requires Valid()
      modifies this
      ensures Valid()
      ensures e.Some? <==> old(buffer) != [] && now - old(lastLineAt).value > config.timeout
      ensures buffer == if e.Some? then [] else old(buffer)
      ensures
        var next := TimedOut(config, old(Model()), now);
        Model() == next.rest && e == EmittedEvent(next.emitted)
    {
      e := None;
      if lastLineAt.None? || buffer == [] || now - lastLineAt.value <= config.timeout {
        return;
      }
      var emitted := DrainCurrent();
      e := Some(emitted);
    }

    method Flush() returns (e: Option<Event>)
      requires Valid()
      modifies this
      ensures Valid()
      ensures
        var next := Flushed(old(Model()));
        Model() == next.rest && e == EmittedEvent(next.emitted)
    {
      e := None;
      if buffer != [] {
        var emitted := DrainCurrent();
        e := Some(emitted);
      }
    }

    /** Start offset of the oldest buffered line. */
    function BufferedStartOffset(): (r: Option<nat>)
      requires Valid()
      reads this
      ensures r.Some? <==> Model().held != []
      ensures r.Some? ==> r.value == Model().held[0].ctx.start
    {
      if contexts == [] then None else Some(contexts[0].start)
    }
  }
}
