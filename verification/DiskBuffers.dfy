/** The durable line buffer: a first-in first-out queue of lines over the sequence buffer. */
module DiskBuffers {
  import opened Common
  import opened EntryCodec
  import opened SequenceBuffers
  import opened PageCache
  import opened QueueGauge

  // -------------------------------------------------------------------- the queue it is

  /** A line with the sequence it was stored under. */
  datatype Entry = Entry(sequence: nat, line: StoredLine)

  datatype Fifo = Fifo(entries: seq<Entry>, last: nat)

  function Stamped(last: nat, lines: seq<StoredLine>): (r: seq<Entry>)
    ensures |r| == |lines|
    ensures forall i :: 0 <= i < |r| ==> r[i] == Entry(last + 1 + i, lines[i])
  {
    seq(|lines|, i requires 0 <= i < |lines| => Entry(last + 1 + i, lines[i]))
  }

  function Enqueued(q: Fifo, lines: seq<StoredLine>): Fifo {
    Fifo(q.entries + Stamped(q.last, lines), q.last + |lines|)
  }

  function Dropping(entries: seq<Entry>, named: seq<nat>): seq<Entry> {
    if entries == [] then []
    else
      var n := |entries| - 1;
      if entries[n].sequence in named then Dropping(entries[..n], named)
        else Dropping(entries[..n], named) + [entries[n]]
  }

  function Deleted(q: Fifo, named: seq<nat>): Fifo {
    q.(entries := Dropping(q.entries, named))
  }

  function Sequences(entries: seq<Entry>): (r: seq<nat>)
    ensures |r| == |entries| && forall i :: 0 <= i < |r| ==> r[i] == entries[i].sequence
  {
    seq(|entries|, i requires 0 <= i < |entries| => entries[i].sequence)
  }

  function Front(q: Fifo, count: nat): seq<Entry> {
    q.entries[..Min(count, |q.entries|)]
  }

  // ------------------------------------------------------------------- rows as entries

  predicate Fits32(lines: seq<StoredLine>) {
    forall i :: 0 <= i < |lines| ==> |lines[i].data| < U32_LIMIT
  }

  function Encodings(lines: seq<StoredLine>): (r: seq<bytes>)
    requires Fits32(lines)
    ensures |r| == |lines| && forall i :: 0 <= i < |r| ==> r[i] == Encode(lines[i]).value
  {
    seq(|lines|, i requires 0 <= i < |lines| => Encode(lines[i]).value)
  }

  /** The row is one this buffer wrote. */
  predicate Written(row: Row) {
    Decode(row.data).Some? && |Decode(row.data).value.data| < U32_LIMIT
      && row.data == Encode(Decode(row.data).value).value
  }

  predicate AllWritten(rows: seq<Row>) {
    forall i :: 0 <= i < |rows| ==> Written(rows[i])
  }

  function EntryOf(row: Row): Entry
    requires Written(row)
  {
    Entry(row.sequence, Decode(row.data).value)
  }

  function EntriesOf(rows: seq<Row>): (r: seq<Entry>)
    requires AllWritten(rows)
    ensures |r| == |rows| && forall i :: 0 <= i < |r| ==> r[i] == EntryOf(rows[i])
  {
    seq(|rows|, i requires 0 <= i < |rows| => EntryOf(rows[i]))
  }

  lemma {:induction false} NumberedReadBack(last: nat, lines: seq<StoredLine>)
    requires Fits32(lines)
    ensures AllWritten(Numbered(last, Encodings(lines)))
    ensures EntriesOf(Numbered(last, Encodings(lines))) == Stamped(last, lines)
  {
    hide Encode, Decode;
    var rows := Numbered(last, Encodings(lines));
    forall i | 0 <= i < |rows|
      ensures Written(rows[i]) && EntryOf(rows[i]) == Stamped(last, lines)[i]
    {
      RoundTrip(lines[i]);
    }
  }

  lemma {:induction false} DroppedReadBack(rows: seq<Row>, named: seq<nat>)
    requires AllWritten(rows)
    ensures AllWritten(Without(rows, named))
    ensures EntriesOf(Without(rows, named)) == Dropping(EntriesOf(rows), named)
  {
    hide Written, Decode, Encode;
    if rows != [] {
      var n := |rows| - 1;
      assert rows[..n] + [rows[n]] == rows;
      DroppedReadBack(rows[..n], named);
      assert EntriesOf(rows)[..n] == EntriesOf(rows[..n]);
    }
  }

  /** Every stored row has a header, so the live bytes are zero only when there are no rows. */
  lemma {:induction false} WrittenRowsHaveBytes(rows: seq<Row>)
    requires AllWritten(rows)
    ensures TotalBytes(rows) == 0 <==> rows == []
  {
    if rows != [] {
      assert Written(rows[|rows| - 1]);
    }
  }

  ghost predicate PeekedAs(raw: seq<Row>, entries: seq<Entry>) {
    && |entries| == |raw|
    && forall i :: 0 <= i < |raw| ==>
      entries[i].sequence == raw[i].sequence && Decode(raw[i].data) == Some(entries[i].line)
  }

  lemma {:induction false} FrontReadBack(rows: seq<Row>, count: nat, entries: seq<Entry>)
    requires AllWritten(rows) && PeekedAs(Peeked(rows, count), entries)
    ensures entries == EntriesOf(rows)[..Min(count, |rows|)]
  {
    hide Decode, Encode;
    WrittenRowsHaveBytes(rows);
    forall i | 0 <= i < |entries|
      ensures entries[i] == EntryOf(rows[i])
    {
      assert Written(rows[i]);
    }
  }

  // ------------------------------------------------------------- sizes and the size cap

  function StoredBytes(line: StoredLine): nat {
    HEADER_BYTES + |line.data| + |Trailer(line.stream)|
  }

  function QueueBytes(entries: seq<Entry>): nat {
    if entries == [] then 0 else QueueBytes(entries[..|entries| - 1]) + StoredBytes(entries[|entries| - 1].line)
  }

  lemma {:induction false} RowsWeighTheirEntries(rows: seq<Row>)
    requires AllWritten(rows)
    ensures TotalBytes(rows) == QueueBytes(EntriesOf(rows))
  {
    hide Decode;
    if rows != [] {
      var n := |rows| - 1;
      assert AllWritten(rows[..n]);
      RowsWeighTheirEntries(rows[..n]);
      assert EntriesOf(rows)[..n] == EntriesOf(rows[..n]);
      assert Written(rows[n]);
    }
  }

  lemma {:induction false} EncodingsWeigh(last: nat, lines: seq<StoredLine>)
    requires Fits32(lines)
    ensures Size(Encodings(lines)) == QueueBytes(Stamped(last, lines))
  {
    if lines != [] {
      var n := |lines| - 1;
      EncodingsWeigh(last, lines[..n]);
      assert Encodings(lines)[..n] == Encodings(lines[..n]);
      assert Stamped(last, lines)[..n] == Stamped(last, lines[..n]);
    }
  }

  /** Index of the first line the length field cannot hold; the number of lines if there is none. */
  function FirstTooLong(lines: seq<StoredLine>): (i: nat)
    ensures i <= |lines| && Fits32(lines[..i]) && (i < |lines| ==> |lines[i].data| >= U32_LIMIT)
  {
    if lines == [] then 0
    else
      var n := |lines| - 1;
      var i := FirstTooLong(lines[..n]);
      assert lines[..n][..i] == lines[..i];
      if i < n then i
      else if |lines[n].data| >= U32_LIMIT then n
      else n + 1
  }

  lemma {:induction false} FirstTooLongIs(lines: seq<StoredLine>, i: nat)
    requires i <= |lines| && Fits32(lines[..i]) && (i < |lines| ==> |lines[i].data| >= U32_LIMIT)
    ensures FirstTooLong(lines) == i
  {
    var k := FirstTooLong(lines);
    assert forall j :: 0 <= j < i ==> lines[..i][j] == lines[j];
    assert forall j :: 0 <= j < k ==> lines[..k][j] == lines[j];
  }

  /** What storing a batch does to the queue: all of it, or nothing and why. */
  function TryEnqueue(q: Fifo, lines: seq<StoredLine>, maxBytes: nat, commits: bool): Result<Fifo> {
    if lines == [] then Ok(q)
    else if FirstTooLong(lines) < |lines| then Err(EntryTooLarge(|lines[FirstTooLong(lines)].data|))
    else if QueueBytes(q.entries) + QueueBytes(Stamped(q.last, lines)) > maxBytes then
      Err(Full(QueueBytes(q.entries), maxBytes))
    else if !commits then Err(Sqlite)
    else Ok(Enqueued(q, lines))
  }

  /** One line is taken exactly when it is short enough, fits and commits. */
  lemma {:induction false} TriedOne(q: Fifo, line: StoredLine, maxBytes: nat, commits: bool)
    ensures
      var tried := TryEnqueue(q, [line], maxBytes, commits);
      var short, fits := |line.data| < U32_LIMIT, QueueBytes(q.entries) + StoredBytes(line) <= maxBytes;
      && (tried.Ok? <==> short && fits && commits) && (tried.Ok? ==> tried.value == Enqueued(q, [line]))
      && (tried.Err? && tried.error.Full? <==> short && !fits)
  {
    hide Enqueued;
    var one := Stamped(q.last, [line]);
    assert one[..0] == [] && QueueBytes(one) == StoredBytes(line);
    assert [line][..1] == [line];
  }

  // ------------------------------------------------------------------------ the class

  datatype Range = Range(first: nat, last: nat)

  class DiskBuffer {
    const core: SequenceBuffer

    ghost predicate Valid()
      reads core
    {
      core.Valid() && AllWritten(core.table.rows)
    }

    ghost function Contents(): Fifo
      requires Valid()
      reads core
    {
      Fifo(EntriesOf(core.table.rows), core.table.last)
    }

    constructor OpenWithCache(onDisk: Table, maxMb: nat, cacheBytes: nat)
      requires Ordered(onDisk) && AllWritten(onDisk.rows)
      ensures Valid() && fresh(core) && core.gauge == null && core.table == onDisk
      ensures core.maxBytes == maxMb * 1024 * 1024
      ensures Contents() == Fifo(EntriesOf(onDisk.rows), onDisk.last)
    {
      core := new SequenceBuffer.Open(onDisk, maxMb, cacheBytes);
    }

    /** The lines' stored forms, or the first line that has none. */
    static method EncodeAll(lines: seq<StoredLine>) returns (r: Result<seq<bytes>>)
      ensures FirstTooLong(lines) == |lines| ==> Fits32(lines) && r == Ok(Encodings(lines))
      ensures FirstTooLong(lines) < |lines| ==> r == Err(EntryTooLarge(|lines[FirstTooLong(lines)].data|))
    {
      var encoded: seq<bytes> := [];
      for i := 0 to |lines|
        invariant |encoded| == i && Fits32(lines[..i])
        invariant forall k :: 0 <= k < i ==> encoded[k] == Encode(lines[k]).value
      {
        var e := Encode(lines[i]);
        if e.None? {
          FirstTooLongIs(lines, i);
          return Err(EntryTooLarge(|lines[i].data|));
        }
        encoded := encoded + [e.value];
      }
      assert lines[..|lines|] == lines;
      FirstTooLongIs(lines, |lines|);
      assert encoded == Encodings(lines);
      return Ok(encoded);
    }

    /** One transaction: every line or none. */
    method EnqueueStreamBatch(lines: seq<StoredLine>, commits: bool) returns (r: Result<Range>)
      requires Valid()
      modifies core, if core.gauge == null then {} else {core.gauge}
      ensures Valid() && core.gauge == old(core.gauge)
      ensures
        match TryEnqueue(old(Contents()), lines, core.maxBytes, commits)
        case Ok(q) => Contents() == q && r == Ok(if lines == [] then Range(0, 0)
          else Range(old(Contents()).last + 1, q.last))
        case Err(e) => Contents() == old(Contents()) && r == Err(e)
    {
      hide Written, Encode, Decode, Ordered, Fits, TotalBytes, Inserted, Added, FirstTooLong;
      if lines == [] {
        return Ok(Range(0, 0));
      }
      var encoded := EncodeAll(lines);
      if encoded.Err? {
        return Err(encoded.error);
      }
      RowsWeighTheirEntries(core.table.rows);
      EncodingsWeigh(core.table.last, lines);
      var appended := core.Append(encoded.value, commits);
      if appended.Err? {
        return Err(appended.error);
      }
      AppendReadsBack(old(core.table), lines);
      return Ok(Range(appended.value.first, appended.value.last));
    }

    /** The oldest lines, decoded; a row this buffer did not write may stop it. */
    method Peek(count: nat) returns (r: Result<seq<Entry>>)
      requires core.Valid()
      ensures Valid() ==> r == Ok(Front(Contents(), count))
      ensures r.Ok? ==> PeekedAs(Peeked(core.table.rows, count), r.value)
      ensures r.Err? ==> exists row ::
        row in Peeked(core.table.rows, count) && Decode(row.data).None? && r.error == Corrupt(row.sequence)
    {
      var raw := core.PeekRaw(count);
      hide Decode, Encode, TotalBytes, Ordered;
      var entries: seq<Entry> := [];
      for i := 0 to |raw|
        invariant PeekedAs(raw[..i], entries)
      {
        var decoded := Decode(raw[i].data);
        if decoded.None? {
          return Err(Corrupt(raw[i].sequence));
        }
        entries := entries + [Entry(raw[i].sequence, decoded.value)];
      }
      assert raw[..|raw|] == raw;
      if Valid() {
        FrontReadBack(core.table.rows, count, entries);
      }
      return Ok(entries);
    }

    method DeleteSequences(named: seq<nat>, commits: bool) returns (r: Result<()>)
      requires Valid()
      modifies core, if core.gauge == null then {} else {core.gauge}
      ensures Valid() && core.gauge == old(core.gauge)
      ensures r == if named != [] && !commits then Err(Sqlite) else Ok(())
      ensures Contents() == if r.Ok? then Deleted(old(Contents()), named) else old(Contents())
    {
      DroppedReadBack(core.table.rows, named);
      if named == [] {
        WithoutNothing(core.table.rows);
        return Ok(());
      }
      var freed := core.DeleteSequences(named, commits);
      if freed.Err? {
        return Err(freed.error);
      }
      return Ok(());
    }

    method IsEmpty() returns (empty: bool)
      requires Valid()
      ensures empty <==> Contents().entries == []
    {
      empty := core.IsEmpty();
    }
  }

  lemma {:induction false} AppendReadsBack(t: Table, lines: seq<StoredLine>)
    requires AllWritten(t.rows) && Fits32(lines)
    ensures
      var u := Inserted(t, Encodings(lines));
      u.last == t.last + |lines| && AllWritten(u.rows)
        && Fifo(EntriesOf(u.rows), u.last) == Enqueued(Fifo(EntriesOf(t.rows), t.last), lines)
  {
    hide Written;
    NumberedReadBack(t.last, lines);
    var u := Inserted(t, Encodings(lines));
    var q := Enqueued(Fifo(EntriesOf(t.rows), t.last), lines);
    forall i | 0 <= i < |u.rows|
      ensures Written(u.rows[i])
    {
      if i >= |t.rows| {
        assert u.rows[i] == Numbered(t.last, Encodings(lines))[i - |t.rows|];
      }
    }
    assert EntriesOf(u.rows) == EntriesOf(t.rows) + EntriesOf(Numbered(t.last, Encodings(lines)));
  }

  // ------------------------------------------------------------------------- every run

  /** Reopening reads the same table back, so it is the identity on the queue. */
  datatype QueueStep = Enqueue(lines: seq<StoredLine>) | Delete(named: seq<nat>) | Reopen

  function After(q: Fifo, s: QueueStep): Fifo {
    match s
    case Enqueue(lines) => Enqueued(q, lines)
    case Delete(named) => Deleted(q, named)
    case Reopen => q
  }

  ghost predicate IsQueueRun(trace: seq<Fifo>, steps: seq<QueueStep>) {
    && |trace| == |steps| + 1 && trace[0] == Fifo([], 0)
    && forall i :: 0 <= i < |steps| ==> trace[i + 1] == After(trace[i], steps[i])
  }

  /** Everything enqueued by the first `n` steps, in order, numbered from one. */
  ghost function EverEnqueued(steps: seq<QueueStep>, n: nat): seq<Entry>
    requires n <= |steps|
  {
    if n == 0 then []
    else
      var before := EverEnqueued(steps, n - 1);
      match steps[n - 1]
      case Enqueue(lines) => before + Stamped(|before|, lines)
      case _ => before
  }

  /** The sequences named by deletes among the first `n` steps that had been handed out by then. */
  ghost predicate DeletedBy(steps: seq<QueueStep>, n: nat, sequence: nat)
    requires n <= |steps|
  {
    exists i :: 0 <= i < n && steps[i].Delete? && sequence in steps[i].named && sequence <= |EverEnqueued(steps, i)|
  }

  lemma {:induction false} NumberedFromOne(steps: seq<QueueStep>, n: nat)
    requires n <= |steps|
    ensures forall k :: 0 <= k < |EverEnqueued(steps, n)| ==> EverEnqueued(steps, n)[k].sequence == k + 1
  {
    if n > 0 {
      NumberedFromOne(steps, n - 1);
    }
  }

  /** The entries an enqueue puts at the end of the queue. */
  ghost function HandedOut(trace: seq<Fifo>, steps: seq<QueueStep>, i: nat): (r: seq<Entry>)
    requires IsQueueRun(trace, steps) && i < |steps| && steps[i].Enqueue?
    ensures |r| == |steps[i].lines|
  {
    trace[i + 1].entries[|trace[i].entries|..]
  }

  lemma {:induction false} LastNeverFalls(trace: seq<Fifo>, steps: seq<QueueStep>, i: nat, j: nat)
    requires IsQueueRun(trace, steps) && i <= j <= |steps|
    ensures trace[i].last <= trace[j].last
  {
    if i < j {
      LastNeverFalls(trace, steps, i, j - 1);
      assert trace[j - 1 + 1] == After(trace[j - 1], steps[j - 1]);
    }
  }

  lemma {:induction false} HandedOutBetween(trace: seq<Fifo>, steps: seq<QueueStep>, i: nat, a: nat)
    requires IsQueueRun(trace, steps) && i < |steps| && steps[i].Enqueue? && a < |steps[i].lines|
    ensures HandedOut(trace, steps, i)[a].sequence == trace[i].last + a + 1 <= trace[i + 1].last
  {
    assert trace[i + 1] == After(trace[i], steps[i]);
  }

  /**
   A sequence is handed out once in the life of the table, whatever was deleted and however often it
   was reopened in between: what a later enqueue hands out is above all an earlier one did.
   */
  lemma {:induction false} SequencesNeverReused(trace: seq<Fifo>, steps: seq<QueueStep>, i: nat, j: nat, a: nat, b: nat)
    requires IsQueueRun(trace, steps) && i <= j < |steps| && steps[i].Enqueue? && steps[j].Enqueue?
    requires a < |steps[i].lines| && b < |steps[j].lines| && (i < j || a < b)
    ensures HandedOut(trace, steps, i)[a].sequence < HandedOut(trace, steps, j)[b].sequence
  {
    HandedOutBetween(trace, steps, i, a);
    HandedOutBetween(trace, steps, j, b);
    if i < j {
      LastNeverFalls(trace, steps, i + 1, j);
    }
    hide IsQueueRun;
  }

  /** The live entries among a list. */
  ghost function Surviving(ever: seq<Entry>, steps: seq<QueueStep>, n: nat): seq<Entry>
    requires n <= |steps|
  {
    if ever == [] then []
    else
      var k := |ever| - 1;
      if DeletedBy(steps, n, ever[k].sequence) then Surviving(ever[..k], steps, n)
      else Surviving(ever[..k], steps, n) + [ever[k]]
  }

  lemma {:induction false} SurvivorsSame(ever: seq<Entry>, steps: seq<QueueStep>, m: nat, n: nat)
    requires m <= |steps| && n <= |steps|
    requires forall k :: 0 <= k < |ever| ==>
      (DeletedBy(steps, m, ever[k].sequence) <==> DeletedBy(steps, n, ever[k].sequence))
    ensures Surviving(ever, steps, m) == Surviving(ever, steps, n)
  {
    if ever != [] {
      SurvivorsSame(ever[..|ever| - 1], steps, m, n);
    }
  }

  lemma {:induction false} SurvivorsAppend(a: seq<Entry>, b: seq<Entry>, steps: seq<QueueStep>, n: nat)
    requires n <= |steps| && forall k :: 0 <= k < |b| ==> !DeletedBy(steps, n, b[k].sequence)
    ensures Surviving(a + b, steps, n) == Surviving(a, steps, n) + b
  {
    if b == [] {
      assert a + b == a;
    } else {
      var k := |b| - 1;
      assert (a + b)[..|a| + k] == a + b[..k];
      SurvivorsAppend(a, b[..k], steps, n);
      assert b == b[..k] + [b[k]];
    }
  }

  lemma {:induction false} SurvivorsDrop(ever: seq<Entry>, steps: seq<QueueStep>, n: nat)
    requires n < |steps| && steps[n].Delete?
    requires forall k :: 0 <= k < |ever| ==> ever[k].sequence <= |EverEnqueued(steps, n)|
    ensures Surviving(ever, steps, n + 1) == Dropping(Surviving(ever, steps, n), steps[n].named)
  {
    if ever != [] {
      var k := |ever| - 1;
      SurvivorsDrop(ever[..k], steps, n);
      var kept := Surviving(ever[..k], steps, n);
      assert (kept + [ever[k]])[..|kept|] == kept;
      StillDeleted(steps, n, ever[k].sequence);
    }
  }

  lemma {:induction false} StillDeleted(steps: seq<QueueStep>, n: nat, sequence: nat)
    requires n < |steps| && sequence <= |EverEnqueued(steps, n)|
    ensures DeletedBy(steps, n + 1, sequence) <==>
      DeletedBy(steps, n, sequence) || (steps[n].Delete? && sequence in steps[n].named)
  {
  }

  lemma {:induction false} NewNotDeleted(steps: seq<QueueStep>, n: nat, sequence: nat)
    requires n <= |steps| && sequence > |EverEnqueued(steps, n)|
    ensures !DeletedBy(steps, n, sequence)
  {
    if i :| 0 <= i < n && steps[i].Delete? && sequence in steps[i].named && sequence <= |EverEnqueued(steps, i)| {
      EverGrows(steps, i, n);
      assert false;
    }
  }

  lemma {:induction false} EverGrows(steps: seq<QueueStep>, i: nat, n: nat)
    requires i <= n <= |steps|
    ensures |EverEnqueued(steps, i)| <= |EverEnqueued(steps, n)|
  {
    if i < n {
      EverGrows(steps, i, n - 1);
    }
  }

  lemma {:induction false} OldUnaffected(steps: seq<QueueStep>, m: nat)
    requires m < |steps| && !steps[m].Delete?
    ensures Surviving(EverEnqueued(steps, m), steps, m + 1) == Surviving(EverEnqueued(steps, m), steps, m)
  {
    var ever := EverEnqueued(steps, m);
    NumberedFromOne(steps, m);
    forall k | 0 <= k < |ever|
      ensures DeletedBy(steps, m + 1, ever[k].sequence) <==> DeletedBy(steps, m, ever[k].sequence)
    {
      StillDeleted(steps, m, ever[k].sequence);
    }
    SurvivorsSame(ever, steps, m, m + 1);
  }

  lemma {:induction false} EnqueuedSurvive(steps: seq<QueueStep>, m: nat)
    requires m < |steps| && steps[m].Enqueue?
    ensures
      var ever := EverEnqueued(steps, m);
      Surviving(EverEnqueued(steps, m + 1), steps, m + 1) == Surviving(ever, steps, m) + Stamped(|ever|, steps[m].lines)
  {
    var ever := EverEnqueued(steps, m);
    var added := Stamped(|ever|, steps[m].lines);
    OldUnaffected(steps, m);
    assert EverEnqueued(steps, m + 1) == ever + added;
    hide EverEnqueued, DeletedBy, Surviving;
    forall k | 0 <= k < |added|
      ensures !DeletedBy(steps, m + 1, added[k].sequence)
    {
      NewNotDeletedYet(steps, m, added[k].sequence);
    }
    SurvivorsAppend(ever, added, steps, m + 1);
  }

  /**
   Over every run from a new file: the queue holds exactly the lines ever enqueued and not deleted
   since, oldest first, each under the sequence it was given.
   */
  lemma {:induction false} QueueIsWhatSurvives(trace: seq<Fifo>, steps: seq<QueueStep>, n: nat)
    requires IsQueueRun(trace, steps) && n <= |steps|
    ensures trace[n].last == |EverEnqueued(steps, n)|
    ensures trace[n].entries == Surviving(EverEnqueued(steps, n), steps, n)
  {
    if n > 0 {
      var m := n - 1;
      QueueIsWhatSurvives(trace, steps, m);
      assert trace[m + 1] == After(trace[m], steps[m]);
      match steps[m]
      case Enqueue(lines) =>
        EnqueuedSurvive(steps, m);
      case Delete(named) =>
        NumberedFromOne(steps, m);
        SurvivorsDrop(EverEnqueued(steps, m), steps, m);
      case Reopen =>
        OldUnaffected(steps, m);
    }
  }

  lemma {:induction false} NewNotDeletedYet(steps: seq<QueueStep>, m: nat, sequence: nat)
    requires m < |steps| && sequence > |EverEnqueued(steps, m)|
    ensures !DeletedBy(steps, m + 1, sequence)
  {
    NewNotDeleted(steps, m, sequence);
  }
}
