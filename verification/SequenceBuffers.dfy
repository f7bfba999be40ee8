/**
 The single-file sequence buffer: an autoincrementing table with its size kept in memory, a shared
 gauge and an adaptive page cache. A committed transaction is atomic and survives a crash; a failed
 one changes nothing.
 */
module SequenceBuffers {
  import opened Common
  import opened PageCache
  import opened QueueGauge

  /** How many sequences one DELETE statement names. */
  const DELETE_SEQUENCE_CHUNK := 500

  datatype Row = Row(sequence: nat, data: bytes)

  /** What is on disk: live rows in sequence order, and the last sequence ever handed out. */
  datatype Table = Table(rows: seq<Row>, last: nat)

  datatype BufferError =
    | Sqlite
    | Full(currentBytes: nat, maxBytes: nat)
    | EntryTooLarge(len: nat)
    | Corrupt(sequence: nat)

  datatype Result<+T> = Ok(value: T) | Err(error: BufferError)

  datatype AppendResult = AppendResult(first: nat, last: nat, bytesWritten: nat)

  function TotalBytes(rows: seq<Row>): nat {
    if rows == [] then 0 else TotalBytes(rows[..|rows| - 1]) + |rows[|rows| - 1].data|
  }

  /** Rows whose sequence is not named. */
  function Without(rows: seq<Row>, named: seq<nat>): seq<Row> {
    if rows == [] then []
    else
      var n := |rows| - 1;
      if rows[n].sequence in named then Without(rows[..n], named) else Without(rows[..n], named) + [rows[n]]
  }

  /** Each new row takes the next sequence after the last one ever handed out. */
  function Numbered(last: nat, datas: seq<bytes>): (r: seq<Row>)
    ensures |r| == |datas|
    ensures forall i :: 0 <= i < |r| ==> r[i] == Row(last + 1 + i, datas[i])
  {
    seq(|datas|, i requires 0 <= i < |datas| => Row(last + 1 + i, datas[i]))
  }

  function Inserted(t: Table, datas: seq<bytes>): Table {
    Table(t.rows + Numbered(t.last, datas), t.last + |datas|)
  }

  function Removed(t: Table, named: seq<nat>): Table {
    t.(rows := Without(t.rows, named))
  }

  /** Live sequences are distinct, ascending, and were all handed out. */
  predicate Ordered(t: Table) {
    && (forall i :: 0 <= i < |t.rows| ==> 1 <= t.rows[i].sequence <= t.last)
    && forall i, j :: 0 <= i < j < |t.rows| ==> t.rows[i].sequence < t.rows[j].sequence
  }

  /** Bytes in a list of entries. */
  function Size(datas: seq<bytes>): nat {
    if datas == [] then 0 else Size(datas[..|datas| - 1]) + |datas[|datas| - 1]|
  }

  method SumOfLengths(datas: seq<bytes>) returns (n: nat)
    ensures n == Size(datas)
  {
    n := 0;
    for i := 0 to |datas|
      invariant n == Size(datas[..i])
    {
      assert datas[..i + 1][..i] == datas[..i];
      n := n + |datas[i]|;
    }
    assert datas[..|datas|] == datas;
  }

  lemma {:induction false} NumberedBytes(last: nat, datas: seq<bytes>)
    ensures TotalBytes(Numbered(last, datas)) == Size(datas)
  {
    if datas != [] {
      var n := |datas| - 1;
      assert Numbered(last, datas)[..n] == Numbered(last, datas[..n]);
      NumberedBytes(last, datas[..n]);
    }
  }

  lemma {:induction false} BytesAppend(a: seq<Row>, b: seq<Row>)
    ensures TotalBytes(a + b) == TotalBytes(a) + TotalBytes(b)
  {
    if b == [] {
      assert a + b == a;
    } else {
      assert (a + b)[..|a + b| - 1] == a + b[..|b| - 1];
      BytesAppend(a, b[..|b| - 1]);
    }
  }

  lemma {:induction false} InsertSize(t: Table, datas: seq<bytes>)
    ensures
      var u := Inserted(t, datas);
      |u.rows| == |t.rows| + |datas| && u.last == t.last + |datas|
        && TotalBytes(u.rows) == TotalBytes(t.rows) + Size(datas)
    ensures datas == [] ==> Inserted(t, datas) == t
  {
    NumberedBytes(t.last, datas);
    BytesAppend(t.rows, Numbered(t.last, datas));
  }

  lemma {:induction false} InsertKeepsOrder(t: Table, datas: seq<bytes>)
    requires Ordered(t)
    ensures Ordered(Inserted(t, datas))
  {
  }

  lemma {:induction false} WithoutMembers(rows: seq<Row>, named: seq<nat>, x: Row)
    ensures x in Without(rows, named) <==> x in rows && x.sequence !in named
  {
    if rows != [] {
      var n := |rows| - 1;
      WithoutMembers(rows[..n], named, x);
      assert rows == rows[..n] + [rows[n]];
    }
  }

  lemma {:induction false} RemoveKeepsOrder(t: Table, named: seq<nat>)
    requires Ordered(t)
    ensures Ordered(Removed(t, named))
    decreases |t.rows|
  {
    if t.rows != [] {
      var n := |t.rows| - 1;
      RemoveKeepsOrder(t.(rows := t.rows[..n]), named);
      var kept := Without(t.rows[..n], named);
      forall i | 0 <= i < |kept|
        ensures kept[i].sequence < t.rows[n].sequence
      {
        WithoutMembers(t.rows[..n], named, kept[i]);
      }
    }
  }

  lemma {:induction false} WithoutSnoc(rows: seq<Row>, x: Row, named: seq<nat>)
    ensures Without(rows + [x], named) == if x.sequence in named then Without(rows, named)
      else Without(rows, named) + [x]
  {
    assert (rows + [x])[..|rows|] == rows;
  }

  /** Deleting one list and then another is deleting both at once. */
  lemma {:induction false} WithoutTwice(rows: seq<Row>, a: seq<nat>, b: seq<nat>)
    ensures Without(Without(rows, a), b) == Without(rows, a + b)
  {
    if rows != [] {
      var n := |rows| - 1;
      WithoutTwice(rows[..n], a, b);
      assert rows == rows[..n] + [rows[n]];
      WithoutSnoc(rows[..n], rows[n], a);
      WithoutSnoc(rows[..n], rows[n], a + b);
      WithoutSnoc(Without(rows[..n], a), rows[n], b);
    }
  }

  lemma {:induction false} BytesSnoc(rows: seq<Row>, x: Row)
    ensures TotalBytes(rows + [x]) == TotalBytes(rows) + |x.data|
  {
    assert (rows + [x])[..|rows|] == rows;
  }

  lemma {:induction false} WithoutShrinks(rows: seq<Row>, named: seq<nat>)
    ensures TotalBytes(Without(rows, named)) <= TotalBytes(rows) && |Without(rows, named)| <= |rows|
  {
    if rows != [] {
      var n := |rows| - 1;
      WithoutShrinks(rows[..n], named);
      assert rows == rows[..n] + [rows[n]];
      WithoutSnoc(rows[..n], rows[n], named);
      BytesSnoc(Without(rows[..n], named), rows[n]);
    }
  }

  lemma {:induction false} WithoutNothing(rows: seq<Row>)
    ensures Without(rows, []) == rows
  {
    if rows != [] {
      var n := |rows| - 1;
      WithoutNothing(rows[..n]);
      assert rows == rows[..n] + [rows[n]];
    }
  }

  // ------------------------------------------------------------------------ peeking

  function Oldest(rows: seq<Row>, count: nat): seq<Row> {
    rows[..Min(count, |rows|)]
  }

  /** The idle shortcut answers nothing whenever the live bytes are zero. */
  function Peeked(rows: seq<Row>, count: nat): seq<Row> {
    if TotalBytes(rows) == 0 then [] else Oldest(rows, count)
  }

  lemma {:induction false} NoBytesMeansEmptyRows(rows: seq<Row>)
    ensures TotalBytes(rows) == 0 <==> forall i :: 0 <= i < |rows| ==> rows[i].data == []
  {
    if rows != [] {
      var n := |rows| - 1;
      NoBytesMeansEmptyRows(rows[..n]);
      if forall i :: 0 <= i < |rows| ==> rows[i].data == [] {
        assert forall i :: 0 <= i < n ==> rows[..n][i].data == [];
      }
      if TotalBytes(rows) == 0 {
        forall i | 0 <= i < |rows|
          ensures rows[i].data == []
        {
          assert i < n ==> rows[..n][i].data == [];
        }
      }
    }
  }

  /** A peek misses live rows exactly when there are some and all of them are empty. */
  lemma {:induction false} PeekSeesTheOldestExactlyWhen(rows: seq<Row>, count: nat)
    requires count > 0
    ensures Peeked(rows, count) == Oldest(rows, count)
       <==> rows == [] || exists i :: 0 <= i < |rows| && rows[i].data != []
  {
    NoBytesMeansEmptyRows(rows);
    assert |Oldest(rows, count)| == Min(count, |rows|);
  }

  lemma {:induction false} RatioAgainstOne(a: nat, b: nat)
    requires b > 0
    ensures var p := a as real / b as real; p >= 0.0 && (p < 1.0 <==> a < b)
  {
    var p := a as real / b as real;
    assert p * b as real == a as real;
  }

  // -------------------------------------------------------------------- the buffer

  class SequenceBuffer {
    /** On disk. */
    var table: Table
    /** In memory. */
    const maxBytes: nat
    const cacheCeiling: nat
    var currentBytes: nat
    var count: nat
    var appliedCache: nat
    var gauge: QueueDepthGauge?

    ghost predicate Valid()
      reads this
    {
      && Ordered(table)
      && currentBytes == TotalBytes(table.rows) && count == |table.rows|
      && cacheCeiling >= MIN_CACHE_BYTES && Fits(appliedCache, currentBytes, cacheCeiling)
    }

    /** Everything but the cache size and the gauge's own value is as it was. */
    twostate predicate SameSettings()
      reads this
    {
      gauge == old(gauge)
    }

    constructor Open(onDisk: Table, maxMb: nat, ceilingBytes: nat)
      requires Ordered(onDisk)
      ensures Valid() && table == onDisk && gauge == null
      ensures maxBytes == maxMb * 1024 * 1024 && cacheCeiling == EffectiveCeiling(ceilingBytes)
    {
      table := onDisk;
      maxBytes := maxMb * 1024 * 1024;
      cacheCeiling := EffectiveCeiling(ceilingBytes);
      currentBytes, count := TotalBytes(onDisk.rows), |onDisk.rows|;
      appliedCache := MIN_CACHE_BYTES;
      gauge := null;
      new;
      ResizeCache();
    }

    method ResizeCache()
      requires cacheCeiling >= MIN_CACHE_BYTES && MIN_CACHE_BYTES <= appliedCache <= cacheCeiling
      modifies this`appliedCache
      ensures appliedCache == Resized(old(appliedCache), currentBytes, cacheCeiling)
      ensures Fits(appliedCache, currentBytes, cacheCeiling)
    {
      var desired := Desired(currentBytes, cacheCeiling);
      if appliedCache / 2 <= desired && desired <= appliedCache * 2 {
        return;
      }
      appliedCache := desired;
    }

    method SetGauge(g: QueueDepthGauge)
      requires Valid()
      modifies this, g
      ensures Valid() && gauge == g && g.value == Added(old(g.value), currentBytes)
      ensures table == old(table)
    {
      g.Add(currentBytes);
      gauge := g;
    }

    /** All-or-nothing: `commits` says whether the transaction went through. */
    method Append(datas: seq<bytes>, commits: bool) returns (r: Result<AppendResult>)
      requires Valid()
      modifies this, if gauge == null then {} else {gauge}
      ensures Valid() && SameSettings()
      ensures r ==
        if datas == [] then Ok(AppendResult(0, 0, 0))
        else if old(currentBytes) + Size(datas) > maxBytes then Err(Full(old(currentBytes), maxBytes))
        else if !commits then Err(Sqlite)
        else Ok(AppendResult(old(table.last) + 1, old(table.last) + |datas|, Size(datas)))
      ensures r.Ok? ==> table == Inserted(old(table), datas)
      ensures r.Err? ==> table == old(table)
      ensures gauge != null && r.Ok? && datas != [] ==> gauge.value == Added(old(gauge.value), Size(datas))
      ensures gauge != null && (r.Err? || datas == []) ==> gauge.value == old(gauge.value)
    {
      hide Ordered, Desired, InBand, TotalBytes, Inserted, Added;
      if datas == [] {
        InsertSize(table, datas);
        return Ok(AppendResult(0, 0, 0));
      }
      var bytesWritten := SumOfLengths(datas);
      if currentBytes + bytesWritten > maxBytes {
        return Err(Full(currentBytes, maxBytes));
      }
      if !commits {
        return Err(Sqlite);
      }
      var first, last := InsertAll(datas);
      InsertSize(old(table), datas);
      Grow(|datas|, bytesWritten);
      return Ok(AppendResult(first, last, bytesWritten));
    }

    /** The bookkeeping after a committed insert. */
    method Grow(rows: nat, bytesWritten: nat)
      requires Ordered(table) && |table.rows| == count + rows && TotalBytes(table.rows) == currentBytes + bytesWritten
      requires cacheCeiling >= MIN_CACHE_BYTES && MIN_CACHE_BYTES <= appliedCache <= cacheCeiling
      modifies this`currentBytes, this`count, this`appliedCache, if gauge == null then {} else {gauge}
      ensures Valid()
      ensures gauge != null ==> gauge.value == Added(old(gauge.value), bytesWritten)
    {
      currentBytes := currentBytes + bytesWritten;
      count := count + rows;
      if gauge != null {
        gauge.Add(bytesWritten);
      }
      ResizeCache();
    }

    /** The INSERT loop of one transaction. */
    method InsertAll(datas: seq<bytes>) returns (first: nat, last: nat)
      requires Valid() && datas != []
      modifies this`table
      ensures table == Inserted(old(table), datas) && Ordered(table)
      ensures first == old(table.last) + 1 && last == table.last
    {
      first, last := 0, 0;
      ghost var before := table;
      for i := 0 to |datas|
        invariant table == Inserted(before, datas[..i])
        invariant i > 0 ==> first == before.last + 1 && last == table.last
      {
        assert Numbered(before.last, datas[..i + 1])
          == Numbered(before.last, datas[..i]) + [Row(before.last + 1 + i, datas[i])];
        var id := table.last + 1;
        table := Table(table.rows + [Row(id, datas[i])], id);
        if i == 0 {
          first := id;
        }
        last := id;
      }
      assert datas[..|datas|] == datas;
      InsertKeepsOrder(before, datas);
    }

    method PeekRaw(n: nat) returns (r: seq<Row>)
      requires Valid()
      ensures r == Peeked(table.rows, n)
    {
      if currentBytes == 0 {
        return [];
      }
      r := table.rows[..Min(n, |table.rows|)];
    }

    /** The chunked DELETE is one set deletion, and what it frees is what the table lost. */
    method DeleteSequences(named: seq<nat>, commits: bool) returns (r: Result<nat>)
      requires Valid()
      modifies this, if gauge == null then {} else {gauge}
      ensures Valid() && SameSettings()
      ensures r ==
        if named == [] then Ok(0)
        else if !commits then Err(Sqlite)
        else Ok(TotalBytes(old(table.rows)) - TotalBytes(Without(old(table.rows), named)))
      ensures r.Ok? ==> table == Removed(old(table), named)
      ensures r.Err? ==> table == old(table)
      ensures gauge != null && r.Ok? ==> gauge.value == Subtracted(old(gauge.value), r.value)
      ensures gauge != null && r.Err? ==> gauge.value == old(gauge.value)
    {
      if named == [] {
        WithoutNothing(table.rows);
        return Ok(0);
      }
      if !commits {
        return Err(Sqlite);
      }
      hide Ordered, Fits, TotalBytes, Without;
      WithoutShrinks(table.rows, named);
      var freed, deleted := DeleteChunks(named);
      RemoveKeepsOrder(old(table), named);
      currentBytes := Subtracted(currentBytes, freed);
      count := Subtracted(count, deleted);
      if gauge != null {
        gauge.Sub(freed);
      }
      ResizeCache();
      return Ok(freed);
    }

    /** The DELETE statements of one transaction, with the lengths each of them returns. */
    method DeleteChunks(named: seq<nat>) returns (freed: nat, deleted: nat)
      requires Valid()
      modifies this`table
      ensures table == Removed(old(table), named)
      ensures freed == TotalBytes(old(table.rows)) - TotalBytes(table.rows)
      ensures deleted == |old(table.rows)| - |table.rows|
    {
      hide Ordered, Fits, TotalBytes, Without;
      freed, deleted := 0, 0;
      var at := 0;
      WithoutNothing(table.rows);
      assert named[..at] == [];
      while at < |named|
        invariant 0 <= at <= |named|
        invariant table == Removed(old(table), named[..at])
        invariant freed == TotalBytes(old(table.rows)) - TotalBytes(table.rows)
        invariant deleted == |old(table.rows)| - |table.rows|
      {
        var to := Min(at + DELETE_SEQUENCE_CHUNK, |named|);
        var chunk := named[at..to];
        assert named[..at] + chunk == named[..to];
        WithoutTwice(old(table.rows), named[..at], chunk);
        WithoutShrinks(table.rows, chunk);
        var kept := Without(table.rows, chunk);
        freed := freed + TotalBytes(table.rows) - TotalBytes(kept);
        deleted := deleted + |table.rows| - |kept|;
        table := table.(rows := kept);
        at := to;
      }
      assert named[..at] == named;
    }

    /** Dropping the buffer takes its bytes off the gauge; the table stays on disk. */
    method Drop()
      requires Valid()
      modifies if gauge == null then {} else {gauge}
      ensures gauge != null ==> gauge.value == Subtracted(old(gauge.value), currentBytes)
    {
      if gauge != null {
        gauge.Sub(currentBytes);
      }
    }

    method IsEmpty() returns (empty: bool)
      requires Valid()
      ensures empty <==> table.rows == []
    {
      return count == 0;
    }

    /** How full the buffer is, between 0 and 1; one when it may hold nothing. */
    function Pressure(): (p: real)
      requires Valid()
      reads this
      ensures 0.0 <= p <= 1.0
      ensures p == 1.0 <==> currentBytes >= maxBytes
    {
      if maxBytes == 0 then 1.0
      else
        var p := currentBytes as real / maxBytes as real;
        RatioAgainstOne(currentBytes, maxBytes);
        if p <= 1.0 then p else 1.0
    }
  }

}
