/** The record stream inside an overflow file, and what can be read back from any part of it. */
module OverflowRecords {
  import opened Common
  import opened EntryCodec

  const FRAME_BYTES := 4
  const STAMP_BYTES := 8

  datatype Record = Record(timestampNs: Timestamp, line: bytes)

  /** Length of stamp and line in 32 bits, which wrap; then the stamp and the line. */
  function EncodeRecord(r: Record): (b: bytes)
    ensures |b| == FRAME_BYTES + STAMP_BYTES + |r.line|
  {
    BigEndian((STAMP_BYTES + |r.line|) % U32_LIMIT, 4) + BigEndian(Unsigned(r.timestampNs), 8) + r.line
  }

  /** The length field can hold it. */
  predicate Framed(r: Record) {
    STAMP_BYTES + |r.line| < U32_LIMIT
  }

  predicate AllFramed(rs: seq<Record>) {
    forall i :: 0 <= i < |rs| ==> Framed(rs[i])
  }

  function Stream(rs: seq<Record>): bytes {
    if rs == [] then [] else EncodeRecord(rs[0]) + Stream(rs[1..])
  }

  /** The whole record at the front, if there is one, and how many bytes it takes. */
  datatype Front = NoRecord | WholeRecord(record: Record, length: nat)

  function ReadFront(b: bytes): (f: Front)
    ensures f.WholeRecord? ==> FRAME_BYTES + STAMP_BYTES <= f.length <= |b|
  {
    if |b| < FRAME_BYTES then NoRecord
    else
      var len := BigEndianValue(b[0..4]);
      if len < STAMP_BYTES || |b| < FRAME_BYTES + len then NoRecord
      else
        BigEndianValueBelow(b[4..12]);
        Widths();
        WholeRecord(Record(Signed(BigEndianValue(b[4..12])), b[12..FRAME_BYTES + len]), FRAME_BYTES + len)
  }

  /** Read until the first thing that is not a whole record. */
  function ReadAll(b: bytes): seq<Record>
    decreases |b|
  {
    match ReadFront(b)
    case NoRecord => []
    case WholeRecord(r, n) => [r] + ReadAll(b[n..])
  }

  /** The reader's loop. */
  method ReadEntireFile(b: bytes) returns (out: seq<Record>)
    ensures out == ReadAll(b)
  {
    out := [];
    var at := 0;
    assert b[0..] == b;
    hide ReadFront, ReadAll;
    while true
      invariant at <= |b| && out + ReadAll(b[at..]) == ReadAll(b)
      decreases |b| - at
    {
      ReadAllFrom(b, at, out);
      match ReadFront(b[at..]) {
        case NoRecord =>
          return;
        case WholeRecord(r, n) =>
          out := out + [r];
          at := at + n;
      }
    }
  }

  lemma {:induction false} ReadAllFrom(b: bytes, at: nat, out: seq<Record>)
    requires at <= |b|
    ensures
      match ReadFront(b[at..])
      case NoRecord => out + ReadAll(b[at..]) == out
      case WholeRecord(r, n) => at + n <= |b| && out + ReadAll(b[at..]) == (out + [r]) + ReadAll(b[at + n..])
  {
    hide ReadFront;
    match ReadFront(b[at..])
    case NoRecord =>
    case WholeRecord(r, n) =>
      assert b[at..][n..] == b[at + n..];
      assert out + ([r] + ReadAll(b[at + n..])) == (out + [r]) + ReadAll(b[at + n..]);
  }

  // -------------------------------------------------------------- prefixes of a stream

  /** How many records lie wholly within the first `n` bytes. */
  function WholeWithin(rs: seq<Record>, n: nat): (k: nat)
    ensures k <= |rs|
  {
    if rs == [] || n < |EncodeRecord(rs[0])| then 0 else 1 + WholeWithin(rs[1..], n - |EncodeRecord(rs[0])|)
  }

  /** The fields of a record at the front of some bytes. */
  lemma {:induction false} Fields(a: bytes, b: bytes, c: bytes, t: bytes)
    requires |a| == 4 && |b| == 8
    ensures
      var all := a + b + c + t;
      all[0..4] == a && all[4..12] == b && all[12..12 + |c|] == c
  {
  }

  lemma {:induction false} RecordFields(r: Record, t: bytes)
    requires Framed(r)
    ensures
      var b := EncodeRecord(r) + t;
      && b[0..4] == BigEndian(STAMP_BYTES + |r.line|, 4)
      && b[4..12] == BigEndian(Unsigned(r.timestampNs), 8)
      && b[12..12 + |r.line|] == r.line
  {
    Widths();
    hide BigEndian;
    Fields(BigEndian(STAMP_BYTES + |r.line|, 4), BigEndian(Unsigned(r.timestampNs), 8), r.line, t);
  }

  lemma {:induction false} ReadsWhole(r: Record, t: bytes)
    requires Framed(r)
    ensures ReadFront(EncodeRecord(r) + t) == WholeRecord(r, |EncodeRecord(r)|)
  {
    Widths();
    BigEndianRoundTrip(STAMP_BYTES + |r.line|, 4);
    BigEndianRoundTrip(Unsigned(r.timestampNs), 8);
    RecordFields(r, t);
    hide BigEndian, BigEndianValue, Pow256, EncodeRecord;
  }

  lemma {:induction false} ReadsNoPart(r: Record, n: nat)
    requires Framed(r) && n < |EncodeRecord(r)|
    ensures ReadFront(EncodeRecord(r)[..n]) == NoRecord
  {
    hide BigEndian, BigEndianValue, Pow256, EncodeRecord;
    var len := STAMP_BYTES + |r.line|;
    Widths();
    BigEndianRoundTrip(len, 4);
    FrameOf(r, n);
  }

  lemma {:induction false} FrameOf(r: Record, n: nat)
    requires FRAME_BYTES <= n <= |EncodeRecord(r)| || n < FRAME_BYTES
    ensures n >= FRAME_BYTES ==> EncodeRecord(r)[..n][0..4] == BigEndian((STAMP_BYTES + |r.line|) % U32_LIMIT, 4)
  {
  }

  /** From any byte prefix of a stream the reader recovers exactly the records lying wholly inside it. */
  lemma {:induction false} PrefixSalvagesWholeRecords(rs: seq<Record>, n: nat)
    requires AllFramed(rs) && n <= |Stream(rs)|
    ensures ReadAll(Stream(rs)[..n]) == rs[..WholeWithin(rs, n)]
  {
    if rs == [] {
      assert Stream(rs)[..n] == [];
    } else {
      var e := EncodeRecord(rs[0]);
      var b := Stream(rs)[..n];
      if n < |e| {
        assert b == e[..n];
        ReadsNoPart(rs[0], n);
      } else {
        var t := Stream(rs[1..])[..n - |e|];
        assert b == e + t;
        ReadsWhole(rs[0], t);
        assert b[|e|..] == t;
        PrefixSalvagesWholeRecords(rs[1..], n - |e|);
        assert rs[..WholeWithin(rs, n)] == [rs[0]] + rs[1..][..WholeWithin(rs[1..], n - |e|)];
      }
    }
  }

  /** The count is right: those records fit, and one more does not. */
  lemma {:induction false} WholeWithinIsMost(rs: seq<Record>, n: nat)
    ensures
      var k := WholeWithin(rs, n);
      |Stream(rs[..k])| <= n && (k < |rs| ==> |Stream(rs[..k + 1])| > n)
  {
    if rs != [] && n >= |EncodeRecord(rs[0])| {
      var m := n - |EncodeRecord(rs[0])|;
      WholeWithinIsMost(rs[1..], m);
      var k := WholeWithin(rs[1..], m);
      assert rs[..k + 1][1..] == rs[1..][..k];
      if k < |rs[1..]| {
        assert rs[..k + 2][1..] == rs[1..][..k + 1];
      }
    } else if rs != [] {
      assert rs[..0] == [] && rs[..1][1..] == [];
    } else {
      assert rs[..0] == [];
    }
  }

  // ---------------------------------------------------------------- whole streams

  lemma {:induction false} TooLongMisreads(r: Record, t: bytes)
    requires !Framed(r)
    ensures
      var f := ReadFront(EncodeRecord(r) + t);
      f.NoRecord? || f.record != r
  {
    var b := EncodeRecord(r) + t;
    var wrapped := (STAMP_BYTES + |r.line|) % U32_LIMIT;
    Widths();
    BigEndianRoundTrip(wrapped, 4);
    hide BigEndian, BigEndianValue, Pow256;
    assert b[0..4] == BigEndian(wrapped, 4);
    assert wrapped < U32_LIMIT <= STAMP_BYTES + |r.line|;
  }

  /** A stream reads back as it was written exactly when every record fits its length field. */
  lemma {:induction false} StreamRoundTripsExactlyWhen(rs: seq<Record>)
    ensures ReadAll(Stream(rs)) == rs <==> AllFramed(rs)
  {
    if rs != [] {
      var e, t := EncodeRecord(rs[0]), Stream(rs[1..]);
      StreamRoundTripsExactlyWhen(rs[1..]);
      assert rs == [rs[0]] + rs[1..];
      if Framed(rs[0]) {
        ReadsWhole(rs[0], t);
        assert (e + t)[|e|..] == t;
      } else {
        TooLongMisreads(rs[0], t);
      }
    }
  }
}
