/** The stored form of one buffered line, and fixed-width integers. */
module EntryCodec {
  import opened Common

  // ----------------------------------------------------------- fixed-width integers

  function Pow256(n: nat): (r: nat)
    ensures r >= 1
  {
    if n == 0 then 1 else 256 * Pow256(n - 1)
  }

  /** The low `width` bytes of `v`, most significant first. */
  function BigEndian(v: nat, width: nat): (b: bytes)
    ensures |b| == width
  {
    if width == 0 then [] else BigEndian(v / 256, width - 1) + [v % 256]
  }

  function BigEndianValue(b: bytes): nat {
    if b == [] then 0 else 256 * BigEndianValue(b[..|b| - 1]) + b[|b| - 1]
  }

  lemma {:induction false} BigEndianRoundTrip(v: nat, width: nat)
    requires v < Pow256(width)
    ensures BigEndianValue(BigEndian(v, width)) == v
  {
    if width > 0 {
      var b := BigEndian(v, width);
      assert v / 256 < Pow256(width - 1);
      BigEndianRoundTrip(v / 256, width - 1);
      assert b[..width - 1] == BigEndian(v / 256, width - 1);
    }
  }

  lemma {:induction false} BigEndianValueBelow(b: bytes)
    ensures BigEndianValue(b) < Pow256(|b|)
  {
    if b != [] {
      BigEndianValueBelow(b[..|b| - 1]);
    }
  }

  lemma {:induction false} Widths()
    ensures Pow256(4) == U32_LIMIT && Pow256(8) == U64_LIMIT
  {
    assert Pow256(2) == 65536;
    assert Pow256(3) == 256 * Pow256(2);
    assert Pow256(4) == 256 * Pow256(3);
    assert Pow256(5) == 256 * Pow256(4);
    assert Pow256(6) == 256 * Pow256(5);
    assert Pow256(7) == 256 * Pow256(6);
    assert Pow256(8) == 256 * Pow256(7);
  }

  const U32_LIMIT: nat := 0x1_0000_0000
  const U64_LIMIT: nat := 0x1_0000_0000_0000_0000

  /** Nanoseconds since the epoch in a signed 64-bit word. */
  type Timestamp = t: int | -0x8000_0000_0000_0000 <= t < 0x8000_0000_0000_0000

  function Unsigned(t: Timestamp): (v: nat)
    ensures v < U64_LIMIT
  {
    if t >= 0 then t else t + U64_LIMIT
  }

  function Signed(v: nat): (t: Timestamp)
    requires v < U64_LIMIT
    ensures Unsigned(t) == v
  {
    if v < 0x8000_0000_0000_0000 then v else v - U64_LIMIT
  }

  // ------------------------------------------------------------------- stored lines

  const HEADER_BYTES := 12
  const STREAM_TRAILER_STDOUT: byte := 1
  const STREAM_TRAILER_STDERR: byte := 2

  datatype StoredLine = StoredLine(timestampNs: Timestamp, data: bytes, stream: LogStream)

  function Trailer(stream: LogStream): bytes {
    match stream
    case Stdout => [STREAM_TRAILER_STDOUT]
    case Stderr => [STREAM_TRAILER_STDERR]
    case Unspecified => []
  }

  /** Timestamp, length, data, and a trailer byte for a named stream. No encoding for a line past the length field. */
  function Encode(e: StoredLine): (r: Option<bytes>)
    ensures r.Some? <==> |e.data| < U32_LIMIT
    ensures r.Some? ==> |r.value| == HEADER_BYTES + |e.data| + |Trailer(e.stream)|
  {
    if |e.data| >= U32_LIMIT then None
    else Some(BigEndian(Unsigned(e.timestampNs), 8) + BigEndian(|e.data|, 4) + e.data + Trailer(e.stream))
  }

  function Decode(raw: bytes): Option<StoredLine> {
    if |raw| < HEADER_BYTES then None
    else
      BigEndianValueBelow(raw[0..8]);
      Widths();
      var timestampNs := Signed(BigEndianValue(raw[0..8]));
      var len := BigEndianValue(raw[8..12]);
      if |raw| < HEADER_BYTES + len then None
      else
        var stream :=
          if |raw| == HEADER_BYTES + len then Unspecified
          else if raw[HEADER_BYTES + len] == STREAM_TRAILER_STDOUT then Stdout
          else if raw[HEADER_BYTES + len] == STREAM_TRAILER_STDERR then Stderr
          else Unspecified;
        Some(StoredLine(timestampNs, raw[HEADER_BYTES..HEADER_BYTES + len], stream))
  }

  lemma {:induction false} Sections(a: bytes, b: bytes, c: bytes, d: bytes, raw: bytes)
    requires |a| == 8 && |b| == 4 && raw == a + b + c + d
    ensures raw[0..8] == a && raw[8..12] == b && raw[12..12 + |c|] == c && raw[12 + |c|..] == d
  {
  }

  /** Every line that can be stored comes back exactly, stream and timestamp included. */
  lemma {:induction false} RoundTrip(e: StoredLine)
    requires |e.data| < U32_LIMIT
    ensures Decode(Encode(e).value) == Some(e)
  {
    var raw := Encode(e).value;
    var a, b := BigEndian(Unsigned(e.timestampNs), 8), BigEndian(|e.data|, 4);
    Sections(a, b, e.data, Trailer(e.stream), raw);
    Widths();
    BigEndianRoundTrip(Unsigned(e.timestampNs), 8);
    BigEndianRoundTrip(|e.data|, 4);
    hide BigEndian, BigEndianValue, Pow256;
    assert e.stream != Unspecified ==> raw[12 + |e.data|] == Trailer(e.stream)[0];
  }

  /** Entries written before the trailer existed read as having no stream. */
  lemma {:induction false} TrailerIsOptional(e: StoredLine)
    requires |e.data| < U32_LIMIT
    ensures
      var raw := Encode(e).value;
      Decode(raw[..HEADER_BYTES + |e.data|]) == Some(e.(stream := Unspecified))
  {
    var plain := e.(stream := Unspecified);
    RoundTrip(plain);
    assert Encode(e).value[..HEADER_BYTES + |e.data|] == Encode(plain).value;
  }

  /** A truncated entry is refused, wherever it was cut before the end of its data. */
  lemma {:induction false} TruncatedIsRefused(e: StoredLine, n: nat)
    requires |e.data| < U32_LIMIT && n < HEADER_BYTES + |e.data|
    ensures Decode(Encode(e).value[..n]) == None
  {
    var raw := Encode(e).value;
    var b := BigEndian(|e.data|, 4);
    Sections(BigEndian(Unsigned(e.timestampNs), 8), b, e.data, Trailer(e.stream), raw);
    Widths();
    BigEndianRoundTrip(|e.data|, 4);
    hide BigEndian, BigEndianValue, Pow256;
    if n >= HEADER_BYTES {
      assert raw[..n][8..12] == b;
    }
  }
}
