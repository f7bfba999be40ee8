/**
 The readers that rejoin split container lines: the file the pipeline delivers is their finished
 lines end to end, and their own offset is ahead of it by the fragments they hold.
 */
module ReaderOffsets {
  import opened Common
  import opened LogFiles
  import Json = DockerJson
  import Container = ContainerReading

  function JsonFile(lines: seq<Json.JsonLine>): (file: LogFile)
    ensures |file| == |lines|
    ensures forall i :: 0 <= i < |file| ==> file[i] == FileLine(lines[i].payload, lines[i].sourceLen, lines[i].stream)
  {
    seq(|lines|, i requires 0 <= i < |lines| => FileLine(lines[i].payload, lines[i].sourceLen, lines[i].stream))
  }

  lemma {:induction false} JsonStarts(lines: seq<Json.JsonLine>, n: nat)
    requires n <= |lines|
    ensures StartOf(JsonFile(lines), n) == Json.SourceBytes(lines[..n])
  {
    if n > 0 {
      JsonStarts(lines, n - 1);
      assert lines[..n][..n - 1] == lines[..n - 1];
    }
  }

  /**
   The json-file reader stands at the end of the lines it handed over plus what waits for its last
   record, and every line it handed over spans bytes.
   */
  lemma {:induction false} JsonReaderIsAhead(parse: Json.Parser, raws: seq<bytes>)
    ensures EveryLineSpansBytes(JsonFile(Json.LinesOut(parse, raws)))
    ensures
      var lines := Json.LinesOut(parse, raws);
      Json.RawBytes(raws) == StartOf(JsonFile(lines), |lines|) + Json.PendingBytes(Json.AfterAll(parse, raws))
  {
    JsonLinesSpanBytes(parse, raws);
    var lines := Json.LinesOut(parse, raws);
    Json.EveryByteCounted(parse, raws);
    JsonStarts(lines, |lines|);
    assert lines[..|lines|] == lines;
  }

  function ContainerFile(lines: seq<Container.ContainerLine>): (file: LogFile)
    ensures |file| == |lines|
    ensures forall i :: 0 <= i < |file| ==> file[i] == FileLine(lines[i].message, lines[i].sourceLen, lines[i].stream)
  {
    seq(|lines|, i requires 0 <= i < |lines| => FileLine(lines[i].message, lines[i].sourceLen, lines[i].stream))
  }

  lemma {:induction false} ContainerStarts(lines: seq<Container.ContainerLine>, n: nat)
    requires n <= |lines|
    ensures StartOf(ContainerFile(lines), n) == Container.SourceBytes(lines[..n])
  {
    if n > 0 {
      ContainerStarts(lines, n - 1);
      assert lines[..n][..n - 1] == lines[..n - 1];
    }
  }

  /** So does the Kubernetes reader, counted from where it was opened. */
  lemma {:induction false} ContainerReaderIsAhead(parse: Container.Parser, file: bytes, r: Container.Reading, n: nat)
    requires r.offset <= |file| && r.partialLen == 0
    ensures EveryLineSpansBytes(ContainerFile(Container.ReadMany(parse, file, r, n).lines))
    ensures
      var p := Container.ReadMany(parse, file, r, n);
      p.reading.offset - r.offset == StartOf(ContainerFile(p.lines), |p.lines|) + p.reading.partialLen
  {
    ContainerLinesSpanBytes(parse, file, r, n);
    var p := Container.ReadMany(parse, file, r, n);
    Container.EveryByteCounted(parse, file, r, n);
    ContainerStarts(p.lines, |p.lines|);
    assert p.lines[..|p.lines|] == p.lines;
  }

  // ---------------------------------------------------------- every finished line spans bytes

  lemma {:induction false} JsonLinesSpanBytes(parse: Json.Parser, raws: seq<bytes>)
    ensures EveryLineSpansBytes(JsonFile(Json.LinesOut(parse, raws)))
  {
    if raws != [] {
      JsonLinesSpanBytes(parse, raws[..|raws| - 1]);
      var lines, all := Json.LinesOut(parse, raws[..|raws| - 1]), Json.LinesOut(parse, raws);
      forall i | 0 <= i < |all|
        ensures all[i].sourceLen > 0
      {
        assert i < |lines| ==> JsonFile(lines)[i].length == all[i].sourceLen;
      }
    }
  }

  lemma {:induction false} ContainerLinesSpanBytes(parse: Container.Parser, file: bytes, r: Container.Reading, n: nat)
    requires r.offset <= |file|
    ensures EveryLineSpansBytes(ContainerFile(Container.ReadMany(parse, file, r, n).lines))
  {
    if n > 0 {
      ContainerLinesSpanBytes(parse, file, r, n - 1);
      var lines, all := Container.ReadMany(parse, file, r, n - 1).lines, Container.ReadMany(parse, file, r, n).lines;
      forall i | 0 <= i < |all|
        ensures all[i].sourceLen > 0
      {
        assert i < |lines| ==> ContainerFile(lines)[i].length == all[i].sourceLen;
      }
    }
  }
}
