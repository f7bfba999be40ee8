/** An unrotated log file as the reader sees it: logical lines laid end to end. */
module LogFiles {
  import opened Common
  import opened EntryAssembly

  /** A logical line: its payload, the raw bytes it spans, and the stream that wrote it. */
  datatype FileLine = FileLine(payload: bytes, length: nat, stream: LogStream)

  type LogFile = seq<FileLine>

  ghost predicate EveryLineSpansBytes(file: LogFile) {
    forall i :: 0 <= i < |file| ==> file[i].length > 0
  }

  /** Byte offset at which line `k` starts (the end of the file when `k` is the line count). */
  function StartOf(file: LogFile, k: nat): nat
    requires k <= |file|
  {
    if k == 0 then 0 else StartOf(file, k - 1) + file[k - 1].length
  }

  /** Line `k` with its byte range. */
  function LineOf(file: LogFile, inode: nat, k: nat): Held
    requires k < |file|
  {
    Held(file[k].payload, LineContext(StartOf(file, k), StartOf(file, k + 1), inode))
  }

  /** How many whole lines lie below `offset`. */
  function LinesBelow(file: LogFile, offset: nat): (k: nat)
    ensures k <= |file|
  {
    LinesBelowAmong(file, offset, |file|)
  }

  function LinesBelowAmong(file: LogFile, offset: nat, n: nat): (k: nat)
    requires n <= |file|
    ensures k <= n
  {
    if n == 0 || StartOf(file, n) <= offset then n else LinesBelowAmong(file, offset, n - 1)
  }

  lemma {:induction false} StartsIncrease(file: LogFile, i: nat, j: nat)
    requires EveryLineSpansBytes(file) && i < j <= |file|
    ensures StartOf(file, i) < StartOf(file, j)
  {
    if i + 1 < j {
      StartsIncrease(file, i, j - 1);
    }
  }

  lemma {:induction false} StartsOrder(file: LogFile, i: nat, j: nat)
    requires EveryLineSpansBytes(file) && i <= |file| && j <= |file|
    ensures i < j <==> StartOf(file, i) < StartOf(file, j)
    ensures i == j <==> StartOf(file, i) == StartOf(file, j)
  {
    if i < j {
      StartsIncrease(file, i, j);
    } else if j < i {
      StartsIncrease(file, j, i);
    }
  }

  /** A line boundary determines its line. */
  lemma {:induction false} BoundaryLine(file: LogFile, k: nat)
    requires EveryLineSpansBytes(file) && k <= |file|
    ensures LinesBelow(file, StartOf(file, k)) == k
  {
    BoundaryLineAmong(file, k, |file|);
  }

  lemma {:induction false} BoundaryLineAmong(file: LogFile, k: nat, n: nat)
    requires EveryLineSpansBytes(file) && k <= n <= |file|
    ensures LinesBelowAmong(file, StartOf(file, k), n) == k
  {
    StartsOrder(file, k, n);
    if k < n {
      BoundaryLineAmong(file, k, n - 1);
    }
  }
}
