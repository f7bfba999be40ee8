/**
 The overflow store: one directory of files per source, under one byte budget. A source's writer
 remembers the path of the file it is writing to; every other file is finished, and only the
 comparison of paths tells the two apart. File names are creation times.
 */
module Overflow {
  import opened Common
  import opened OverflowRecords

  const DEFAULT_MAX_FILE_BYTES := 10 * 1024 * 1024

  /** A listed file: its path is its source and name, `records` is what reading it gives. */
  datatype File = File(source: nat, name: nat, size: nat, records: seq<Record>)

  datatype SourceWriter = SourceWriter(name: nat, bytesWritten: nat)

  datatype Store = Store(files: seq<File>, writers: map<nat, SourceWriter>, total: nat)

  predicate HasPath(f: File, source: nat, name: nat) {
    f.source == source && f.name == name
  }

  predicate IsCurrent(writers: map<nat, SourceWriter>, f: File) {
    f.source in writers && writers[f.source].name == f.name
  }

  /** Finished, and the given source's when one is given. */
  predicate Free(writers: map<nat, SourceWriter>, only: Option<nat>, f: File) {
    !IsCurrent(writers, f) && (only.Some? ==> f.source == only.value)
  }

  /** The bytes of the finished files. */
  function FreeSize(files: seq<File>, writers: map<nat, SourceWriter>): nat {
    if files == [] then 0
    else
      var n := |files| - 1;
      FreeSize(files[..n], writers) + if IsCurrent(writers, files[n]) then 0 else files[n].size
  }

  predicate Exact(s: Store) {
    s.total == FreeSize(s.files, s.writers)
  }

  /** No two files share a path. */
  ghost predicate Distinct(files: seq<File>) {
    forall i, j :: 0 <= i < j < |files| ==> !HasPath(files[i], files[j].source, files[j].name)
  }

  ghost predicate Listed(files: seq<File>, source: nat, name: nat) {
    exists i :: 0 <= i < |files| && HasPath(files[i], source, name)
  }

  /** Paths are distinct and every writer's file is there. */
  ghost predicate Sound(s: Store) {
    Distinct(s.files) && forall source :: source in s.writers ==> Listed(s.files, source, s.writers[source].name)
  }

  ghost predicate Fresh(s: Store, source: nat, name: nat) {
    !Listed(s.files, source, name)
  }

  lemma {:induction false} FreeSizeAppend(a: seq<File>, b: seq<File>, writers: map<nat, SourceWriter>)
    ensures FreeSize(a + b, writers) == FreeSize(a, writers) + FreeSize(b, writers)
  {
    if b == [] {
      assert a + b == a;
    } else {
      assert (a + b)[..|a + b| - 1] == a + b[..|b| - 1];
      FreeSizeAppend(a, b[..|b| - 1], writers);
    }
  }

  function RemovedAt(files: seq<File>, i: nat): seq<File>
    requires i < |files|
  {
    files[..i] + files[i + 1..]
  }

  lemma {:induction false} FreeSizeRemoved(files: seq<File>, writers: map<nat, SourceWriter>, i: nat)
    requires i < |files| && !IsCurrent(writers, files[i])
    ensures FreeSize(RemovedAt(files, i), writers) == FreeSize(files, writers) - files[i].size
  {
    assert files == files[..i] + ([files[i]] + files[i + 1..]);
    FreeSizeAppend(files[..i], [files[i]] + files[i + 1..], writers);
    FreeSizeAppend([files[i]], files[i + 1..], writers);
    FreeSizeAppend(files[..i], files[i + 1..], writers);
    assert [files[i]][..0] == [];
  }

  lemma {:induction false} RemovedMembers(files: seq<File>, i: nat)
    requires i < |files|
    ensures multiset(files) == multiset(RemovedAt(files, i)) + multiset{files[i]}
  {
    assert files == files[..i] + [files[i]] + files[i + 1..];
  }

  lemma {:induction false} RemovedStaysDistinct(files: seq<File>, i: nat)
    requires i < |files| && Distinct(files)
    ensures Distinct(RemovedAt(files, i))
    ensures forall f :: f in RemovedAt(files, i) <==> f in files && f != files[i]
  {
    var r := RemovedAt(files, i);
    forall j | 0 <= j < |r|
      ensures r[j] == files[if j < i then j else j + 1]
    {
    }
    forall f | f in files && f != files[i]
      ensures f in r
    {
      var j :| 0 <= j < |files| && files[j] == f;
      assert r[if j < i then j else j - 1] == f;
    }
  }

  // --------------------------------------------------------------------------- records

  /** The records on disk. */
  function Held(files: seq<File>): multiset<Record> {
    if files == [] then multiset{} else Held(files[..|files| - 1]) + multiset(files[|files| - 1].records)
  }

  lemma {:induction false} HeldAppend(a: seq<File>, b: seq<File>)
    ensures Held(a + b) == Held(a) + Held(b)
  {
    if b == [] {
      assert a + b == a;
    } else {
      assert (a + b)[..|a + b| - 1] == a + b[..|b| - 1];
      HeldAppend(a, b[..|b| - 1]);
    }
  }

  lemma {:induction false} HeldOne(f: File)
    ensures Held([f]) == multiset(f.records)
  {
    assert [f][..0] == [];
  }

  lemma {:induction false} HeldRemoved(files: seq<File>, i: nat)
    requires i < |files|
    ensures Held(files) == Held(RemovedAt(files, i)) + multiset(files[i].records)
  {
    assert files == files[..i] + ([files[i]] + files[i + 1..]);
    HeldAppend(files[..i], [files[i]] + files[i + 1..]);
    HeldAppend([files[i]], files[i + 1..]);
    HeldAppend(files[..i], files[i + 1..]);
    HeldOne(files[i]);
  }

  // -------------------------------------------------------------------------- the oldest

  /** The first listed of the oldest-named free files; the number of files when none is free. */
  function OldestFree(files: seq<File>, writers: map<nat, SourceWriter>, only: Option<nat>): (i: nat)
    ensures i <= |files| && (i < |files| ==> Free(writers, only, files[i]))
    ensures i == |files| ==> forall j :: 0 <= j < |files| ==> !Free(writers, only, files[j])
    ensures i < |files| ==> forall j :: 0 <= j < |files| && Free(writers, only, files[j]) ==>
      files[i].name <= files[j].name
  {
    if files == [] then 0
    else
      var n := |files| - 1;
      var i := OldestFree(files[..n], writers, only);
      if !Free(writers, only, files[n]) then (if i == n then n + 1 else i)
      else if i == n || files[n].name < files[i].name then n
      else i
  }

  // ------------------------------------------------------------------------- eviction

  /** Oldest finished file first, until the finished files are within budget. */
  function Kept(files: seq<File>, writers: map<nat, SourceWriter>, budget: nat): seq<File>
    decreases |files|
  {
    var i := OldestFree(files, writers, None);
    if i == |files| || FreeSize(files, writers) <= budget then files
    else Kept(RemovedAt(files, i), writers, budget)
  }

  function Evicted(files: seq<File>, writers: map<nat, SourceWriter>, budget: nat): seq<File>
    decreases |files|
  {
    var i := OldestFree(files, writers, None);
    if i == |files| || FreeSize(files, writers) <= budget then []
    else [files[i]] + Evicted(RemovedAt(files, i), writers, budget)
  }

  lemma {:induction false} NothingFree(files: seq<File>, writers: map<nat, SourceWriter>)
    requires forall j :: 0 <= j < |files| ==> IsCurrent(writers, files[j])
    ensures FreeSize(files, writers) == 0
  {
    if files != [] {
      NothingFree(files[..|files| - 1], writers);
    }
  }

  ghost predicate OldestGone(kept: seq<File>, gone: seq<File>, writers: map<nat, SourceWriter>) {
    && (forall e :: e in gone ==> !IsCurrent(writers, e))
    && (forall e, k :: e in gone && k in kept && !IsCurrent(writers, k) ==> e.name <= k.name)
  }

  lemma {:induction false} OldestGoneToo(files: seq<File>, i: nat, kept: seq<File>, gone: seq<File>,
      writers: map<nat, SourceWriter>)
    requires i < |files| && OldestGone(kept, gone, writers) && !IsCurrent(writers, files[i])
    requires forall j :: 0 <= j < |files| && !IsCurrent(writers, files[j]) ==> files[i].name <= files[j].name
    requires multiset(RemovedAt(files, i)) == multiset(kept) + multiset(gone)
    ensures OldestGone(kept, [files[i]] + gone, writers)
  {
    forall k | k in kept
      ensures k in files
    {
      assert k in multiset(RemovedAt(files, i));
    }
  }

  /** A file being written to stays, nothing is lost on the way, and one less to go would leave too much. */
  ghost predicate WellSplit(files: seq<File>, kept: seq<File>, gone: seq<File>, writers: map<nat, SourceWriter>,
      budget: nat) {
    && multiset(files) == multiset(kept) + multiset(gone) && OldestGone(kept, gone, writers)
    && (gone != [] ==> FreeSize(kept, writers) + gone[|gone| - 1].size > budget)
  }

  lemma {:induction false} SplitsOneMore(files: seq<File>, i: nat, kept: seq<File>, gone: seq<File>,
      writers: map<nat, SourceWriter>, budget: nat)
    requires i < |files| && WellSplit(RemovedAt(files, i), kept, gone, writers, budget)
      && (gone == [] ==> kept == RemovedAt(files, i))
    requires !IsCurrent(writers, files[i]) && FreeSize(files, writers) > budget
    requires forall j :: 0 <= j < |files| && !IsCurrent(writers, files[j]) ==> files[i].name <= files[j].name
    ensures WellSplit(files, kept, [files[i]] + gone, writers, budget)
  {
    RemovedMembers(files, i);
    FreeSizeRemoved(files, writers, i);
    OldestGoneToo(files, i, kept, gone, writers);
    MembersAgain(files, i, RemovedAt(files, i), kept, gone);
    hide FreeSize, IsCurrent, RemovedAt, OldestGone;
  }

  lemma {:induction false} EvictionUnrolls(files: seq<File>, writers: map<nat, SourceWriter>, budget: nat)
    ensures
      var i := OldestFree(files, writers, None);
      if i == |files| || FreeSize(files, writers) <= budget then Kept(files, writers, budget) == files
        && Evicted(files, writers, budget) == []
      else
        && Kept(files, writers, budget) == Kept(RemovedAt(files, i), writers, budget)
        && Evicted(files, writers, budget) == [files[i]] + Evicted(RemovedAt(files, i), writers, budget)
  {
  }

  lemma {:induction false} OldestIsFree(files: seq<File>, writers: map<nat, SourceWriter>)
    ensures
      var i := OldestFree(files, writers, None);
      i < |files| ==>
        && !IsCurrent(writers, files[i]) && |RemovedAt(files, i)| < |files|
        && forall j :: 0 <= j < |files| && !IsCurrent(writers, files[j]) ==> files[i].name <= files[j].name
  {
  }

  lemma {:induction false} NothingGone(files: seq<File>, writers: map<nat, SourceWriter>, budget: nat)
    ensures WellSplit(files, files, [], writers, budget)
  {
  }

  /**
   Eviction splits the files in two: a file being written to stays, no finished file goes before an
   older one, and without the last to go the budget would still be exceeded.
   */
  lemma {:induction false} EvictionTakesOldestAndNoMore(files: seq<File>, writers: map<nat, SourceWriter>, budget: nat)
    ensures WellSplit(files, Kept(files, writers, budget), Evicted(files, writers, budget), writers, budget)
    decreases |files|
  {
    hide *;
    var i := OldestFree(files, writers, None);
    EvictionUnrolls(files, writers, budget);
    OldestIsFree(files, writers);
    if i == |files| || FreeSize(files, writers) <= budget {
      NothingGone(files, writers, budget);
    } else {
      var rest := RemovedAt(files, i);
      EvictionTakesOldestAndNoMore(rest, writers, budget);
      NoneEvicted(rest, writers, budget);
      SplitsOneMore(files, i, Kept(rest, writers, budget), Evicted(rest, writers, budget), writers, budget);
    }
  }

  lemma {:induction false} MembersAgain(files: seq<File>, i: nat, rest: seq<File>, kept: seq<File>, gone: seq<File>)
    requires i < |files| && multiset(files) == multiset(rest) + multiset{files[i]}
      && multiset(rest) == multiset(kept) + multiset(gone)
    ensures multiset(files) == multiset(kept) + multiset([files[i]] + gone)
  {
  }

  lemma {:induction false} NoneEvicted(files: seq<File>, writers: map<nat, SourceWriter>, budget: nat)
    ensures Evicted(files, writers, budget) == [] ==> Kept(files, writers, budget) == files
  {
  }

  lemma {:induction false} KeptStaysDistinct(files: seq<File>, writers: map<nat, SourceWriter>, budget: nat)
    requires Distinct(files)
    ensures Distinct(Kept(files, writers, budget))
    ensures forall k :: k in Kept(files, writers, budget) ==> k in files
    ensures forall k :: k in files && IsCurrent(writers, k) ==> k in Kept(files, writers, budget)
    decreases |files|
  {
    var i := OldestFree(files, writers, None);
    if i < |files| && FreeSize(files, writers) > budget {
      RemovedStaysDistinct(files, i);
      KeptStaysDistinct(RemovedAt(files, i), writers, budget);
    }
  }

  lemma {:induction false} EvictionConserves(files: seq<File>, writers: map<nat, SourceWriter>, budget: nat)
    ensures Held(files) == Held(Kept(files, writers, budget)) + Held(Evicted(files, writers, budget))
    decreases |files|
  {
    var i := OldestFree(files, writers, None);
    if i < |files| && FreeSize(files, writers) > budget {
      HeldRemoved(files, i);
      EvictionConserves(RemovedAt(files, i), writers, budget);
      HeldAppend([files[i]], Evicted(RemovedAt(files, i), writers, budget));
      HeldOne(files[i]);
      hide Held, OldestFree;
    }
  }

  function Less(total: nat, size: nat): nat {
    if size <= total then total - size else 0
  }

  /** What the code does: one file after another, keeping its running total. */
  function EvictOne(s: Store, i: nat): Store
    requires i < |s.files|
  {
    s.(files := RemovedAt(s.files, i), total := Less(s.total, s.files[i].size))
  }

  function EvictAll(s: Store, budget: nat): Store
    decreases |s.files|
  {
    var i := OldestFree(s.files, s.writers, None);
    if s.total <= budget || i == |s.files| then s else EvictAll(EvictOne(s, i), budget)
  }

  /** With an exact total the loop keeps what the budget allows and ends with an exact total. */
  lemma {:induction false} EvictionIsExact(s: Store, budget: nat)
    requires Exact(s)
    ensures
      var t := EvictAll(s, budget);
      Exact(t) && t.total <= budget && t.files == Kept(s.files, s.writers, budget) && t.writers == s.writers
    decreases |s.files|
  {
    var i := OldestFree(s.files, s.writers, None);
    if i == |s.files| {
      NothingFree(s.files, s.writers);
    } else if s.total > budget {
      FreeSizeRemoved(s.files, s.writers, i);
      EvictionIsExact(EvictOne(s, i), budget);
    }
  }

  // ----------------------------------------------------------------------- operations

  /** A new file under the current time's name, and a writer on it. */
  function Opened(s: Store, source: nat, name: nat): Store {
    Store(s.files + [File(source, name, 0, [])], s.writers[source := SourceWriter(name, 0)], s.total)
  }

  function CutTo(records: seq<Record>, cut: Option<nat>): seq<Record> {
    if cut.Some? && cut.value < |records| then records[..cut.value] else records
  }

  function ClosedFile(f: File, source: nat, name: nat, size: nat, cut: Option<nat>): File {
    if HasPath(f, source, name) then f.(size := size, records := CutTo(f.records, cut)) else f
  }

  /** The file at the path gets its final size; when it was not closed properly, its tail may be unreadable. */
  function ClosedAt(files: seq<File>, source: nat, name: nat, size: nat, cut: Option<nat>): (r: seq<File>)
    ensures |r| == |files| && forall i :: 0 <= i < |r| ==> r[i] == ClosedFile(files[i], source, name, size, cut)
  {
    seq(|files|, i requires 0 <= i < |files| => ClosedFile(files[i], source, name, size, cut))
  }

  /** The source's writer goes away and its file counts from now on. */
  function Closed(s: Store, source: nat, size: nat, cut: Option<nat>): Store {
    if source !in s.writers then s
    else Store(ClosedAt(s.files, source, s.writers[source].name, size, cut), s.writers - {source}, s.total + size)
  }

  function Rotated(s: Store, source: nat, size: nat, name: nat): Store {
    if source !in s.writers then s else Opened(Closed(s, source, size, None), source, name)
  }

  function WrittenFile(f: File, source: nat, name: nat, record: Record): File {
    if HasPath(f, source, name) then f.(records := f.records + [record]) else f
  }

  function WrittenAt(files: seq<File>, source: nat, name: nat, record: Record): (r: seq<File>)
    ensures |r| == |files| && forall i :: 0 <= i < |r| ==> r[i] == WrittenFile(files[i], source, name, record)
  {
    seq(|files|, i requires 0 <= i < |files| => WrittenFile(files[i], source, name, record))
  }

  function Recorded(s: Store, source: nat, record: Record): Store
    requires source in s.writers
  {
    var w := s.writers[source];
    Store(WrittenAt(s.files, source, w.name, record),
          s.writers[source := SourceWriter(w.name, w.bytesWritten + |EncodeRecord(record)|)],
          s.total)
  }

  /** The record goes to the source's file, opened on first use. */
  function Appended(s: Store, source: nat, record: Record, name: nat): (t: Store)
    ensures source in t.writers
  {
    Recorded(if source in s.writers then s else Opened(s, source, name), source, record)
  }

  /** The store when a write comes to its eviction loop. */
  function Filled(s: Store, maxFile: nat, source: nat, record: Record, size: nat, names: (nat, nat)): Store {
    var t := Appended(s, source, record, names.0);
    if t.writers[source].bytesWritten >= maxFile then Rotated(t, source, size, names.1) else t
  }

  function Written(s: Store, budget: nat, maxFile: nat, source: nat, record: Record, size: nat,
      names: (nat, nat)): Store {
    EvictAll(Filled(s, maxFile, source, record, size, names), budget)
  }

  predicate Finalizes(s: Store, source: nat) {
    source in s.writers && s.writers[source].bytesWritten > 0
  }

  function Finalized(s: Store, source: nat, size: nat, name: nat): Store {
    if Finalizes(s, source) then Rotated(s, source, size, name) else s
  }

  predicate HasOverflow(s: Store, source: nat) {
    exists i :: 0 <= i < |s.files| && Free(s.writers, Some(source), s.files[i])
  }

  /** Every writer in `order` abandoned, one after another. */
  function Abandoned(s: Store, order: seq<nat>, sizes: nat -> nat, cuts: nat -> Option<nat>): Store {
    if order == [] then s
    else
      var n := |order| - 1;
      Closed(Abandoned(s, order[..n], sizes, cuts), order[n], sizes(order[n]), cuts(order[n]))
  }

  /** A new process: what the writers left is on disk with whatever size and readable part, and is counted. */
  function Reopened(s: Store, order: seq<nat>, sizes: nat -> nat, cuts: nat -> Option<nat>): Store {
    var files := Abandoned(s, order, sizes, cuts).files;
    Store(files, map[], FreeSize(files, map[]))
  }

  // ----------------------------------------------------------- what every operation keeps

  ghost predicate Consistent(s: Store) {
    Sound(s) && Exact(s)
  }

  lemma {:induction false} ClosedSize(files: seq<File>, writers: map<nat, SourceWriter>, source: nat, size: nat,
      cut: Option<nat>)
    requires source in writers && Distinct(files)
    ensures
      var closed := ClosedAt(files, source, writers[source].name, size, cut);
      FreeSize(closed, writers - {source}) == FreeSize(files, writers)
        + if Listed(files, source, writers[source].name) then size else 0
  {
    var name := writers[source].name;
    if files != [] {
      var n := |files| - 1;
      var closed := ClosedAt(files, source, name, size, cut);
      ClosedSize(files[..n], writers, source, size, cut);
      assert closed[..n] == ClosedAt(files[..n], source, name, size, cut);
      assert IsCurrent(writers - {source}, closed[n]) <==>
        IsCurrent(writers, files[n]) && !HasPath(files[n], source, name);
      if HasPath(files[n], source, name) {
        assert !Listed(files[..n], source, name);
      } else {
        assert Listed(files, source, name) ==> Listed(files[..n], source, name);
        assert Listed(files[..n], source, name) ==> Listed(files, source, name);
      }
    }
  }

  lemma {:induction false} ClosedPaths(files: seq<File>, source: nat, name: nat, size: nat, cut: Option<nat>)
    ensures forall x, y :: Listed(ClosedAt(files, source, name, size, cut), x, y) <==> Listed(files, x, y)
    ensures Distinct(files) ==> Distinct(ClosedAt(files, source, name, size, cut))
  {
    var closed := ClosedAt(files, source, name, size, cut);
    forall x, y | Listed(files, x, y)
      ensures Listed(closed, x, y)
    {
      var i :| 0 <= i < |files| && HasPath(files[i], x, y);
      assert HasPath(closed[i], x, y);
    }
    forall x, y | Listed(closed, x, y)
      ensures Listed(files, x, y)
    {
      var i :| 0 <= i < |closed| && HasPath(closed[i], x, y);
      assert HasPath(files[i], x, y);
    }
  }

  lemma {:induction false} CloseKeeps(s: Store, source: nat, size: nat, cut: Option<nat>)
    requires Consistent(s)
    ensures Consistent(Closed(s, source, size, cut))
    ensures forall x, y :: Fresh(Closed(s, source, size, cut), x, y) <==> Fresh(s, x, y)
  {
    if source in s.writers {
      ClosedSize(s.files, s.writers, source, size, cut);
      ClosedPaths(s.files, source, s.writers[source].name, size, cut);
      hide Listed, Distinct;
    }
  }

  lemma {:induction false} NewFileCountsNothing(files: seq<File>, writers: map<nat, SourceWriter>, source: nat,
      name: nat, bytes: nat)
    requires source !in writers && !Listed(files, source, name)
    ensures FreeSize(files, writers[source := SourceWriter(name, bytes)]) == FreeSize(files, writers)
  {
    if files != [] {
      var n := |files| - 1;
      assert forall i :: 0 <= i < n ==> files[..n][i] == files[i];
      NewFileCountsNothing(files[..n], writers, source, name, bytes);
      assert !HasPath(files[n], source, name);
    }
  }

  lemma {:induction false} OpenKeeps(s: Store, source: nat, name: nat)
    requires Consistent(s) && source !in s.writers && Fresh(s, source, name)
    ensures Consistent(Opened(s, source, name))
    ensures forall x: nat, y: nat :: Fresh(s, x, y) && (x, y) != (source, name) ==> Fresh(Opened(s, source, name), x, y)
  {
    var f := File(source, name, 0, []);
    var t := Opened(s, source, name);
    NewFileCountsNothing(s.files, s.writers, source, name, 0);
    assert t.files[..|t.files| - 1] == s.files;
    assert t.files[|s.files|] == f && HasPath(f, source, name);
    forall x | x in t.writers
      ensures Listed(t.files, x, t.writers[x].name)
    {
      if x != source {
        var i :| 0 <= i < |s.files| && HasPath(s.files[i], x, s.writers[x].name);
        assert t.files[i] == s.files[i];
      }
    }
    hide FreeSize;
  }

  lemma {:induction false} RotateKeeps(s: Store, source: nat, size: nat, name: nat)
    requires Consistent(s) && Fresh(s, source, name)
    ensures Consistent(Rotated(s, source, size, name))
  {
    hide Consistent, Fresh;
    if source in s.writers {
      CloseKeeps(s, source, size, None);
      OpenKeeps(Closed(s, source, size, None), source, name);
    }
  }

  lemma {:induction false} WrittenSize(files: seq<File>, writers: map<nat, SourceWriter>, source: nat, record: Record,
      bytes: nat)
    requires source in writers
    ensures
      var name := writers[source].name;
      FreeSize(WrittenAt(files, source, name, record), writers[source := SourceWriter(name, bytes)])
        == FreeSize(files, writers)
  {
    if files != [] {
      var n := |files| - 1;
      var name := writers[source].name;
      WrittenSize(files[..n], writers, source, record, bytes);
      assert WrittenAt(files, source, name, record)[..n] == WrittenAt(files[..n], source, name, record);
    }
  }

  lemma {:induction false} WrittenPaths(files: seq<File>, source: nat, name: nat, record: Record)
    ensures forall x, y :: Listed(WrittenAt(files, source, name, record), x, y) <==> Listed(files, x, y)
    ensures Distinct(files) ==> Distinct(WrittenAt(files, source, name, record))
  {
    var written := WrittenAt(files, source, name, record);
    forall x, y | Listed(files, x, y)
      ensures Listed(written, x, y)
    {
      var i :| 0 <= i < |files| && HasPath(files[i], x, y);
      assert HasPath(written[i], x, y);
    }
    forall x, y | Listed(written, x, y)
      ensures Listed(files, x, y)
    {
      var i :| 0 <= i < |written| && HasPath(written[i], x, y);
      assert HasPath(files[i], x, y);
    }
  }

  /** A name can be taken for the source's file when it has to be opened. */
  ghost predicate CanOpen(s: Store, source: nat, name: nat) {
    source !in s.writers ==> Fresh(s, source, name)
  }

  lemma {:induction false} RecordKeeps(s: Store, source: nat, record: Record)
    requires Consistent(s) && source in s.writers
    ensures Consistent(Recorded(s, source, record))
    ensures forall x, y :: Fresh(Recorded(s, source, record), x, y) <==> Fresh(s, x, y)
  {
    hide Listed, Distinct, EncodeRecord, FreeSize, WrittenAt;
    var w := s.writers[source];
    WrittenSize(s.files, s.writers, source, record, w.bytesWritten + |EncodeRecord(record)|);
    WrittenPaths(s.files, source, w.name, record);
  }

  lemma {:induction false} AppendKeeps(s: Store, source: nat, record: Record, name: nat)
    requires Consistent(s) && CanOpen(s, source, name)
    ensures Consistent(Appended(s, source, record, name))
    ensures forall y: nat :: Fresh(s, source, y) && (source in s.writers || y != name) ==>
      Fresh(Appended(s, source, record, name), source, y)
  {
    hide Consistent, Fresh, Recorded;
    if source in s.writers {
      RecordKeeps(s, source, record);
    } else {
      OpenKeeps(s, source, name);
      RecordKeeps(Opened(s, source, name), source, record);
    }
  }

  lemma {:induction false} EvictKeeps(s: Store, budget: nat)
    requires Consistent(s)
    ensures Consistent(EvictAll(s, budget))
  {
    EvictionIsExact(s, budget);
    KeptStaysDistinct(s.files, s.writers, budget);
    var t := EvictAll(s, budget);
    forall x | x in t.writers
      ensures Listed(t.files, x, t.writers[x].name)
    {
      var i :| 0 <= i < |s.files| && HasPath(s.files[i], x, s.writers[x].name);
      assert IsCurrent(s.writers, s.files[i]) && s.files[i] in t.files;
    }
    hide EvictAll, FreeSize;
  }

  ghost predicate NamesWork(s: Store, source: nat, names: (nat, nat)) {
    CanOpen(s, source, names.0) && Fresh(s, source, names.1) && names.0 != names.1
  }

  lemma {:induction false} FillKeeps(s: Store, maxFile: nat, source: nat, record: Record, size: nat, names: (nat, nat))
    requires Consistent(s) && NamesWork(s, source, names)
    ensures Consistent(Filled(s, maxFile, source, record, size, names))
  {
    AppendKeeps(s, source, record, names.0);
    hide Consistent, Fresh, Appended, Rotated;
    var t := Appended(s, source, record, names.0);
    RotateKeeps(t, source, size, names.1);
  }

  // ---------------------------------------------------------------------------- replay

  /** Files a replay reads and removes, oldest first, until it has a batch or there are none left. */
  datatype Reading = Reading(left: seq<File>, records: seq<Record>, total: nat)

  function ReadOne(r: Reading, i: nat): Reading
    requires i < |r.left|
  {
    Reading(RemovedAt(r.left, i), r.records + r.left[i].records, Less(r.total, r.left[i].size))
  }

  function ReadOn(r: Reading, writers: map<nat, SourceWriter>, source: nat, batch: nat): Reading
    decreases |r.left|
  {
    var i := OldestFree(r.left, writers, Some(source));
    if i == |r.left| then r
    else
      var next := ReadOne(r, i);
      if |next.records| >= batch then next else ReadOn(next, writers, source, batch)
  }

  /** Everything the removed files held. */
  function ReplayOf(s: Store, source: nat, batch: nat): Reading {
    ReadOn(Reading(s.files, [], s.total), s.writers, source, batch)
  }

  function Cut(records: seq<Record>, batch: nat): seq<Record> {
    records[..Min(batch, |records|)]
  }

  function Replayed(s: Store, source: nat, batch: nat, size: nat, name: nat): Store {
    var t := Finalized(s, source, size, name);
    var r := ReplayOf(t, source, batch);
    Store(r.left, t.writers, r.total)
  }

  function Returned(s: Store, source: nat, batch: nat, size: nat, name: nat): seq<Record> {
    Cut(ReplayOf(Finalized(s, source, size, name), source, batch).records, batch)
  }

  lemma {:induction false} ReadingIsExact(r: Reading, writers: map<nat, SourceWriter>, source: nat, batch: nat)
    requires r.total == FreeSize(r.left, writers) && Distinct(r.left)
    ensures
      var t := ReadOn(r, writers, source, batch);
      && t.total == FreeSize(t.left, writers) && Distinct(t.left)
      && forall f :: f in r.left && IsCurrent(writers, f) ==> f in t.left
    decreases |r.left|
  {
    var i := OldestFree(r.left, writers, Some(source));
    if i < |r.left| {
      FreeSizeRemoved(r.left, writers, i);
      RemovedStaysDistinct(r.left, i);
      if |ReadOne(r, i).records| < batch {
        ReadingIsExact(ReadOne(r, i), writers, source, batch);
      }
    }
  }

  lemma {:induction false} ReplayKeeps(s: Store, source: nat, batch: nat, size: nat, name: nat)
    requires Consistent(s) && Fresh(s, source, name)
    ensures Consistent(Replayed(s, source, batch, size, name))
  {
    RotateKeeps(s, source, size, name);
    var t := Finalized(s, source, size, name);
    ReadingIsExact(Reading(t.files, [], t.total), t.writers, source, batch);
    hide Finalized, ReadOn, Distinct;
    var r := Replayed(s, source, batch, size, name);
    forall x | x in r.writers
      ensures Listed(r.files, x, r.writers[x].name)
    {
      var i :| 0 <= i < |t.files| && HasPath(t.files[i], x, t.writers[x].name);
      assert IsCurrent(t.writers, t.files[i]) && t.files[i] in r.files;
    }
  }

  /** The source's finished files, oldest-named first. */
  function ReplayOrder(files: seq<File>, writers: map<nat, SourceWriter>, source: nat): seq<File>
    decreases |files|
  {
    var i := OldestFree(files, writers, Some(source));
    if i == |files| then [] else [files[i]] + ReplayOrder(RemovedAt(files, i), writers, source)
  }

  ghost predicate ByName(files: seq<File>) {
    forall i, j :: 0 <= i < j < |files| ==> files[i].name < files[j].name
  }

  /** The oldest file in front of the others in order. */
  lemma {:induction false} OldestInFront(files: seq<File>, free: File -> bool, i: nat, o: seq<File>)
    requires Distinct(files) && i < |files| && free(files[i]) && ByName(o)
    requires forall j :: 0 <= j < |files| && free(files[j]) ==>
      files[j].source == files[i].source && files[i].name <= files[j].name
    requires forall f :: f in o <==> f in files && f != files[i] && free(f)
    ensures ByName([files[i]] + o) && forall f :: f in [files[i]] + o <==> f in files && free(f)
  {
    forall j | 0 <= j < |o|
      ensures files[i].name < o[j].name
    {
      assert o[j] in files && o[j] in o;
      var k :| 0 <= k < |files| && files[k] == o[j];
    }
  }

  lemma {:induction false} OrderIs(files: seq<File>, writers: map<nat, SourceWriter>, source: nat)
    requires Distinct(files)
    ensures ByName(ReplayOrder(files, writers, source))
    ensures forall f :: f in ReplayOrder(files, writers, source) <==> f in files && Free(writers, Some(source), f)
    decreases |files|
  {
    var i := OldestFree(files, writers, Some(source));
    if i < |files| {
      var rest := RemovedAt(files, i);
      RemovedStaysDistinct(files, i);
      OrderIs(rest, writers, source);
      var o := ReplayOrder(rest, writers, source);
      assert ReplayOrder(files, writers, source) == [files[i]] + o;
      hide ReplayOrder, OldestFree, RemovedAt, Distinct, ByName, IsCurrent;
      OldestInFront(files, f => Free(writers, Some(source), f), i, o);
    }
  }

  function Flat(files: seq<File>): seq<Record> {
    if files == [] then [] else files[0].records + Flat(files[1..])
  }

  /** How many files are read when `c` records are in hand already. */
  function Upto(c: nat, order: seq<File>, batch: nat): (k: nat)
    ensures k <= |order| && (order != [] ==> k >= 1)
    decreases |order|
  {
    if order == [] then 0
    else
      var m := c + |order[0].records|;
      if m >= batch then 1 else 1 + Upto(m, order[1..], batch)
  }

  lemma {:induction false} FlatOne(order: seq<File>, k: nat)
    requires 1 <= k <= |order|
    ensures Flat(order[..k]) == order[0].records + Flat(order[1..][..k - 1])
  {
    assert order[..k][1..] == order[1..][..k - 1];
  }

  lemma {:induction false} FlatUpto(got: seq<Record>, order: seq<File>, batch: nat)
    requires order != []
    ensures
      var next := got + order[0].records;
      got + Flat(order[..Upto(|got|, order, batch)])
      == if |next| >= batch then next else next + Flat(order[1..][..Upto(|next|, order[1..], batch)])
  {
    var next := got + order[0].records;
    FlatOne(order, Upto(|got|, order, batch));
    if |next| >= batch {
      assert order[1..][..0] == [];
    } else {
      var tail := Flat(order[1..][..Upto(|next|, order[1..], batch)]);
      assert got + (order[0].records + tail) == next + tail;
    }
  }

  lemma {:induction false} ReadsInOrder(r: Reading, writers: map<nat, SourceWriter>, source: nat, batch: nat)
    ensures
      var order := ReplayOrder(r.left, writers, source);
      ReadOn(r, writers, source, batch).records == r.records + Flat(order[..Upto(|r.records|, order, batch)])
    decreases |r.left|
  {
    var order := ReplayOrder(r.left, writers, source);
    var i := OldestFree(r.left, writers, Some(source));
    if i == |r.left| {
      assert order[..Upto(|r.records|, order, batch)] == [];
    } else {
      var next := ReadOne(r, i);
      assert order[1..] == ReplayOrder(next.left, writers, source) && order[0] == r.left[i];
      FlatUpto(r.records, order, batch);
      if |next.records| < batch {
        ReadsInOrder(next, writers, source, batch);
      }
      hide ReplayOrder, OldestFree, Upto, Flat, RemovedAt;
    }
  }

  lemma {:induction false} FlatGrows(order: seq<File>, m: nat, n: nat)
    requires m <= n <= |order|
    ensures Flat(order[..m]) <= Flat(order[..n])
  {
    if m == 0 {
      assert order[..0] == [];
    } else {
      FlatOne(order, m);
      FlatOne(order, n);
      FlatGrows(order[1..], m - 1, n - 1);
    }
  }

  lemma {:induction false} UptoIsFirst(c: nat, order: seq<File>, batch: nat)
    ensures
      var k := Upto(c, order, batch);
      && (k < |order| ==> c + |Flat(order[..k])| >= batch)
      && forall m :: 1 <= m < k ==> c + |Flat(order[..m])| < batch
    decreases |order|
  {
    if order != [] {
      var k := Upto(c, order, batch);
      var m1 := c + |order[0].records|;
      FlatOne(order, k);
      assert order[1..][..0] == [];
      if m1 < batch {
        UptoIsFirst(m1, order[1..], batch);
        forall m | 1 <= m < k
          ensures c + |Flat(order[..m])| < batch
        {
          FlatOne(order, m);
        }
      }
    }
  }

  // ----------------------------------------- what a replay returns, from the store before it

  /** The replay will read the file: it is finished, or being written to and not empty. */
  ghost predicate Due(s: Store, source: nat, f: File) {
    f.source == source && (IsCurrent(s.writers, f) ==> s.writers[source].bytesWritten > 0)
  }

  /** The source's due files, oldest name first. */
  ghost predicate InNameOrder(s: Store, source: nat, due: seq<File>) {
    ByName(due) && forall f :: f in due <==> f in s.files && Due(s, source, f)
  }

  /** Every store has its due files in order. */
  lemma {:induction false} DueInOrder(s: Store, source: nat) returns (due: seq<File>)
    requires Sound(s)
    ensures InNameOrder(s, source, due)
  {
    var writers := if Finalizes(s, source) then s.writers - {source} else s.writers;
    due := ReplayOrder(s.files, writers, source);
    OrderIs(s.files, writers, source);
    hide ReplayOrder, Distinct;
  }

  ghost predicate Alike(f: File, g: File) {
    f.name == g.name && f.records == g.records
  }

  ghost predicate EachIn(a: seq<File>, b: seq<File>) {
    (a != [] ==> b != []) && forall i :: 0 <= i < |a| ==> exists j :: 0 <= j < |b| && Alike(a[i], b[j])
  }

  lemma {:induction false} TailsAlike(a: seq<File>, b: seq<File>)
    requires a != [] && b != [] && ByName(a) && ByName(b) && EachIn(a, b) && Alike(a[0], b[0])
    ensures EachIn(a[1..], b[1..])
  {
    var x, y := a[1..], b[1..];
    forall i | 0 <= i < |x|
      ensures y != [] && exists j :: 0 <= j < |y| && Alike(x[i], y[j])
    {
      var j :| 0 <= j < |b| && Alike(a[i + 1], b[j]);
      assert j != 0;
      assert Alike(x[i], y[j - 1]);
    }
    if x != [] {
      assert exists j :: 0 <= j < |y| && Alike(x[0], y[j]);
    }
  }

  lemma {:induction false} Partner(a: seq<File>, b: seq<File>, i: nat) returns (j: nat)
    requires EachIn(a, b) && i < |a|
    ensures j < |b| && Alike(a[i], b[j])
  {
    j :| 0 <= j < |b| && Alike(a[i], b[j]);
  }

  lemma {:induction false} NoneWithout(a: seq<File>, b: seq<File>)
    requires EachIn(a, b)
    ensures a != [] ==> b != []
  {
  }

  lemma {:induction false} AlikeIsMutual(f: File, g: File)
    ensures Alike(f, g) <==> Alike(g, f)
  {
  }

  lemma {:induction false} FirstsAlike(a: seq<File>, b: seq<File>)
    requires a != [] && b != [] && ByName(a) && ByName(b) && EachIn(a, b) && EachIn(b, a)
    ensures Alike(a[0], b[0])
  {
    hide EachIn;
    var j := Partner(a, b, 0);
    var i := Partner(b, a, 0);
  }

  /** Two orders by name of the same names and records are one. */
  lemma {:induction false} OneOrder(a: seq<File>, b: seq<File>)
    requires ByName(a) && ByName(b) && EachIn(a, b) && EachIn(b, a)
    ensures |a| == |b| && forall i :: 0 <= i < |a| ==> Alike(a[i], b[i])
  {
    hide Alike, EachIn;
    NoneWithout(a, b);
    NoneWithout(b, a);
    if a != [] {
      FirstsAlike(a, b);
      AlikeIsMutual(a[0], b[0]);
      TailsAlike(a, b);
      TailsAlike(b, a);
      OneOrder(a[1..], b[1..]);
      forall k | 0 <= k < |a|
        ensures Alike(a[k], b[k])
      {
        if k > 0 {
          assert Alike(a[1..][k - 1], b[1..][k - 1]);
        }
      }
    }
  }

  lemma {:induction false} FlatAlike(a: seq<File>, b: seq<File>)
    requires |a| == |b| && forall i :: 0 <= i < |a| ==> Alike(a[i], b[i])
    ensures Flat(a) == Flat(b)
  {
    if a != [] {
      FlatAlike(a[1..], b[1..]);
    }
  }

  ghost predicate SameFiles(s: Store, source: nat, t: Store) {
    && (forall f :: f in s.files && Due(s, source, f) ==>
      exists g :: g in t.files && Free(t.writers, Some(source), g) && Alike(f, g))
    && (forall g :: g in t.files && Free(t.writers, Some(source), g) ==>
      exists f :: f in s.files && Due(s, source, f) && Alike(g, f))
  }

  /** Finalizing makes finished exactly the due files, under the same names and with the same records. */
  lemma {:induction false} FinalizedAreDue(s: Store, source: nat, size: nat, name: nat)
    requires Fresh(s, source, name)
    ensures SameFiles(s, source, Finalized(s, source, size, name))
  {
    var t := Finalized(s, source, size, name);
    if Finalizes(s, source) {
      var path := s.writers[source].name;
      var closed := ClosedAt(s.files, source, path, size, None);
      assert t.files == closed + [File(source, name, 0, [])];
      forall f | f in s.files && Due(s, source, f)
        ensures exists g :: g in t.files && Free(t.writers, Some(source), g) && Alike(f, g)
      {
        var i :| 0 <= i < |s.files| && s.files[i] == f;
        assert t.files[i] == ClosedFile(f, source, path, size, None);
        assert !HasPath(s.files[i], source, name);
        assert Free(t.writers, Some(source), t.files[i]) && Alike(f, t.files[i]);
      }
      forall g | g in t.files && Free(t.writers, Some(source), g)
        ensures exists f :: f in s.files && Due(s, source, f) && Alike(g, f)
      {
        var i :| 0 <= i < |t.files| && t.files[i] == g;
        assert i < |s.files|;
        assert g == ClosedFile(s.files[i], source, path, size, None);
        assert s.files[i] in s.files && Due(s, source, s.files[i]) && Alike(g, s.files[i]);
      }
    } else {
      forall f | f in s.files && Due(s, source, f)
        ensures exists g :: g in t.files && Free(t.writers, Some(source), g) && Alike(f, g)
      {
        assert Alike(f, f);
      }
      forall g | g in t.files && Free(t.writers, Some(source), g)
        ensures exists f :: f in s.files && Due(s, source, f) && Alike(g, f)
      {
        assert Alike(g, g) && Due(s, source, g);
      }
    }
  }

  lemma {:induction false} IndexedAlike(a: seq<File>, b: seq<File>)
    requires forall f :: f in a ==> exists g :: g in b && Alike(f, g)
    ensures EachIn(a, b)
  {
    hide Alike;
    forall i | 0 <= i < |a|
      ensures b != [] && exists j :: 0 <= j < |b| && Alike(a[i], b[j])
    {
      assert a[i] in a;
      var g :| g in b && Alike(a[i], g);
      var j :| 0 <= j < |b| && b[j] == g;
    }
    if a != [] {
      assert exists j :: 0 <= j < |b| && Alike(a[0], b[j]);
    }
  }

  lemma {:induction false} OrderAfterFinalize(s: Store, source: nat, size: nat, name: nat, due: seq<File>)
    requires Consistent(s) && Fresh(s, source, name) && InNameOrder(s, source, due)
    ensures
      var t := Finalized(s, source, size, name);
      var order := ReplayOrder(t.files, t.writers, source);
      |order| == |due| && forall i :: 0 <= i < |due| ==> Alike(order[i], due[i])
  {
    FinalizedAreDue(s, source, size, name);
    RotateKeeps(s, source, size, name);
    var t := Finalized(s, source, size, name);
    assert Distinct(t.files);
    OrderIs(t.files, t.writers, source);
    var order := ReplayOrder(t.files, t.writers, source);
    hide Finalized, ReplayOrder, Due, Free, Alike, Distinct, ByName, Consistent, Fresh, EachIn;
    IndexedAlike(order, due);
    IndexedAlike(due, order);
    OneOrder(order, due);
  }

  /** A replay reads the first `Upto` of the due files. */
  lemma {:induction false} ReplayReads(s: Store, source: nat, batch: nat, size: nat, name: nat, due: seq<File>)
    requires Consistent(s) && Fresh(s, source, name) && InNameOrder(s, source, due)
    ensures ReplayOf(Finalized(s, source, size, name), source, batch).records == Flat(due[..Upto(0, due, batch)])
  {
    var t := Finalized(s, source, size, name);
    var order := ReplayOrder(t.files, t.writers, source);
    OrderAfterFinalize(s, source, size, name, due);
    ReadsInOrder(Reading(t.files, [], t.total), t.writers, source, batch);
    hide Finalized, ReplayOrder, ReadOn, Consistent, InNameOrder, Fresh;
    UptoAlike(0, order, due, batch);
    FlatAlike(order[..Upto(0, order, batch)], due[..Upto(0, due, batch)]);
  }

  lemma {:induction false} UptoAlike(c: nat, a: seq<File>, b: seq<File>, batch: nat)
    requires |a| == |b| && forall i :: 0 <= i < |a| ==> Alike(a[i], b[i])
    ensures Upto(c, a, batch) == Upto(c, b, batch)
    decreases |a|
  {
    if a != [] {
      assert Alike(a[0], b[0]);
      UptoAlike(c + |a[0].records|, a[1..], b[1..], batch);
    }
  }

  lemma {:induction false} CutOfPrefix(p: seq<Record>, q: seq<Record>, batch: nat)
    requires p <= q && (p == q || |p| >= batch)
    ensures Cut(p, batch) == Cut(q, batch)
  {
    assert p == q[..|p|];
  }

  /** A replay returns the oldest records the source has on disk, as many as a batch holds. */
  lemma {:induction false} ReplayReturnsTheOldest(s: Store, source: nat, batch: nat, size: nat, name: nat,
      due: seq<File>)
    requires Consistent(s) && Fresh(s, source, name) && InNameOrder(s, source, due)
    ensures Returned(s, source, batch, size, name) == Cut(Flat(due), batch)
  {
    var k := Upto(0, due, batch);
    UptoIsFirst(0, due, batch);
    FlatGrows(due, k, |due|);
    assert due[..|due|] == due;
    ReplayReads(s, source, batch, size, name, due);
    hide *;
    assert Flat(due[..k]) <= Flat(due) && (k < |due| ==> |Flat(due[..k])| >= batch);
    CutOfPrefix(Flat(due[..k]), Flat(due), batch);
    ReturnedIs(s, source, batch, size, name);
  }

  lemma {:induction false} ReturnedIs(s: Store, source: nat, batch: nat, size: nat, name: nat)
    ensures Returned(s, source, batch, size, name)
      == Cut(ReplayOf(Finalized(s, source, size, name), source, batch).records, batch)
  {
  }

  /** The first files to hold a batch hold no more than a batch. */
  ghost predicate FitsExactly(due: seq<File>, batch: nat) {
    forall n :: 1 <= n <= |due| && |Flat(due[..n])| >= batch && (n == 1 || |Flat(due[..n - 1])| < batch) ==>
      |Flat(due[..n])| == batch
  }

  lemma {:induction false} FitsWhenRead(due: seq<File>, batch: nat)
    ensures |Flat(due[..Upto(0, due, batch)])| <= batch <==> FitsExactly(due, batch)
  {
    var k := Upto(0, due, batch);
    UptoIsFirst(0, due, batch);
    assert due == [] ==> due[..k] == [];
    if |Flat(due[..k])| <= batch {
      forall n | 1 <= n <= |due| && |Flat(due[..n])| >= batch && (n == 1 || |Flat(due[..n - 1])| < batch)
        ensures |Flat(due[..n])| == batch
      {
        assert n >= k;
        if n > k {
          FlatGrows(due, k, n - 1);
        }
      }
    } else if due != [] {
      if k > 1 {
        assert |Flat(due[..k - 1])| < batch;
      }
      assert |Flat(due[..k])| >= batch;
    }
  }

  /** What is on disk and what is returned are what was on disk. */
  ghost predicate Lossless(s: Store, source: nat, batch: nat, size: nat, name: nat) {
    Held(s.files) == Held(Replayed(s, source, batch, size, name).files)
      + multiset(Returned(s, source, batch, size, name))
  }

  lemma {:induction false} ReadingConserves(r: Reading, writers: map<nat, SourceWriter>, source: nat, batch: nat)
    ensures
      var t := ReadOn(r, writers, source, batch);
      Held(r.left) + multiset(r.records) == Held(t.left) + multiset(t.records)
    decreases |r.left|
  {
    var i := OldestFree(r.left, writers, Some(source));
    if i < |r.left| {
      HeldRemoved(r.left, i);
      var next := ReadOne(r, i);
      if |next.records| < batch {
        ReadingConserves(next, writers, source, batch);
      }
      hide Held, OldestFree;
    }
  }

  /** The unreadable part of the file at a path. */
  function Tail(files: seq<File>, source: nat, name: nat, cut: Option<nat>): multiset<Record> {
    if files == [] then multiset{}
    else
      var f := files[|files| - 1];
      Tail(files[..|files| - 1], source, name, cut)
      + if HasPath(f, source, name) then multiset(f.records[|CutTo(f.records, cut)|..]) else multiset{}
  }

  lemma {:induction false} ClosedFileConserves(f: File, source: nat, name: nat, size: nat, cut: Option<nat>)
    ensures
      multiset(f.records)
      == multiset(ClosedFile(f, source, name, size, cut).records)
         + if HasPath(f, source, name) then multiset(f.records[|CutTo(f.records, cut)|..]) else multiset{}
  {
    assert f.records == CutTo(f.records, cut) + f.records[|CutTo(f.records, cut)|..];
  }

  lemma {:induction false} AddPairs(a: multiset<Record>, b: multiset<Record>, c: multiset<Record>, d: multiset<Record>,
      t: multiset<Record>, u: multiset<Record>)
    requires a == c + t && b == d + u
    ensures a + b == (c + d) + (t + u)
  {
    forall r
      ensures (a + b)[r] == ((c + d) + (t + u))[r]
    {
      assert a[r] == (c + t)[r] && b[r] == (d + u)[r];
    }
  }

  lemma {:induction false} ClosedConserves(files: seq<File>, source: nat, name: nat, size: nat, cut: Option<nat>)
    ensures Held(files) == Held(ClosedAt(files, source, name, size, cut)) + Tail(files, source, name, cut)
  {
    if files != [] {
      var n := |files| - 1;
      var f := files[n];
      var closed := ClosedAt(files, source, name, size, cut);
      ClosedConserves(files[..n], source, name, size, cut);
      assert closed[..n] == ClosedAt(files[..n], source, name, size, cut);
      ClosedFileConserves(f, source, name, size, cut);
      hide ClosedFile, HasPath;
      AddPairs(Held(files[..n]), multiset(f.records), Held(closed[..n]), multiset(closed[n].records),
        Tail(files[..n], source, name, cut),
               if HasPath(f, source, name) then multiset(f.records[|CutTo(f.records, cut)|..]) else multiset{});
    }
  }

  lemma {:induction false} NoTail(files: seq<File>, source: nat, name: nat)
    ensures Tail(files, source, name, None) == multiset{}
  {
    if files != [] {
      NoTail(files[..|files| - 1], source, name);
    }
  }

  lemma {:induction false} RotateConserves(s: Store, source: nat, size: nat, name: nat)
    ensures Held(Rotated(s, source, size, name).files) == Held(s.files)
  {
    if source in s.writers {
      ClosedConserves(s.files, source, s.writers[source].name, size, None);
      NoTail(s.files, source, s.writers[source].name);
      HeldAppend(Closed(s, source, size, None).files, [File(source, name, 0, [])]);
      HeldOne(File(source, name, 0, []));
      hide Held, ClosedAt;
    }
  }

  lemma {:induction false} CutConserves(all: seq<Record>, batch: nat)
    ensures multiset(all) == multiset(Cut(all, batch)) + multiset(all[|Cut(all, batch)|..])
  {
    assert all == Cut(all, batch) + all[|Cut(all, batch)|..];
  }

  lemma {:induction false} ReadConserves(t: Store, source: nat, batch: nat)
    ensures
      var r := ReplayOf(t, source, batch);
      Held(t.files) == Held(r.left) + multiset(Cut(r.records, batch)) + multiset(r.records[|Cut(r.records, batch)|..])
  {
    var r := ReplayOf(t, source, batch);
    ReadingConserves(Reading(t.files, [], t.total), t.writers, source, batch);
    assert Held(t.files) == Held(r.left) + multiset(r.records);
    CutConserves(r.records, batch);
    hide *;
  }

  /** What a replay removes is what it returns and what lies past its batch. */
  lemma {:induction false} ReplayConserves(s: Store, source: nat, batch: nat, size: nat, name: nat)
    ensures
      var all := ReplayOf(Finalized(s, source, size, name), source, batch).records;
      Held(s.files) == Held(Replayed(s, source, batch, size, name).files)
        + multiset(Returned(s, source, batch, size, name))
                       + multiset(all[|Cut(all, batch)|..])
  {
    RotateConserves(s, source, size, name);
    var t := Finalized(s, source, size, name);
    assert Held(t.files) == Held(s.files);
    ReadConserves(t, source, batch);
    hide Held, Finalized, ReplayOf, Cut;
  }

  /**
   A replay loses nothing if and only if the first of the source's files that together hold a batch
   hold exactly a batch, or all of them together hold less.
   */
  lemma {:induction false} ReplayIsLosslessExactlyWhen(s: Store, source: nat, batch: nat, size: nat, name: nat,
      due: seq<File>)
    requires Consistent(s) && Fresh(s, source, name) && InNameOrder(s, source, due)
    ensures Lossless(s, source, batch, size, name) <==> FitsExactly(due, batch)
  {
    var all := ReplayOf(Finalized(s, source, size, name), source, batch).records;
    ReplayReads(s, source, batch, size, name, due);
    FitsWhenRead(due, batch);
    ReplayConserves(s, source, batch, size, name);
    var lost := all[|Cut(all, batch)|..];
    assert |multiset(lost)| == |lost|;
    hide Held, Finalized, ReplayOf, FitsExactly, Upto, Flat;
  }

  // ------------------------------------------------------------------------- every run

  datatype Op =
    | WriteOp(source: nat, record: Record, size: nat, names: (nat, nat))
    | ReplayOp(source: nat, batch: nat, size: nat, name: nat)
    | ResetOp(order: seq<nat>, sizes: nat -> nat, cuts: nat -> Option<nat>)
    | ReopenOp(order: seq<nat>, sizes: nat -> nat, cuts: nat -> Option<nat>)

  /** File names are new, and a reset or reopen leaves no writer behind. */
  ghost predicate CanStep(s: Store, op: Op) {
    match op
    case WriteOp(source, _, _, names) => NamesWork(s, source, names)
    case ReplayOp(source, _, _, name) => Fresh(s, source, name)
    case ResetOp(order, _, _) => forall x :: x in s.writers ==> x in order
    case ReopenOp(order, _, _) => forall x :: x in s.writers ==> x in order
  }

  function Step(s: Store, budget: nat, maxFile: nat, op: Op): Store {
    match op
    case WriteOp(source, record, size, names) => Written(s, budget, maxFile, source, record, size, names)
    case ReplayOp(source, batch, size, name) => Replayed(s, source, batch, size, name)
    case ResetOp(order, sizes, cuts) => Abandoned(s, order, sizes, cuts)
    case ReopenOp(order, sizes, cuts) => Reopened(s, order, sizes, cuts)
  }

  ghost predicate IsRun(trace: seq<Store>, budget: nat, maxFile: nat, ops: seq<Op>) {
    && |trace| == |ops| + 1 && Consistent(trace[0])
    && forall i :: 0 <= i < |ops| ==>
      CanStep(trace[i], ops[i]) && trace[i + 1] == Step(trace[i], budget, maxFile, ops[i])
  }

  lemma {:induction false} AbandonKeeps(s: Store, order: seq<nat>, sizes: nat -> nat, cuts: nat -> Option<nat>)
    requires Consistent(s)
    ensures Consistent(Abandoned(s, order, sizes, cuts))
    ensures forall x :: x in Abandoned(s, order, sizes, cuts).writers <==> x in s.writers && x !in order
  {
    if order != [] {
      var n := |order| - 1;
      AbandonKeeps(s, order[..n], sizes, cuts);
      hide Consistent;
      CloseKeeps(Abandoned(s, order[..n], sizes, cuts), order[n], sizes(order[n]), cuts(order[n]));
      assert order == order[..n] + [order[n]];
    }
  }

  /** What a new process counts is what a reset in the old one would have counted. */
  lemma {:induction false} ReopenCountsAsReset(s: Store, order: seq<nat>, sizes: nat -> nat, cuts: nat -> Option<nat>)
    requires Consistent(s) && forall x :: x in s.writers ==> x in order
    ensures Reopened(s, order, sizes, cuts) == Abandoned(s, order, sizes, cuts)
  {
    AbandonKeeps(s, order, sizes, cuts);
    assert Abandoned(s, order, sizes, cuts).writers == map[];
    hide Abandoned, FreeSize;
  }

  lemma {:induction false} StepKeeps(s: Store, budget: nat, maxFile: nat, op: Op)
    requires Consistent(s) && CanStep(s, op)
    ensures Consistent(Step(s, budget, maxFile, op))
    ensures op.WriteOp? ==> Step(s, budget, maxFile, op).total <= budget
  {
    hide Filled, Replayed, Abandoned, Reopened, Sound, Exact, Fresh;
    match op
    case WriteOp(source, record, size, names) =>
      FillKeeps(s, maxFile, source, record, size, names);
      EvictKeeps(Filled(s, maxFile, source, record, size, names), budget);
      EvictionIsExact(Filled(s, maxFile, source, record, size, names), budget);
    case ReplayOp(source, batch, size, name) =>
      ReplayKeeps(s, source, batch, size, name);
    case ResetOp(order, sizes, cuts) =>
      AbandonKeeps(s, order, sizes, cuts);
    case ReopenOp(order, sizes, cuts) =>
      AbandonKeeps(s, order, sizes, cuts);
      ReopenCountsAsReset(s, order, sizes, cuts);
  }

  /**
   In every run of writes, replays, resets and restarts the running total is the size of the files
   no source is writing to, every writer's file is there, and each write leaves the total in budget.
   */
  lemma {:induction false} TotalIsExact(trace: seq<Store>, budget: nat, maxFile: nat, ops: seq<Op>, i: nat)
    requires IsRun(trace, budget, maxFile, ops) && i < |trace|
    ensures Consistent(trace[i])
    ensures i > 0 && ops[i - 1].WriteOp? ==> trace[i].total <= budget
  {
    if i > 0 {
      TotalIsExact(trace, budget, maxFile, ops, i - 1);
      assert CanStep(trace[i - 1], ops[i - 1]) && trace[i - 1 + 1] == Step(trace[i - 1], budget, maxFile, ops[i - 1]);
      hide Step, CanStep, Consistent;
      StepKeeps(trace[i - 1], budget, maxFile, ops[i - 1]);
    }
  }

  // ------------------------------------------------------------------- where records go

  function Wrote(op: Op): multiset<Record> {
    if op.WriteOp? then multiset{op.record} else multiset{}
  }

  function Gave(s: Store, op: Op): multiset<Record> {
    if op.ReplayOp? then multiset(Returned(s, op.source, op.batch, op.size, op.name)) else multiset{}
  }

  function Tails(s: Store, order: seq<nat>, sizes: nat -> nat, cuts: nat -> Option<nat>): multiset<Record> {
    if order == [] then multiset{}
    else
      var n := |order| - 1;
      var t := Abandoned(s, order[..n], sizes, cuts);
      Tails(s, order[..n], sizes, cuts)
      + if order[n] in t.writers then Tail(t.files, order[n], t.writers[order[n]].name, cuts(order[n])) else multiset{}
  }

  /** Evicted, past the end of a replay's batch, or in the unreadable tail of a file that was not closed. */
  function Lost(s: Store, budget: nat, maxFile: nat, op: Op): multiset<Record> {
    match op
    case WriteOp(source, record, size, names) =>
      var t := Filled(s, maxFile, source, record, size, names);
      Held(Evicted(t.files, t.writers, budget))
    case ReplayOp(source, batch, size, name) =>
      var all := ReplayOf(Finalized(s, source, size, name), source, batch).records;
      multiset(all[|Cut(all, batch)|..])
    case ResetOp(order, sizes, cuts) => Tails(s, order, sizes, cuts)
    case ReopenOp(order, sizes, cuts) => Tails(s, order, sizes, cuts)
  }

  lemma {:induction false} AbandonConserves(s: Store, order: seq<nat>, sizes: nat -> nat, cuts: nat -> Option<nat>)
    ensures Held(s.files) == Held(Abandoned(s, order, sizes, cuts).files) + Tails(s, order, sizes, cuts)
  {
    if order != [] {
      var n := |order| - 1;
      var t := Abandoned(s, order[..n], sizes, cuts);
      AbandonConserves(s, order[..n], sizes, cuts);
      if order[n] in t.writers {
        ClosedConserves(t.files, order[n], t.writers[order[n]].name, sizes(order[n]), cuts(order[n]));
      }
      hide Held, Tail, ClosedAt;
    }
  }

  lemma {:induction false} ListedLast(files: seq<File>, source: nat, name: nat)
    requires files != [] && Distinct(files)
    ensures
      var n := |files| - 1;
      && (Listed(files, source, name) <==> Listed(files[..n], source, name) || HasPath(files[n], source, name))
      && !(Listed(files[..n], source, name) && HasPath(files[n], source, name))
  {
    var n := |files| - 1;
    if Listed(files[..n], source, name) {
      var i :| 0 <= i < n && HasPath(files[..n][i], source, name);
      assert HasPath(files[i], source, name);
    }
    if Listed(files, source, name) {
      var i :| 0 <= i < |files| && HasPath(files[i], source, name);
      assert i < n ==> files[..n][i] == files[i];
    }
  }

  lemma {:induction false} WrittenHolds(files: seq<File>, source: nat, name: nat, record: Record)
    requires Distinct(files)
    ensures Held(WrittenAt(files, source, name, record))
      == Held(files) + if Listed(files, source, name) then multiset{record} else multiset{}
  {
    if files != [] {
      var n := |files| - 1;
      WrittenHolds(files[..n], source, name, record);
      assert WrittenAt(files, source, name, record)[..n] == WrittenAt(files[..n], source, name, record);
      ListedLast(files, source, name);
      hide Listed, Distinct;
    }
  }

  lemma {:induction false} AppendConserves(s: Store, source: nat, record: Record, name: nat)
    requires Consistent(s) && CanOpen(s, source, name)
    ensures Held(Appended(s, source, record, name).files) == Held(s.files) + multiset{record}
  {
    var t := if source in s.writers then s else Opened(s, source, name);
    if source !in s.writers {
      OpenKeeps(s, source, name);
      HeldAppend(s.files, [File(source, name, 0, [])]);
      HeldOne(File(source, name, 0, []));
    }
    assert Distinct(t.files) && Listed(t.files, source, t.writers[source].name);
    WrittenHolds(t.files, source, t.writers[source].name, record);
    hide Held, Distinct, Listed, WrittenAt, EncodeRecord;
  }

  lemma {:induction false} WriteConserves(s: Store, budget: nat, maxFile: nat, source: nat, record: Record, size: nat,
      names: (nat, nat))
    requires Consistent(s) && NamesWork(s, source, names)
    ensures
      var t := Filled(s, maxFile, source, record, size, names);
      Held(s.files) + multiset{record}
      == Held(Written(s, budget, maxFile, source, record, size, names).files)
        + Held(Evicted(t.files, t.writers, budget))
  {
    var t := Filled(s, maxFile, source, record, size, names);
    AppendConserves(s, source, record, names.0);
    RotateConserves(Appended(s, source, record, names.0), source, size, names.1);
    FillKeeps(s, maxFile, source, record, size, names);
    EvictionIsExact(t, budget);
    EvictionConserves(t.files, t.writers, budget);
    hide Held, Appended, Rotated, EvictAll, Kept, Evicted, Sound, FreeSize;
  }

  lemma {:induction false} StepConserves(s: Store, budget: nat, maxFile: nat, op: Op)
    requires Consistent(s) && CanStep(s, op)
    ensures Held(s.files) + Wrote(op) == Held(Step(s, budget, maxFile, op).files) + Gave(s, op)
      + Lost(s, budget, maxFile, op)
  {
    hide Held, Replayed, Returned, Written, Filled, Abandoned, Tails, Cut, ReplayOf, Finalized, Evicted, Consistent;
    match op
    case WriteOp(source, record, size, names) =>
      WriteConserves(s, budget, maxFile, source, record, size, names);
    case ReplayOp(source, batch, size, name) =>
      ReplayConserves(s, source, batch, size, name);
    case ResetOp(order, sizes, cuts) =>
      AbandonConserves(s, order, sizes, cuts);
    case ReopenOp(order, sizes, cuts) =>
      AbandonConserves(s, order, sizes, cuts);
  }

  function AllWrote(ops: seq<Op>, i: nat): multiset<Record>
    requires i <= |ops|
  {
    if i == 0 then multiset{} else AllWrote(ops, i - 1) + Wrote(ops[i - 1])
  }

  function AllGave(trace: seq<Store>, ops: seq<Op>, i: nat): multiset<Record>
    requires i <= |ops| < |trace|
  {
    if i == 0 then multiset{} else AllGave(trace, ops, i - 1) + Gave(trace[i - 1], ops[i - 1])
  }

  function AllLost(trace: seq<Store>, budget: nat, maxFile: nat, ops: seq<Op>, i: nat): multiset<Record>
    requires i <= |ops| < |trace|
  {
    if i == 0 then multiset{}
      else AllLost(trace, budget, maxFile, ops, i - 1) + Lost(trace[i - 1], budget, maxFile, ops[i - 1])
  }

  lemma {:induction false} Balanced(
    start: multiset<Record>, wrote: multiset<Record>, held: multiset<Record>, gave: multiset<Record>,
      lost: multiset<Record>,
    wrote': multiset<Record>, held': multiset<Record>, gave': multiset<Record>, lost': multiset<Record>)
    requires start + wrote == held + gave + lost && held + wrote' == held' + gave' + lost'
    ensures start + (wrote + wrote') == held' + (gave + gave') + (lost + lost')
  {
    forall r
      ensures (start + (wrote + wrote'))[r] == (held' + (gave + gave') + (lost + lost'))[r]
    {
      assert (start + wrote)[r] == (held + gave + lost)[r];
      assert (held + wrote')[r] == (held' + gave' + lost')[r];
    }
  }

  /**
   In every run each record written is on disk, was handed back by a replay once, or went by one of
   the three ways a record can be lost; no record comes from nowhere.
   */
  lemma {:induction false} RecordsAreConserved(trace: seq<Store>, budget: nat, maxFile: nat, ops: seq<Op>, i: nat)
    requires IsRun(trace, budget, maxFile, ops) && i < |trace|
    ensures Held(trace[0].files) + AllWrote(ops, i)
      == Held(trace[i].files) + AllGave(trace, ops, i) + AllLost(trace, budget, maxFile, ops, i)
  {
    if i > 0 {
      RecordsAreConserved(trace, budget, maxFile, ops, i - 1);
      TotalIsExact(trace, budget, maxFile, ops, i - 1);
      assert CanStep(trace[i - 1], ops[i - 1]) && trace[i - 1 + 1] == Step(trace[i - 1], budget, maxFile, ops[i - 1]);
      var s, op := trace[i - 1], ops[i - 1];
      hide Step, CanStep, Consistent, Held, Wrote, Gave, Lost, IsRun;
      StepConserves(s, budget, maxFile, op);
      Balanced(Held(trace[0].files), AllWrote(ops, i - 1), Held(s.files), AllGave(trace, ops, i - 1),
        AllLost(trace, budget, maxFile, ops, i - 1),
               Wrote(op), Held(trace[i].files), Gave(s, op), Lost(s, budget, maxFile, op));
    }
  }

  // --------------------------------------------------------------------------- the edges

  /** What the source writes, record by record, while its first file is not full. */
  ghost function OneFile(records: seq<Record>): Store {
    if records == [] then Store([], map[], 0)
    else Store([File(0, 0, 0, records)], map[0 := SourceWriter(0, |Stream(records)|)], 0)
  }

  ghost function NextWrite(records: seq<Record>, record: Record): Op {
    WriteOp(0, record, 0, if records == [] then (0, 1) else (1, 2))
  }

  lemma {:induction false} OneMoreRecord(budget: nat, maxFile: nat, records: seq<Record>, record: Record)
    requires |Stream(records + [record])| < maxFile
    ensures CanStep(OneFile(records), NextWrite(records, record))
    ensures Step(OneFile(records), budget, maxFile, NextWrite(records, record)) == OneFile(records + [record])
  {
    StreamSnoc(records, record);
    hide EncodeRecord, Stream;
    if records == [] {
      assert Opened(Store([], map[], 0), 0, 0).files == [File(0, 0, 0, [])];
      assert [] + [record] == [record];
    }
  }

  lemma {:induction false} StreamSnoc(records: seq<Record>, record: Record)
    ensures |Stream(records + [record])| == |Stream(records)| + |EncodeRecord(record)|
    ensures |Stream([])| == 0
  {
    hide EncodeRecord;
    if records == [] {
      assert records + [record] == [record] && [record][1..] == [];
    } else {
      assert (records + [record])[1..] == records[1..] + [record];
      StreamSnoc(records[1..], record);
    }
  }

  /** The records one after the other, all into the same file. */
  lemma {:induction false} WriteInTurn(budget: nat, maxFile: nat, records: seq<Record>)
    returns (trace: seq<Store>, ops: seq<Op>)
    requires |Stream(records)| < maxFile
    ensures IsRun(trace, budget, maxFile, ops) && trace[0] == OneFile([]) && trace[|ops|] == OneFile(records)
    ensures |ops| == |records| && forall i :: 0 <= i < |ops| ==> ops[i].WriteOp? && ops[i].record == records[i]
  {
    if records == [] {
      trace, ops := [OneFile([])], [];
    } else {
      var n := |records| - 1;
      assert records == records[..n] + [records[n]];
      StreamSnoc(records[..n], records[n]);
      hide Stream;
      trace, ops := WriteInTurn(budget, maxFile, records[..n]);
      OneMoreRecord(budget, maxFile, records[..n], records[n]);
      hide IsRun, CanStep, Step, OneFile;
      ExtendRun(trace, budget, maxFile, ops, NextWrite(records[..n], records[n]));
      RunLength(trace, budget, maxFile, ops);
      trace, ops := trace + [OneFile(records)], ops + [NextWrite(records[..n], records[n])];
    }
  }

  /** One record more than a batch, written together: the replay hands back a batch and loses the last. */
  lemma {:induction false} ReplayLosesARecord(budget: nat, maxFile: nat, batch: nat, records: seq<Record>)
    returns (trace: seq<Store>, ops: seq<Op>)
    requires |records| == batch + 1 && |Stream(records)| < maxFile
    ensures IsRun(trace, budget, maxFile, ops) && trace[0] == Store([], map[], 0) && |ops| == batch + 2
    ensures forall i :: 0 <= i <= batch ==> ops[i].WriteOp? && ops[i].record == records[i]
    ensures
      var last := ops[batch + 1];
      && last.ReplayOp? && last.batch == batch && Held(trace[batch + 2].files) == multiset{}
      && Returned(trace[batch + 1], last.source, batch, last.size, last.name) == records[..batch]
      && Lost(trace[batch + 1], budget, maxFile, last) == multiset{records[batch]}
  {
    FullReplays(budget, maxFile, batch, records);
    hide *;
    trace, ops := WriteInTurn(budget, maxFile, records);
    RunLength(trace, budget, maxFile, ops);
    var full, last := OneFile(records), ReplayOp(0, batch, 0, 1);
    ExtendRun(trace, budget, maxFile, ops, last);
    trace, ops := trace + [Step(full, budget, maxFile, last)], ops + [last];
  }

  lemma {:induction false} RunLength(trace: seq<Store>, budget: nat, maxFile: nat, ops: seq<Op>)
    requires IsRun(trace, budget, maxFile, ops)
    ensures |trace| == |ops| + 1
  {
  }

  lemma {:induction false} ExtendRun(trace: seq<Store>, budget: nat, maxFile: nat, ops: seq<Op>, op: Op)
    requires IsRun(trace, budget, maxFile, ops) && CanStep(trace[|ops|], op)
    ensures IsRun(trace + [Step(trace[|ops|], budget, maxFile, op)], budget, maxFile, ops + [op])
  {
    hide CanStep, Step, Consistent;
  }

  lemma {:induction false} FullReplays(budget: nat, maxFile: nat, batch: nat, records: seq<Record>)
    requires |records| == batch + 1
    ensures OneFile([]) == Store([], map[], 0)
    ensures
      var full, last := OneFile(records), ReplayOp(0, batch, 0, 1);
      && CanStep(full, last) && Held(Step(full, budget, maxFile, last).files) == multiset{}
      && Returned(full, 0, batch, 0, 1) == records[..batch]
      && Lost(full, budget, maxFile, last) == multiset{records[batch]}
  {
    hide Stream, Replayed, Returned, ReplayOf, Finalized, Held;
    SomeBytes(records);
    OneFileReplayed(OneFile(records), records, batch);
    assert records[batch..] == [records[batch]];
  }

  lemma {:induction false} SomeBytes(records: seq<Record>)
    requires records != []
    ensures |Stream(records)| > 0
  {
  }

  lemma {:induction false} OneFileReplayed(s: Store, records: seq<Record>, batch: nat)
    requires s.files == [File(0, 0, 0, records)] && 0 in s.writers && s.writers[0].name == 0
      && s.writers[0].bytesWritten > 0 && |records| == batch + 1
    ensures Returned(s, 0, batch, 0, 1) == records[..batch] && Held(Replayed(s, 0, batch, 0, 1).files) == multiset{}
    ensures ReplayOf(Finalized(s, 0, 0, 1), 0, batch).records == records
  {
    var t := Finalized(s, 0, 0, 1);
    assert t.files == [File(0, 0, 0, records), File(0, 1, 0, [])] && t.writers[0].name == 1;
    assert t.files[..1] == [t.files[0]] && [t.files[0]][..0] == [];
    assert OldestFree([t.files[0]], t.writers, Some(0)) == 0;
    assert OldestFree(t.files, t.writers, Some(0)) == 0;
    var r := ReadOne(Reading(t.files, [], t.total), 0);
    assert r.records == records && r.left == [t.files[1]];
    assert ReplayOf(t, 0, batch) == r;
    HeldOne(t.files[1]);
  }

  /** A write takes away no file another source is writing to. */
  lemma {:induction false} WriteKeepsActiveFiles(
    s: Store, budget: nat, maxFile: nat, source: nat, record: Record, size: nat, names: (nat, nat), f: File)
    requires Consistent(s) && NamesWork(s, source, names) && f in s.files && IsCurrent(s.writers, f)
      && f.source != source
    ensures
      var t := Written(s, budget, maxFile, source, record, size, names);
      f in t.files && IsCurrent(t.writers, f)
  {
    var t := Filled(s, maxFile, source, record, size, names);
    FillKeeps(s, maxFile, source, record, size, names);
    assert f in t.files && IsCurrent(t.writers, f) by {
      FillLeavesOthers(s, maxFile, source, record, size, names, f);
    }
    EvictionIsExact(t, budget);
    KeptStaysDistinct(t.files, t.writers, budget);
    hide Filled, EvictAll, Kept, Distinct, FreeSize;
  }

  lemma {:induction false} FillLeavesOthers(s: Store, maxFile: nat, source: nat, record: Record, size: nat,
      names: (nat, nat), f: File)
    requires f in s.files && f.source != source && IsCurrent(s.writers, f)
    ensures
      var t := Filled(s, maxFile, source, record, size, names);
      f in t.files && IsCurrent(t.writers, f)
  {
    hide EncodeRecord;
    var i :| 0 <= i < |s.files| && s.files[i] == f;
    var a := Appended(s, source, record, names.0);
    assert a.files[i] == f;
    var r := Rotated(a, source, size, names.1);
    assert r.files[i] == f;
  }

  /** A line just spilled is in the file being written to, where the overflow test does not look. */
  lemma {:induction false} SpilledLineGoesUnseen(
    s: Store, budget: nat, maxFile: nat, source: nat, record: Record, size: nat, names: (nat, nat))
    requires Consistent(s) && NamesWork(s, source, names)
    requires source !in s.writers && !HasOverflow(s, source) && |EncodeRecord(record)| < maxFile
    ensures
      var t := Written(s, budget, maxFile, source, record, size, names);
      && !HasOverflow(t, source)
      && exists f :: f in t.files && IsCurrent(t.writers, f) && f.source == source && record in f.records
  {
    var a := Appended(s, source, record, names.0);
    var f := File(source, names.0, 0, [record]);
    assert a.files[|s.files|] == f by {
      assert [] + [record] == [record];
    }
    assert IsCurrent(a.writers, f);
    FillKeeps(s, maxFile, source, record, size, names);
    EvictionIsExact(a, budget);
    KeptStaysDistinct(a.files, a.writers, budget);
    var t := Written(s, budget, maxFile, source, record, size, names);
    assert record in f.records;
    assert f in t.files;
    forall i | 0 <= i < |t.files|
      ensures !Free(t.writers, Some(source), t.files[i])
    {
      assert t.files[i] in a.files;
      var j :| 0 <= j < |a.files| && a.files[j] == t.files[i];
      if j < |s.files| {
        assert !Free(s.writers, Some(source), s.files[j]);
      }
    }
  }

  // --------------------------------------------------------------------------- the object

  class Writer {
    const budgetBytes: nat
    const maxFileBytes: nat
    var files: seq<File>
    var writers: map<nat, SourceWriter>
    var totalBytes: nat

    ghost function Model(): Store
      reads this
    {
      Store(files, writers, totalBytes)
    }

    ghost predicate Valid()
      reads this
    {
      Consistent(Model())
    }

    /** Opening scans what an earlier process left; nobody is writing to any of it. */
    constructor (onDisk: seq<File>, budgetMb: nat)
      requires Distinct(onDisk)
      ensures Valid() && files == onDisk && writers == map[] && totalBytes == FreeSize(onDisk, map[])
      ensures budgetBytes == budgetMb * 1024 * 1024 && maxFileBytes == DEFAULT_MAX_FILE_BYTES
    {
      budgetBytes, maxFileBytes := budgetMb * 1024 * 1024, DEFAULT_MAX_FILE_BYTES;
      files, writers := onDisk, map[];
      totalBytes := 0;
      new;
      hide Distinct;
      for i := 0 to |onDisk|
        invariant totalBytes == FreeSize(onDisk[..i], map[]) && files == onDisk && writers == map[]
      {
        assert onDisk[..i + 1][..i] == onDisk[..i];
        totalBytes := totalBytes + onDisk[i].size;
      }
      assert onDisk[..|onDisk|] == onDisk;
    }

    /** Walk the listing past every file that is being written to. */
    method FindOldest(only: Option<nat>) returns (oldest: nat)
      ensures oldest == OldestFree(files, writers, only) <= |files|
    {
      hide IsCurrent;
      oldest := 0;
      var found := false;
      for i := 0 to |files|
        invariant found <==> OldestFree(files[..i], writers, only) < i
        invariant found ==> oldest == OldestFree(files[..i], writers, only)
      {
        assert files[..i + 1][..i] == files[..i];
        if Free(writers, only, files[i]) && (!found || files[i].name < files[oldest].name) {
          oldest, found := i, true;
        }
      }
      assert files[..|files|] == files;
      if !found {
        oldest := |files|;
      }
    }

    /** Remove the oldest-named finished file; false when there is none. */
    method EvictOldest() returns (evicted: bool)
      modifies this`files, this`totalBytes
      ensures
        var i := OldestFree(old(files), writers, None);
        evicted == (i < |old(files)|) && Model() == if evicted then EvictOne(old(Model()), i) else old(Model())
    {
      var oldest := FindOldest(None);
      if oldest == |files| {
        return false;
      }
      var size := files[oldest].size;
      files := RemovedAt(files, oldest);
      totalBytes := Less(totalBytes, size);
      return true;
    }

    method EvictToBudget()
      modifies this`files, this`totalBytes
      ensures Model() == EvictAll(old(Model()), budgetBytes)
    {
      while totalBytes > budgetBytes
        invariant EvictAll(Model(), budgetBytes) == EvictAll(old(Model()), budgetBytes)
        decreases |files|
      {
        var evicted := EvictOldest();
        if !evicted {
          break;
        }
      }
    }

    method OpenNewFile(source: nat, name: nat)
      requires Valid() && source !in writers && Fresh(Model(), source, name)
      modifies this
      ensures Valid() && Model() == Opened(old(Model()), source, name)
    {
      OpenKeeps(Model(), source, name);
      hide Consistent, Fresh;
      files := files + [File(source, name, 0, [])];
      writers := writers[source := SourceWriter(name, 0)];
    }

    /** The writer is taken out and its file gets its final size and is counted. */
    method CloseSource(source: nat, size: nat, cut: Option<nat>)
      requires Valid()
      modifies this
      ensures Valid() && Model() == Closed(old(Model()), source, size, cut)
    {
      if source !in writers {
        return;
      }
      CloseKeeps(Model(), source, size, cut);
      hide Consistent;
      var name := writers[source].name;
      writers := writers - {source};
      files := ClosedAt(files, source, name, size, cut);
      totalBytes := totalBytes + size;
    }

    /** `size` is what the compressor makes of the file. */
    method RotateSource(source: nat, size: nat, name: nat)
      requires Valid() && Fresh(Model(), source, name)
      modifies this
      ensures Valid() && Model() == Rotated(old(Model()), source, size, name)
    {
      if source !in writers {
        return;
      }
      CloseKeeps(Model(), source, size, None);
      hide Consistent, Fresh;
      CloseSource(source, size, None);
      OpenNewFile(source, name);
    }

    method Append(source: nat, record: Record)
      requires Valid() && source in writers
      modifies this
      ensures Valid() && Model() == Recorded(old(Model()), source, record)
    {
      RecordKeeps(Model(), source, record);
      hide Consistent, Fresh, EncodeRecord, WrittenAt;
      var w := writers[source];
      files := WrittenAt(files, source, w.name, record);
      writers := writers[source := SourceWriter(w.name, w.bytesWritten + |EncodeRecord(record)|)];
    }

    /** Append, and rotate a file that has reached its size. */
    method Fill(source: nat, record: Record, size: nat, names: (nat, nat))
      requires Valid() && NamesWork(Model(), source, names)
      modifies this
      ensures Valid() && Model() == Filled(old(Model()), maxFileBytes, source, record, size, names)
    {
      AppendKeeps(Model(), source, record, names.0);
      hide Consistent, Fresh, Opened, Recorded, Rotated;
      if source !in writers {
        OpenNewFile(source, names.0);
      }
      Append(source, record);
      assert Model() == Appended(old(Model()), source, record, names.0);
      if writers[source].bytesWritten >= maxFileBytes {
        RotateSource(source, size, names.1);
      }
    }

    method Write(source: nat, record: Record, size: nat, names: (nat, nat))
      requires Valid() && NamesWork(Model(), source, names)
      modifies this
      ensures Valid() && totalBytes <= budgetBytes
      ensures Model() == Written(old(Model()), budgetBytes, maxFileBytes, source, record, size, names)
    {
      hide Consistent, NamesWork, EvictAll, Filled;
      Fill(source, record, size, names);
      EvictKeeps(Model(), budgetBytes);
      TotalOf(Model(), budgetBytes);
      EvictToBudget();
    }

    /** Finalize the active file, then read and remove the source's files until a batch is full. */
    method ReplayBatch(source: nat, batch: nat, size: nat, name: nat) returns (out: seq<Record>)
      requires Valid() && Fresh(Model(), source, name)
      modifies this
      ensures Valid() && Model() == Replayed(old(Model()), source, batch, size, name)
      ensures out == Returned(old(Model()), source, batch, size, name)
    {
      ReplayKeeps(Model(), source, batch, size, name);
      hide Consistent, Fresh, Rotated, ReplayOf;
      if source in writers && writers[source].bytesWritten > 0 {
        RotateSource(source, size, name);
      }
      assert Model() == Finalized(old(Model()), source, size, name);
      out := ReadFiles(source, batch);
    }

    method ReadFiles(source: nat, batch: nat) returns (out: seq<Record>)
      modifies this`files, this`totalBytes
      ensures
        var r := ReplayOf(old(Model()), source, batch);
        files == r.left && totalBytes == r.total && out == Cut(r.records, batch)
    {
      ghost var all := ReplayOf(Model(), source, batch);
      out := [];
      var done := false;
      hide OldestFree, FreeSize;
      while !done
        invariant
          var r := Reading(files, out, totalBytes);
          if done then r == all else ReadOn(r, writers, source, batch) == all
        decreases !done, |files|
      {
        var i := FindOldest(Some(source));
        if i == |files| {
          done := true;
        } else {
          out := out + files[i].records;
          totalBytes := Less(totalBytes, files[i].size);
          files := RemovedAt(files, i);
          done := |out| >= batch;
        }
      }
      out := out[..Min(batch, |out|)];
    }

    method Overflows(source: nat) returns (yes: bool)
      ensures yes <==> HasOverflow(Model(), source)
    {
      for i := 0 to |files|
        invariant forall j :: 0 <= j < i ==> !Free(writers, Some(source), files[j])
      {
        if Free(writers, Some(source), files[i]) {
          return true;
        }
      }
      return false;
    }

    /** After a panic with the lock held every writer is abandoned, in the order the map gives them. */
    method ResetActiveWriters(sizes: nat -> nat, cuts: nat -> Option<nat>) returns (ghost order: seq<nat>)
      requires Valid()
      modifies this
      ensures Valid() && writers == map[] && Model() == Abandoned(old(Model()), order, sizes, cuts)
      ensures forall x :: x in order <==> x in old(writers)
    {
      order := [];
      hide Consistent;
      while writers != map[]
        invariant Valid() && Model() == Abandoned(old(Model()), order, sizes, cuts)
        invariant forall x :: x in old(writers) <==> x in writers || x in order
        decreases |writers|
      {
        var source :| source in writers;
        ghost var next := order + [source];
        assert next[..|order|] == order;
        hide Closed;
        label closing:
        CloseSource(source, sizes(source), cuts(source));
        ClosedLess(old@closing(Model()), source, sizes(source), cuts(source));
        order := next;
      }
    }
  }

  lemma {:induction false} TotalOf(s: Store, budget: nat)
    requires Consistent(s)
    ensures EvictAll(s, budget).total <= budget
  {
    EvictionIsExact(s, budget);
  }

  lemma {:induction false} ClosedLess(s: Store, source: nat, size: nat, cut: Option<nat>)
    requires source in s.writers
    ensures Closed(s, source, size, cut).writers == s.writers - {source}
    ensures |s.writers - {source}| < |s.writers|
  {
    assert (s.writers - {source}).Keys == s.writers.Keys - {source};
    assert |s.writers.Keys - {source}| < |s.writers.Keys|;
  }
}
