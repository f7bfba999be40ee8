/**
 The files one source has in the overflow store, oldest first: finished ones and the one being
 written to. Only finished ones are seen by the overflow test.
 */
module SpillFiles {
  import opened Common

  datatype Files<T> = Files(finished: seq<seq<T>>, active: Option<seq<T>>)

  function NoFiles<T>(): Files<T> {
    Files([], None)
  }

  /** Records are written to the active file, which is opened when there is none. */
  function Written<T>(f: Files<T>, records: seq<T>): Files<T> {
    if records == [] then f else f.(active := Some((if f.active.Some? then f.active.value else []) + records))
  }

  /** The process is gone, or its writers were reset: the active file is a finished one now. */
  function Abandoned<T>(f: Files<T>): Files<T> {
    if f.active.None? then f else Files(f.finished + [f.active.value], None)
  }

  /** A replay first finishes an active file that holds anything. */
  function Finalized<T>(f: Files<T>): Files<T> {
    if f.active.None? || f.active.value == [] then f else Files(f.finished + [f.active.value], Some([]))
  }

  /** How many files are read until there is a batch, with `have` records at hand already. */
  function FilesRead<T>(files: seq<seq<T>>, have: nat, batch: nat): (n: nat)
    ensures n <= |files|
  {
    if files == [] then 0
    else if have + |files[0]| >= batch then 1
    else 1 + FilesRead(files[1..], have + |files[0]|, batch)
  }

  /** What a replay hands back: the oldest records, at most a batch. */
  function Returned<T>(f: Files<T>, batch: nat): (r: seq<T>)
    ensures |r| <= batch
  {
    var files := Finalized(f).finished;
    var all := Flatten(files[..FilesRead(files, 0, batch)]);
    all[..Min(batch, |all|)]
  }

  /** What a replay leaves: every file it read is removed, whatever it handed back. */
  function Replayed<T>(f: Files<T>, batch: nat): Files<T> {
    var g := Finalized(f);
    g.(finished := g.finished[FilesRead(g.finished, 0, batch)..])
  }

  /**
   What the store does to the files between two calls of this source: the active file reaches its
   size, the first `n` of its records being in by then; the writers are reset; the oldest finished
   file is evicted; or a finished file turns out to be readable only up to record `n`.
   */
  datatype Upkeep = Rotate(n: nat) | Reset | Evict | Damage(i: nat, n: nat)

  predicate Applies<T>(f: Files<T>, op: Upkeep) {
    match op
    case Rotate(n) => f.active.Some? && n <= |f.active.value|
    case Reset => true
    case Evict => f.finished != []
    case Damage(i, n) => i < |f.finished| && n <= |f.finished[i]|
  }

  function Tended<T>(f: Files<T>, op: Upkeep): Files<T>
    requires Applies(f, op)
  {
    match op
    case Rotate(n) => Files(f.finished + [f.active.value[..n]], Some(f.active.value[n..]))
    case Reset => Abandoned(f)
    case Evict => f.(finished := f.finished[1..])
    case Damage(i, n) => f.(finished := f.finished[i := f.finished[i][..n]])
  }

  /** Everything in the files, oldest first. */
  function Records<T>(f: Files<T>): seq<T> {
    Flatten(f.finished) + if f.active.Some? then f.active.value else []
  }

  // ------------------------------------------------------------------ what may be in them

  ghost predicate Within<T(!new)>(f: Files<T>, all: seq<T>) {
    forall x :: x in Records(f) ==> x in all
  }

  lemma {:induction false} InRecords<T>(f: Files<T>, x: T)
    ensures x in Records(f) <==>
      (exists i :: 0 <= i < |f.finished| && x in f.finished[i]) || (f.active.Some? && x in f.active.value)
  {
    InFlatten(f.finished, x);
  }

  lemma {:induction false} WrittenWithin<T(!new)>(f: Files<T>, records: seq<T>, all: seq<T>)
    requires Within(f, all)
    ensures Within(Written(f, records), all + records)
  {
  }

  lemma {:induction false} AbandonedRecords<T>(f: Files<T>)
    ensures Records(Abandoned(f)) == Records(f)
  {
    if f.active.Some? {
      FlattenSnoc(f.finished, f.active.value);
    }
  }

  lemma {:induction false} FinalizedRecords<T>(f: Files<T>)
    ensures Records(Finalized(f)) == Records(f)
  {
    if f.active.Some? {
      FlattenSnoc(f.finished, f.active.value);
    }
  }

  lemma {:induction false} TendedWithin<T(!new)>(f: Files<T>, op: Upkeep, all: seq<T>)
    requires Applies(f, op) && Within(f, all)
    ensures Within(Tended(f, op), all)
  {
    var g := Tended(f, op);
    forall x | x in Records(g)
      ensures x in all
    {
      InRecords(g, x);
      InRecords(f, x);
      if i :| 0 <= i < |g.finished| && x in g.finished[i] {
        if op.Evict? {
          assert x in f.finished[i + 1];
        } else if op.Damage? {
          assert x in f.finished[i];
        } else if i < |f.finished| {
          assert x in f.finished[i];
        }
      }
    }
  }

  lemma {:induction false} FlattenPrefix<T>(xss: seq<seq<T>>, n: nat)
    requires n <= |xss|
    ensures Flatten(xss) == Flatten(xss[..n]) + Flatten(xss[n..])
  {
    assert xss == xss[..n] + xss[n..];
    FlattenAppend(xss[..n], xss[n..]);
  }

  /** A replay hands back the oldest records there are, and leaves a tail of them. */
  lemma {:induction false} ReplayTakesOldest<T>(f: Files<T>, batch: nat)
    ensures Returned(f, batch) <= Records(f)
    ensures exists n :: 0 <= n <= |Records(f)| && Records(Replayed(f, batch)) == Records(f)[n..]
  {
    FinalizedRecords(f);
    var g := Finalized(f);
    var k := FilesRead(g.finished, 0, batch);
    FlattenPrefix(g.finished, k);
    var n := |Flatten(g.finished[..k])|;
    assert Records(Replayed(f, batch)) == Records(g)[n..];
  }

  /** Reading stops once there is a batch, so what was not read would have been cut off anyway. */
  lemma {:induction false} ReadEnough<T>(files: seq<seq<T>>, have: nat, batch: nat)
    ensures
      var n := FilesRead(files, have, batch);
      n < |files| ==> have + |Flatten(files[..n])| >= batch
  {
    if files != [] {
      var n := FilesRead(files, have, batch);
      assert files[..n][0] == files[0] && files[..n][1..] == files[1..][..n - 1];
      if have + |files[0]| < batch {
        ReadEnough(files[1..], have + |files[0]|, batch);
      }
    }
  }

  /** A replay hands back exactly the oldest records there are, a batch of them if there are as many. */
  lemma {:induction false} ReplayHandsBackABatch<T>(f: Files<T>, batch: nat)
    ensures Returned(f, batch) == Records(f)[..Min(batch, |Records(f)|)]
  {
    FinalizedRecords(f);
    var g := Finalized(f);
    var n := FilesRead(g.finished, 0, batch);
    ReadEnough(g.finished, 0, batch);
    FlattenPrefix(g.finished, n);
    assert g.finished[..|g.finished|] == g.finished;
    hide Flatten, FilesRead;
  }

  lemma {:induction false} ReplayedWithin<T(!new)>(f: Files<T>, batch: nat, all: seq<T>)
    requires Within(f, all)
    ensures Within(Replayed(f, batch), all)
    ensures forall x :: x in Returned(f, batch) ==> x in all
  {
    ReplayTakesOldest(f, batch);
    var n :| 0 <= n <= |Records(f)| && Records(Replayed(f, batch)) == Records(f)[n..];
    assert forall x :: x in Records(f)[n..] ==> x in Records(f);
    assert forall x :: x in Returned(f, batch) ==> x in Records(f);
    hide Records, Returned, Replayed;
  }

  // ----------------------------------------------------------------------- empty files

  lemma {:induction false} NothingToReturn<T(!new)>(f: Files<T>, batch: nat)
    requires Within(f, [])
    ensures Returned(f, batch) == []
  {
    ReplayTakesOldest(f, batch);
    HasOne(Records(f));
  }

  lemma {:induction false} HasOne<T>(xs: seq<T>)
    ensures xs == [] || exists x :: x in xs
  {
    if xs != [] {
      assert xs[0] in xs;
    }
  }

  lemma {:induction false} FilesReadReach<T>(files: seq<seq<T>>, have: nat, batch: nat)
    requires have < batch && Flatten(files) != []
    ensures Flatten(files[..FilesRead(files, have, batch)]) != []
  {
    var n := FilesRead(files, have, batch);
    if files[0] == [] && have + |files[0]| < batch {
      assert Flatten(files) == Flatten(files[1..]);
      FilesReadReach(files[1..], have, batch);
      assert files[..n][1..] == files[1..][..n - 1];
    } else {
      assert files[..n][0] == files[0];
    }
  }

  /** While a finished file holds a record, a replay hands back the oldest one. */
  lemma {:induction false} ReplayReachesARecord<T>(f: Files<T>, batch: nat)
    requires batch > 0 && Flatten(f.finished) != []
    ensures Returned(f, batch) != [] && Returned(f, batch)[0] == Flatten(f.finished)[0]
  {
    var files := Finalized(f).finished;
    if files != f.finished {
      FlattenSnoc(f.finished, f.active.value);
    }
    FilesReadReach(files, 0, batch);
    FlattenPrefix(files, FilesRead(files, 0, batch));
    hide Flatten, FilesRead;
    assert Flatten(files)[0] == Flatten(f.finished)[0];
  }

  // ------------------------------------------------------------- the same files, seen otherwise

  function Mapped<T, U>(h: T -> U, xs: seq<T>): (r: seq<U>)
    ensures |r| == |xs| && forall i :: 0 <= i < |r| ==> r[i] == h(xs[i])
  {
    seq(|xs|, i requires 0 <= i < |xs| => h(xs[i]))
  }

  function MappedAll<T, U>(h: T -> U, files: seq<seq<T>>): (r: seq<seq<U>>)
    ensures |r| == |files| && forall i :: 0 <= i < |r| ==> r[i] == Mapped(h, files[i])
  {
    seq(|files|, i requires 0 <= i < |files| => Mapped(h, files[i]))
  }

  function MappedFiles<T, U>(h: T -> U, f: Files<T>): Files<U> {
    Files(MappedAll(h, f.finished), if f.active.None? then None else Some(Mapped(h, f.active.value)))
  }

  lemma {:induction false} MapWritten<T, U>(h: T -> U, f: Files<T>, records: seq<T>)
    ensures MappedFiles(h, Written(f, records)) == Written(MappedFiles(h, f), Mapped(h, records))
  {
    var before := if f.active.Some? then f.active.value else [];
    assert Mapped(h, before + records) == Mapped(h, before) + Mapped(h, records);
  }

  lemma {:induction false} MapSnoc<T, U>(h: T -> U, files: seq<seq<T>>, last: seq<T>)
    ensures MappedAll(h, files + [last]) == MappedAll(h, files) + [Mapped(h, last)]
  {
  }

  lemma {:induction false} MapAbandoned<T, U>(h: T -> U, f: Files<T>)
    ensures MappedFiles(h, Abandoned(f)) == Abandoned(MappedFiles(h, f))
  {
    if f.active.Some? {
      MapSnoc(h, f.finished, f.active.value);
    }
  }

  lemma {:induction false} MapFinalized<T, U>(h: T -> U, f: Files<T>)
    ensures MappedFiles(h, Finalized(f)) == Finalized(MappedFiles(h, f))
  {
    if f.active.Some? {
      MapSnoc(h, f.finished, f.active.value);
    }
  }

  lemma {:induction false} MapTended<T, U>(h: T -> U, f: Files<T>, op: Upkeep)
    ensures Applies(MappedFiles(h, f), op) <==> Applies(f, op)
    ensures Applies(f, op) ==> MappedFiles(h, Tended(f, op)) == Tended(MappedFiles(h, f), op)
  {
    if Applies(f, op) {
      match op
      case Rotate(n) =>
        MapSnoc(h, f.finished, f.active.value[..n]);
        assert Mapped(h, f.active.value)[..n] == Mapped(h, f.active.value[..n]);
        assert Mapped(h, f.active.value)[n..] == Mapped(h, f.active.value[n..]);
      case Reset => MapAbandoned(h, f);
      case Evict =>
        assert MappedAll(h, f.finished)[1..] == MappedAll(h, f.finished[1..]);
      case Damage(i, n) =>
        assert Mapped(h, f.finished[i])[..n] == Mapped(h, f.finished[i][..n]);
    }
  }

  lemma {:induction false} MapFlatten<T, U>(h: T -> U, files: seq<seq<T>>)
    ensures Flatten(MappedAll(h, files)) == Mapped(h, Flatten(files))
  {
    if files != [] {
      MapFlatten(h, files[1..]);
      assert MappedAll(h, files)[1..] == MappedAll(h, files[1..]);
    }
  }

  lemma {:induction false} MapFilesRead<T, U>(h: T -> U, files: seq<seq<T>>, have: nat, batch: nat)
    ensures FilesRead(MappedAll(h, files), have, batch) == FilesRead(files, have, batch)
  {
    if files != [] {
      assert MappedAll(h, files)[1..] == MappedAll(h, files[1..]);
      MapFilesRead(h, files[1..], have + |files[0]|, batch);
    }
  }

  lemma {:induction false} MapReplayed<T, U>(h: T -> U, f: Files<T>, batch: nat)
    ensures Returned(MappedFiles(h, f), batch) == Mapped(h, Returned(f, batch))
    ensures MappedFiles(h, Replayed(f, batch)) == Replayed(MappedFiles(h, f), batch)
  {
    MapFinalized(h, f);
    var files := Finalized(f).finished;
    var n := FilesRead(files, 0, batch);
    MapFilesRead(h, files, 0, batch);
    MapFlatten(h, files[..n]);
    assert MappedAll(h, files)[..n] == MappedAll(h, files[..n]);
    assert MappedAll(h, files)[n..] == MappedAll(h, files[n..]);
    hide Flatten, FilesRead, Finalized;
  }

  lemma {:induction false} WrittenTwice<T>(f: Files<T>, a: seq<T>, b: seq<T>)
    ensures Written(Written(f, a), b) == Written(f, a + b)
  {
    var before := if f.active.Some? then f.active.value else [];
    assert (before + a) + b == before + (a + b);
    assert a == [] ==> a + b == b;
    assert b == [] ==> a + b == a;
  }
}
