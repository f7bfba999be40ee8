/**
 The overflow store as one source sees it: a list of finished files and an active one. Whatever is
 done to the store, for each source it comes to a few operations on that list.
 */
module OverflowViews {
  import opened Common
  import opened OverflowRecords
  import opened Overflow
  import Spill = SpillFiles

  // ----------------------------------------------------------------- one source's files

  /** A source's finished files by name, and the one it is writing to. */
  datatype Own = Own(finished: seq<File>, active: Option<File>)

  /**
   These are the source's files in the store; the active one is the newest, and something was written
   to it exactly when it holds a record.
   */
  ghost predicate Owns(s: Store, source: nat, v: Own) {
    && ByName(v.finished) && (forall x :: x in v.finished <==> x in s.files && Free(s.writers, Some(source), x))
    && (v.active.Some? <==> source in s.writers)
    && (v.active.Some? ==> IsActive(s, source, v, v.active.value))
  }

  ghost predicate IsActive(s: Store, source: nat, v: Own, f: File)
    requires source in s.writers
  {
    && f in s.files && f.source == source && f.name == s.writers[source].name
    && (forall x :: x in v.finished ==> x.name < f.name)
    && (s.writers[source].bytesWritten > 0 <==> f.records != [])
  }

  function RecordsOf(files: seq<File>): (r: seq<seq<Record>>)
    ensures |r| == |files| && forall i :: 0 <= i < |r| ==> r[i] == files[i].records
  {
    seq(|files|, i requires 0 <= i < |files| => files[i].records)
  }

  /** What they hold. */
  function Seen(v: Own): Spill.Files<Record> {
    Spill.Files(RecordsOf(v.finished), if v.active.None? then None else Some(v.active.value.records))
  }

  lemma {:induction false} SamePath(s: Store, f: File, g: File)
    requires Sound(s) && f in s.files && g in s.files && f.source == g.source && f.name == g.name
    ensures f == g
  {
  }

  // -------------------------------------------------------------------------- replaying

  lemma {:induction false} FlatIsFlatten(files: seq<File>)
    ensures Flat(files) == Flatten(RecordsOf(files))
  {
    if files != [] {
      FlatIsFlatten(files[1..]);
      assert RecordsOf(files)[1..] == RecordsOf(files[1..]);
    }
  }

  /** What a replay is due to read. */
  function DueFiles(v: Own): seq<File> {
    if v.active.None? || v.active.value.records == [] then v.finished else v.finished + [v.active.value]
  }

  lemma {:induction false} DueAre(s: Store, source: nat, v: Own)
    requires Consistent(s) && Owns(s, source, v)
    ensures InNameOrder(s, source, DueFiles(v))
  {
    var due := DueFiles(v);
    forall f
      ensures f in due <==> f in s.files && Due(s, source, f)
    {
      if f in s.files && f.source == source && IsCurrent(s.writers, f) {
        SamePath(s, f, v.active.value);
      }
    }
  }

  lemma {:induction false} DueRecords(v: Own)
    ensures Flat(DueFiles(v)) == Spill.Records(Seen(v))
  {
    var due := DueFiles(v);
    FlatIsFlatten(due);
    if due != v.finished {
      assert RecordsOf(due) == RecordsOf(v.finished) + [v.active.value.records];
      FlattenSnoc(RecordsOf(v.finished), v.active.value.records);
    }
  }

  /** The overflow test and what a replay hands back are what the list of files says. */
  lemma {:induction false} ReplaySeesTheFiles(s: Store, source: nat, v: Own, batch: nat, size: nat, name: nat)
    requires Consistent(s) && Fresh(s, source, name) && Owns(s, source, v)
    ensures HasOverflow(s, source) <==> Seen(v).finished != []
    ensures Returned(s, source, batch, size, name) == Spill.Returned(Seen(v), batch)
  {
    DueAre(s, source, v);
    ReplayReturnsTheOldest(s, source, batch, size, name, DueFiles(v));
    DueRecords(v);
    Spill.ReplayHandsBackABatch(Seen(v), batch);
    SeesFinished(s, source, v);
    hide Consistent, Owns, InNameOrder, Returned, Spill.Returned, Flat, Spill.Records, HasOverflow;
  }

  lemma {:induction false} SeesFinished(s: Store, source: nat, v: Own)
    requires Owns(s, source, v)
    ensures HasOverflow(s, source) <==> v.finished != []
  {
    if v.finished != [] {
      assert v.finished[0] in v.finished;
      var i :| 0 <= i < |s.files| && s.files[i] == v.finished[0];
    }
    if i :| 0 <= i < |s.files| && Free(s.writers, Some(source), s.files[i]) {
      assert s.files[i] in v.finished;
    }
  }

  // --------------------------------------------------------------- single changes of the store

  /** Nothing changes for a source whose files and writer stay. */
  lemma {:induction false} OwnsStill(s: Store, t: Store, source: nat, v: Own)
    requires Owns(s, source, v)
    requires forall x: File :: x.source == source ==> (x in s.files <==> x in t.files)
    requires source in s.writers <==> source in t.writers
    requires source in s.writers ==> s.writers[source] == t.writers[source]
    ensures Owns(t, source, v)
  {
  }

  ghost predicate IsNewest(s: Store, source: nat, name: nat) {
    forall x :: x in s.files && x.source == source ==> x.name < name
  }

  lemma {:induction false} OpenOwn(s: Store, source: nat, name: nat, v: Own)
    requires Owns(s, source, v) && source !in s.writers && IsNewest(s, source, name)
    ensures Owns(Opened(s, source, name), source, v.(active := Some(File(source, name, 0, []))))
  {
    var t := Opened(s, source, name);
    var f := File(source, name, 0, []);
    assert t.files[|s.files|] == f;
    forall x
      ensures x in v.finished <==> x in t.files && Free(t.writers, Some(source), x)
    {
      if x in t.files && x !in s.files {
        assert x == f;
      }
    }
  }

  lemma {:induction false} OpenOther(s: Store, other: nat, name: nat, source: nat, v: Own)
    requires Owns(s, source, v) && other != source
    ensures Owns(Opened(s, other, name), source, v)
  {
    OwnsStill(s, Opened(s, other, name), source, v);
  }

  /** One listed file is replaced by another under the same path. */
  ghost predicate Replaces(a: seq<File>, b: seq<File>, f: File, g: File) {
    forall x :: x in b <==> (x in a && x != f) || x == g
  }

  lemma {:induction false} WrittenReplaces(s: Store, f: File, record: Record)
    requires Distinct(s.files) && f in s.files
    ensures Replaces(s.files, WrittenAt(s.files, f.source, f.name, record), f, f.(records := f.records + [record]))
  {
    var t := WrittenAt(s.files, f.source, f.name, record);
    var k :| 0 <= k < |s.files| && s.files[k] == f;
    OnlyThere(s.files, k);
    forall x | x in s.files && x != f
      ensures x in t
    {
      var i :| 0 <= i < |s.files| && s.files[i] == x;
      assert t[i] == x;
    }
    assert t[k] == f.(records := f.records + [record]);
  }

  lemma {:induction false} ClosedReplaces(s: Store, f: File, size: nat, cut: Option<nat>)
    requires Distinct(s.files) && f in s.files
    ensures Replaces(s.files, ClosedAt(s.files, f.source, f.name, size, cut), f,
                     f.(size := size, records := CutTo(f.records, cut)))
  {
    var t := ClosedAt(s.files, f.source, f.name, size, cut);
    var k :| 0 <= k < |s.files| && s.files[k] == f;
    OnlyThere(s.files, k);
    forall x | x in s.files && x != f
      ensures x in t
    {
      var i :| 0 <= i < |s.files| && s.files[i] == x;
      assert t[i] == x;
    }
    assert t[k] == f.(size := size, records := CutTo(f.records, cut));
  }

  lemma {:induction false} OnlyThere(files: seq<File>, k: nat)
    requires Distinct(files) && k < |files|
    ensures forall i :: 0 <= i < |files| ==> (HasPath(files[i], files[k].source, files[k].name) <==> i == k)
  {
  }

  lemma {:induction false} RecordOwn(s: Store, source: nat, record: Record, v: Own)
    requires Sound(s) && Owns(s, source, v) && source in s.writers
    ensures
      var f := v.active.value;
      Owns(Recorded(s, source, record), source, v.(active := Some(f.(records := f.records + [record]))))
  {
    var f := v.active.value;
    var t := Recorded(s, source, record);
    var g := f.(records := f.records + [record]);
    WrittenReplaces(s, f, record);
    forall x
      ensures x in v.finished <==> x in t.files && Free(t.writers, Some(source), x)
    {
      assert Free(t.writers, Some(source), x) <==> Free(s.writers, Some(source), x);
    }
    hide EncodeRecord, WrittenAt;
  }

  lemma {:induction false} RecordOther(s: Store, other: nat, record: Record, source: nat, v: Own)
    requires Sound(s) && Owns(s, source, v) && other in s.writers && other != source
    ensures Owns(Recorded(s, other, record), source, v)
  {
    var t := Recorded(s, other, record);
    var i :| 0 <= i < |s.files| && HasPath(s.files[i], other, s.writers[other].name);
    WrittenReplaces(s, s.files[i], record);
    OwnsStill(s, t, source, v);
  }

  lemma {:induction false} CloseOwn(s: Store, source: nat, size: nat, cut: Option<nat>, v: Own)
    requires Sound(s) && Owns(s, source, v) && source in s.writers
    ensures
      var f := v.active.value;
      Owns(Closed(s, source, size, cut), source,
           Own(v.finished + [f.(size := size, records := CutTo(f.records, cut))], None))
  {
    var f := v.active.value;
    var t := Closed(s, source, size, cut);
    var g := f.(size := size, records := CutTo(f.records, cut));
    ClosedReplaces(s, f, size, cut);
    forall x
      ensures x in v.finished + [g] <==> x in t.files && Free(t.writers, Some(source), x)
    {
      if x in s.files && x.source == source && IsCurrent(s.writers, x) {
        SamePath(s, x, f);
      }
    }
    hide ClosedAt, CutTo;
  }

  lemma {:induction false} CloseOther(s: Store, other: nat, size: nat, cut: Option<nat>, source: nat, v: Own)
    requires Sound(s) && Owns(s, source, v) && other != source
    ensures Owns(Closed(s, other, size, cut), source, v)
  {
    if other in s.writers {
      var t := Closed(s, other, size, cut);
      var i :| 0 <= i < |s.files| && HasPath(s.files[i], other, s.writers[other].name);
      ClosedReplaces(s, s.files[i], size, cut);
      OwnsStill(s, t, source, v);
    }
  }

  /** Removing the oldest free file removes the source's oldest finished one, or none of its files. */
  lemma {:induction false} RemoveOldest(s: Store, only: Option<nat>, source: nat, v: Own)
    requires Sound(s) && Owns(s, source, v) && (only.Some? ==> only.value == source)
    requires OldestFree(s.files, s.writers, only) < |s.files|
    ensures
      var i := OldestFree(s.files, s.writers, only);
      var t := s.(files := RemovedAt(s.files, i));
      if s.files[i].source == source then
        v.finished != [] && v.finished[0] == s.files[i] && Owns(t, source, v.(finished := v.finished[1..]))
      else Owns(t, source, v)
  {
    var i := OldestFree(s.files, s.writers, only);
    var f := s.files[i];
    RemovedStaysDistinct(s.files, i);
    var t := s.(files := RemovedAt(s.files, i));
    if f.source == source {
      assert f in v.finished;
      FirstIsOldest(s, only, source, v, i);
      var rest := v.finished[1..];
      forall x
        ensures x in rest <==> x in t.files && Free(t.writers, Some(source), x)
      {
        RestOf(v.finished, x);
      }
    } else {
      OwnsStill(s, t, source, v);
    }
    hide OldestFree, RemovedAt;
  }

  lemma {:induction false} RestOf(files: seq<File>, x: File)
    requires ByName(files) && files != []
    ensures x in files[1..] <==> x in files && x != files[0]
  {
    if x in files[1..] {
      var j :| 0 <= j < |files[1..]| && files[1..][j] == x;
      assert files[0].name < files[j + 1].name;
    }
    if x in files && x != files[0] {
      var j :| 0 <= j < |files| && files[j] == x;
      assert files[1..][j - 1] == x;
    }
  }

  lemma {:induction false} FirstIsOldest(s: Store, only: Option<nat>, source: nat, v: Own, i: nat)
    requires Sound(s) && Owns(s, source, v) && (only.Some? ==> only.value == source)
    requires i == OldestFree(s.files, s.writers, only) < |s.files| && s.files[i] in v.finished
    ensures v.finished != [] && v.finished[0] == s.files[i]
  {
    var f := s.files[i];
    var k :| 0 <= k < |v.finished| && v.finished[k] == f;
    var g := v.finished[0];
    assert g in v.finished;
    var j :| 0 <= j < |s.files| && s.files[j] == g;
    assert Free(s.writers, only, s.files[j]);
    assert f.name <= g.name;
  }

  // ------------------------------------------------------------- operations on the list of files

  /** What can happen to one source's files. */
  datatype Move = Wrote(record: Record) | Did(op: Spill.Upkeep) | Gave(batch: nat)

  predicate MayMove(f: Spill.Files<Record>, m: Move) {
    m.Did? ==> Spill.Applies(f, m.op)
  }

  function Moved(f: Spill.Files<Record>, m: Move): Spill.Files<Record>
    requires MayMove(f, m)
  {
    match m
    case Wrote(record) => Spill.Written(f, [record])
    case Did(op) => Spill.Tended(f, op)
    case Gave(batch) => Spill.Replayed(f, batch)
  }

  /** The moves, one after another, lead from `f` to `g`. */
  ghost predicate Leads(f: Spill.Files<Record>, moves: seq<Move>, g: Spill.Files<Record>)
    decreases |moves|
  {
    if moves == [] then g == f else MayMove(f, moves[0]) && Leads(Moved(f, moves[0]), moves[1..], g)
  }

  lemma {:induction false} LeadsOn(f: Spill.Files<Record>, a: seq<Move>, g: Spill.Files<Record>, b: seq<Move>,
      h: Spill.Files<Record>)
    requires Leads(f, a, g) && Leads(g, b, h)
    ensures Leads(f, a + b, h)
    decreases |a|
  {
    hide Moved, MayMove;
    if a == [] {
      assert a + b == b;
    } else {
      assert (a + b)[1..] == a[1..] + b;
      LeadsOn(Moved(f, a[0]), a[1..], g, b, h);
    }
  }

  lemma {:induction false} LeadsOnce(f: Spill.Files<Record>, m: Move)
    requires MayMove(f, m)
    ensures Leads(f, [m], Moved(f, m))
  {
    assert [m][1..] == [];
  }

  // ------------------------------------------------------------------------------ writing

  lemma {:induction false} AppendSeen(s: Store, source: nat, record: Record, name: nat, v: Own) returns (w: Own)
    requires Sound(s) && Owns(s, source, v) && (source !in s.writers ==> IsNewest(s, source, name))
    ensures Owns(Appended(s, source, record, name), source, w) && w.active.Some?
    ensures Seen(w) == Spill.Written(Seen(v), [record])
  {
    if source in s.writers {
      RecordOwn(s, source, record, v);
      w := v.(active := Some(v.active.value.(records := v.active.value.records + [record])));
    } else {
      var t := Opened(s, source, name);
      var u := v.(active := Some(File(source, name, 0, [])));
      OpenOwn(s, source, name, v);
      OpenStaysSound(s, source, name);
      RecordOwn(t, source, record, u);
      w := v.(active := Some(File(source, name, 0, [] + [record])));
    }
    hide Recorded, Owns;
  }

  lemma {:induction false} OpenStaysSound(s: Store, source: nat, name: nat)
    requires Sound(s) && IsNewest(s, source, name) && source !in s.writers
    ensures Sound(Opened(s, source, name)) && Fresh(s, source, name)
  {
    var t := Opened(s, source, name);
    assert HasPath(t.files[|s.files|], source, name);
    forall i | 0 <= i < |s.files|
      ensures !HasPath(s.files[i], source, name) && t.files[i] == s.files[i]
    {
      assert s.files[i] in s.files;
    }
    forall x | x in t.writers
      ensures Listed(t.files, x, t.writers[x].name)
    {
      if x != source {
        var i :| 0 <= i < |s.files| && HasPath(s.files[i], x, s.writers[x].name);
        assert HasPath(t.files[i], x, t.writers[x].name);
      }
    }
  }

  lemma {:induction false} CloseStaysSound(s: Store, source: nat, size: nat, cut: Option<nat>)
    requires Sound(s)
    ensures Sound(Closed(s, source, size, cut))
  {
    var t := Closed(s, source, size, cut);
    forall x | x in t.writers
      ensures Listed(t.files, x, t.writers[x].name)
    {
      var i :| 0 <= i < |s.files| && HasPath(s.files[i], x, s.writers[x].name);
      assert HasPath(t.files[i], x, t.writers[x].name);
    }
  }

  /** Closing leaves the paths, so what was newest still is. */
  lemma {:induction false} CloseKeepsNames(s: Store, source: nat, size: nat, cut: Option<nat>, name: nat)
    requires IsNewest(s, source, name)
    ensures IsNewest(Closed(s, source, size, cut), source, name)
  {
    var t := Closed(s, source, size, cut);
    forall x | x in t.files && x.source == source
      ensures x.name < name
    {
      var i :| 0 <= i < |t.files| && t.files[i] == x;
      assert s.files[i] in s.files;
    }
  }

  lemma {:induction false} RotateSeen(s: Store, source: nat, size: nat, name: nat, v: Own) returns (w: Own)
    requires Sound(s) && Owns(s, source, v) && source in s.writers && IsNewest(s, source, name)
    ensures Owns(Rotated(s, source, size, name), source, w)
    ensures
      var all := Spill.Rotate(|v.active.value.records|);
      Spill.Applies(Seen(v), all) && Seen(w) == Spill.Tended(Seen(v), all)
    ensures w.active == Some(File(source, name, 0, [])) && |w.finished| == |v.finished| + 1
    ensures w.finished[..|v.finished|] == v.finished && w.finished[|v.finished|].records == v.active.value.records
  {
    var f := v.active.value;
    var g := f.(size := size, records := CutTo(f.records, None));
    CloseOwn(s, source, size, None, v);
    CloseStaysSound(s, source, size, None);
    CloseKeepsNames(s, source, size, None, name);
    var u := Own(v.finished + [g], None);
    OpenOwn(Closed(s, source, size, None), source, name, u);
    w := u.(active := Some(File(source, name, 0, [])));
    assert f.records[..|f.records|] == f.records && f.records[|f.records|..] == [];
    assert RecordsOf(u.finished) == RecordsOf(v.finished) + [f.records];
    hide Closed, Opened, Owns;
  }

  /** New files get names later than all there are. */
  ghost predicate NamesRise(s: Store, op: Op) {
    match op
    case WriteOp(source, _, _, names) => IsNewest(s, source, names.0) && names.0 < names.1
    case ReplayOp(source, _, _, name) => IsNewest(s, source, name)
    case _ => true
  }

  lemma {:induction false} StillNewest(s: Store, source: nat, record: Record, names: (nat, nat))
    requires IsNewest(s, source, names.0) && names.0 < names.1
    ensures IsNewest(Appended(s, source, record, names.0), source, names.1)
  {
    var t := if source in s.writers then s else Opened(s, source, names.0);
    var r := Appended(s, source, record, names.0);
    forall x | x in r.files && x.source == source
      ensures x.name < names.1
    {
      var i :| 0 <= i < |r.files| && r.files[i] == x;
      assert t.files[i].name == x.name && t.files[i].source == source;
      assert i < |s.files| ==> s.files[i] in s.files;
    }
    hide EncodeRecord;
  }

  lemma {:induction false} FillSeen(s: Store, maxFile: nat, source: nat, record: Record, size: nat, names: (nat, nat),
      v: Own) returns (moves: seq<Move>, w: Own)
    requires Consistent(s) && NamesWork(s, source, names) && Owns(s, source, v)
    requires IsNewest(s, source, names.0) && names.0 < names.1
    ensures Owns(Filled(s, maxFile, source, record, size, names), source, w) && Leads(Seen(v), moves, Seen(w))
    ensures moves == [Wrote(record)] || exists n :: moves == [Wrote(record), Did(Spill.Rotate(n))]
  {
    var t := Appended(s, source, record, names.0);
    w := AppendSeen(s, source, record, names.0, v);
    AppendKeeps(s, source, record, names.0);
    StillNewest(s, source, record, names);
    LeadsOnce(Seen(v), Wrote(record));
    moves := [Wrote(record)];
    hide Appended, Rotated, Owns, Leads, IsNewest, Spill.Written, Spill.Tended;
    if t.writers[source].bytesWritten >= maxFile {
      var n := |w.active.value.records|;
      var u := RotateSeen(t, source, size, names.1, w);
      LeadsOnce(Seen(w), Did(Spill.Rotate(n)));
      LeadsOn(Seen(v), moves, Seen(w), [Did(Spill.Rotate(n))], Seen(u));
      assert [Wrote(record)] + [Did(Spill.Rotate(n))] == [Wrote(record), Did(Spill.Rotate(n))];
      moves, w := [Wrote(record), Did(Spill.Rotate(n))], u;
    }
  }

  lemma {:induction false} FillOther(s: Store, maxFile: nat, other: nat, record: Record, size: nat, names: (nat, nat),
      source: nat, v: Own)
    requires Consistent(s) && NamesWork(s, other, names) && Owns(s, source, v) && other != source
    ensures Owns(Filled(s, maxFile, other, record, size, names), source, v)
  {
    var t := Appended(s, other, record, names.0);
    if other !in s.writers {
      OpenOther(s, other, names.0, source, v);
      OpenKeeps(s, other, names.0);
      RecordOther(Opened(s, other, names.0), other, record, source, v);
    } else {
      RecordOther(s, other, record, source, v);
    }
    AppendKeeps(s, other, record, names.0);
    CloseOther(t, other, size, None, source, v);
    OpenOther(Closed(t, other, size, None), other, names.1, source, v);
    hide Owns, Opened, Recorded, Closed;
  }

  // ----------------------------------------------------------------------------- evicting

  ghost predicate OnlyEvicts(moves: seq<Move>) {
    forall i :: 0 <= i < |moves| ==> moves[i] == Did(Spill.Evict)
  }

  lemma {:induction false} EvictSeen(s: Store, budget: nat, source: nat, v: Own) returns (moves: seq<Move>, w: Own)
    requires Sound(s) && Owns(s, source, v)
    ensures Owns(EvictAll(s, budget), source, w) && Leads(Seen(v), moves, Seen(w)) && OnlyEvicts(moves)
    decreases |s.files|
  {
    hide Owns, OldestFree, Sound, Leads, FreeSize;
    var i := OldestFree(s.files, s.writers, None);
    moves, w := [], v;
    if s.total <= budget || i >= |s.files| {
      LeadsNowhere(Seen(v));
    } else {
      RemoveOldest(s, None, source, v);
      var t := EvictOne(s, i);
      RemoveStaysSound(s, i);
      var u := if s.files[i].source == source then v.(finished := v.finished[1..]) else v;
      OwnsStill(s.(files := RemovedAt(s.files, i)), t, source, u);
      moves, w := EvictSeen(t, budget, source, u);
      if s.files[i].source == source {
        assert RecordsOf(v.finished)[1..] == RecordsOf(u.finished);
        LeadsOnce(Seen(v), Did(Spill.Evict));
        LeadsOn(Seen(v), [Did(Spill.Evict)], Seen(u), moves, Seen(w));
        moves := [Did(Spill.Evict)] + moves;
      }
    }
  }

  lemma {:induction false} RemoveStaysSound(s: Store, i: nat)
    requires Sound(s) && i < |s.files| && !IsCurrent(s.writers, s.files[i])
    ensures Sound(EvictOne(s, i))
  {
    RemovedStaysDistinct(s.files, i);
    var t := EvictOne(s, i);
    forall x | x in t.writers
      ensures Listed(t.files, x, t.writers[x].name)
    {
      var j :| 0 <= j < |s.files| && HasPath(s.files[j], x, s.writers[x].name);
      assert s.files[j] in t.files;
    }
  }

  // ---------------------------------------------------------------------------- replaying

  lemma {:induction false} FinalizeSeen(s: Store, source: nat, size: nat, name: nat, v: Own) returns (w: Own)
    requires Consistent(s) && Owns(s, source, v) && IsNewest(s, source, name)
    ensures Owns(Finalized(s, source, size, name), source, w) && Seen(w) == Spill.Finalized(Seen(v))
  {
    w := v;
    if Finalizes(s, source) {
      w := RotateSeen(s, source, size, name, v);
      assert RecordsOf(w.finished) == RecordsOf(v.finished) + [v.active.value.records];
    }
    hide Rotated;
  }

  ghost function AsStore(r: Reading, writers: map<nat, SourceWriter>): Store {
    Store(r.left, writers, r.total)
  }

  lemma {:induction false} ReadOneSeen(r: Reading, writers: map<nat, SourceWriter>, source: nat, v: Own, i: nat)
    requires Sound(AsStore(r, writers)) && Owns(AsStore(r, writers), source, v)
    requires i == OldestFree(r.left, writers, Some(source)) < |r.left|
    ensures v.finished != [] && v.finished[0] == r.left[i]
    ensures Sound(AsStore(ReadOne(r, i), writers))
    ensures Owns(AsStore(ReadOne(r, i), writers), source, v.(finished := v.finished[1..]))
  {
    var s := AsStore(r, writers);
    RemoveOldest(s, Some(source), source, v);
    RemoveStaysSound(s, i);
    var t := AsStore(ReadOne(r, i), writers);
    assert t == EvictOne(s, i);
    hide OldestFree, RemovedAt, Sound;
    OwnsStill(s.(files := RemovedAt(r.left, i)), t, source, v.(finished := v.finished[1..]));
  }

  /** Reading takes the source's finished files one by one, as many as it takes for a batch. */
  lemma {:induction false} ReadSeen(r: Reading, writers: map<nat, SourceWriter>, source: nat, batch: nat, v: Own)
    requires Sound(AsStore(r, writers)) && Owns(AsStore(r, writers), source, v)
    ensures
      var n := Spill.FilesRead(RecordsOf(v.finished), |r.records|, batch);
      Owns(AsStore(ReadOn(r, writers, source, batch), writers), source, v.(finished := v.finished[n..]))
    decreases |r.left|
  {
    hide Owns, Sound, OldestFree, RemovedAt;
    var i := OldestFree(r.left, writers, Some(source));
    NoneFreeNoneFinished(AsStore(r, writers), source, v);
    if i == |r.left| {
      assert v.finished[0..] == v.finished;
    } else {
      ReadOneSeen(r, writers, source, v, i);
      RemovedShorter(r.left, i);
      var next := ReadOne(r, i);
      var u := v.(finished := v.finished[1..]);
      assert RecordsOf(v.finished)[1..] == RecordsOf(u.finished);
      if |next.records| < batch {
        ReadSeen(next, writers, source, batch, u);
        var m := Spill.FilesRead(RecordsOf(u.finished), |next.records|, batch);
        assert v.finished[1..][m..] == v.finished[m + 1..];
      }
    }
  }

  lemma {:induction false} RemovedShorter(files: seq<File>, i: nat)
    requires i < |files|
    ensures |RemovedAt(files, i)| < |files|
  {
  }

  lemma {:induction false} NoneFreeNoneFinished(s: Store, source: nat, v: Own)
    requires Owns(s, source, v)
    ensures OldestFree(s.files, s.writers, Some(source)) == |s.files| <==> v.finished == []
  {
    SeesFinished(s, source, v);
    hide OldestFree, Owns;
  }

  lemma {:induction false} ReplaySeen(s: Store, source: nat, batch: nat, size: nat, name: nat, v: Own)
      returns (w: Own)
    requires Consistent(s) && Fresh(s, source, name) && Owns(s, source, v) && IsNewest(s, source, name)
    ensures Owns(Replayed(s, source, batch, size, name), source, w) && Seen(w) == Spill.Replayed(Seen(v), batch)
  {
    var t := Finalized(s, source, size, name);
    var u := FinalizeSeen(s, source, size, name, v);
    FinalizedSound(s, source, size, name);
    var r := Reading(t.files, [], t.total);
    assert AsStore(r, t.writers) == t;
    ReadSeen(r, t.writers, source, batch, u);
    var n := Spill.FilesRead(RecordsOf(u.finished), 0, batch);
    w := u.(finished := u.finished[n..]);
    assert RecordsOf(u.finished)[n..] == RecordsOf(w.finished);
    hide Owns, Finalized, ReadOn, Spill.Finalized, Spill.FilesRead, IsNewest;
  }

  lemma {:induction false} FinalizedSound(s: Store, source: nat, size: nat, name: nat)
    requires Consistent(s) && Fresh(s, source, name)
    ensures Sound(Finalized(s, source, size, name))
  {
    RotateKeeps(s, source, size, name);
    hide Rotated, Fresh;
  }

  /** Reading another source's files leaves this one's. */
  lemma {:induction false} ReadOther(r: Reading, writers: map<nat, SourceWriter>, other: nat, batch: nat, source: nat,
      v: Own)
    requires Sound(AsStore(r, writers)) && Owns(AsStore(r, writers), source, v) && other != source
    ensures Owns(AsStore(ReadOn(r, writers, other, batch), writers), source, v)
    decreases |r.left|
  {
    var s := AsStore(r, writers);
    var i := OldestFree(r.left, writers, Some(other));
    if i < |r.left| {
      RemovedStaysDistinct(r.left, i);
      RemoveStaysSound(s, i);
      var next := ReadOne(r, i);
      OwnsStill(s, AsStore(next, writers), source, v);
      assert AsStore(next, writers) == EvictOne(s, i);
      hide Owns, Sound, OldestFree, RemovedAt;
      if |next.records| < batch {
        ReadOther(next, writers, other, batch, source, v);
      }
    }
  }

  lemma {:induction false} ReplayOther(s: Store, other: nat, batch: nat, size: nat, name: nat, source: nat, v: Own)
    requires Consistent(s) && Fresh(s, other, name) && Owns(s, source, v) && other != source
    ensures Owns(Replayed(s, other, batch, size, name), source, v)
  {
    var t := Finalized(s, other, size, name);
    CloseOther(s, other, size, None, source, v);
    OpenOther(Closed(s, other, size, None), other, name, source, v);
    FinalizedSound(s, other, size, name);
    var r := Reading(t.files, [], t.total);
    assert AsStore(r, t.writers) == t;
    hide Owns, Closed, Opened, ReadOn;
    ReadOther(r, t.writers, other, batch, source, v);
  }

  // ---------------------------------------------------------------------- resets and reopens

  ghost predicate OnlyAbandons(moves: seq<Move>) {
    forall i :: 0 <= i < |moves| ==> moves[i].Did? && (moves[i].op.Reset? || moves[i].op.Damage?)
  }

  lemma {:induction false} CloseSeen(s: Store, source: nat, size: nat, cut: Option<nat>, v: Own)
      returns (moves: seq<Move>, w: Own)
    requires Sound(s) && Owns(s, source, v)
    ensures Owns(Closed(s, source, size, cut), source, w) && Leads(Seen(v), moves, Seen(w)) && OnlyAbandons(moves)
  {
    moves, w := [], v;
    if source in s.writers {
      CloseOwn(s, source, size, cut, v);
      var f := v.active.value;
      var g := f.(size := size, records := CutTo(f.records, cut));
      w := Own(v.finished + [g], None);
      var k, n := |v.finished|, |g.records|;
      var a := Spill.Tended(Seen(v), Spill.Reset);
      assert a == Spill.Files(RecordsOf(v.finished) + [f.records], None);
      assert f.records[..n] == g.records;
      assert RecordsOf(w.finished) == (RecordsOf(v.finished) + [f.records])[k := g.records];
      LeadsOnce(Seen(v), Did(Spill.Reset));
      LeadsOnce(a, Did(Spill.Damage(k, n)));
      LeadsOn(Seen(v), [Did(Spill.Reset)], a, [Did(Spill.Damage(k, n))], Seen(w));
      moves := [Did(Spill.Reset)] + [Did(Spill.Damage(k, n))];
      hide Closed, Owns;
    }
  }

  lemma {:induction false} AbandonSeen(s: Store, order: seq<nat>, sizes: nat -> nat, cuts: nat -> Option<nat>,
      source: nat, v: Own) returns (moves: seq<Move>, w: Own)
    requires Consistent(s) && Owns(s, source, v)
    ensures Owns(Abandoned(s, order, sizes, cuts), source, w) && Leads(Seen(v), moves, Seen(w)) && OnlyAbandons(moves)
  {
    moves, w := [], v;
    if order != [] {
      var n := |order| - 1;
      moves, w := AbandonSeen(s, order[..n], sizes, cuts, source, v);
      AbandonKeeps(s, order[..n], sizes, cuts);
      var t := Abandoned(s, order[..n], sizes, cuts);
      if order[n] == source {
        var more, u := CloseSeen(t, source, sizes(source), cuts(source), w);
        LeadsOn(Seen(v), moves, Seen(w), more, Seen(u));
        moves, w := moves + more, u;
      } else {
        CloseOther(t, order[n], sizes(order[n]), cuts(order[n]), source, w);
      }
      hide Owns, Leads, Closed;
    }
  }

  // ----------------------------------------------------------------------------- every run

  /** What an operation may do to the files of `source`. */
  ghost predicate MovesFor(op: Op, source: nat, moves: seq<Move>) {
    match op
    case WriteOp(x, record, _, _) =>
      if x != source then OnlyEvicts(moves)
      else moves != [] && moves[0] == Wrote(record) && forall i :: 1 <= i < |moves| ==>
             moves[i].Did? && (moves[i].op.Rotate? || moves[i].op.Evict?)
    case ReplayOp(x, batch, _, _) => moves == if x == source then [Gave(batch)] else []
    case _ => OnlyAbandons(moves)
  }

  lemma {:induction false} WriteSeen(s: Store, budget: nat, maxFile: nat, op: Op, source: nat, v: Own)
      returns (moves: seq<Move>, w: Own)
    requires Consistent(s) && CanStep(s, op) && NamesRise(s, op) && Owns(s, source, v) && op.WriteOp?
    ensures Owns(Step(s, budget, maxFile, op), source, w) && Leads(Seen(v), moves, Seen(w))
    ensures MovesFor(op, source, moves)
  {
    var t := Filled(s, maxFile, op.source, op.record, op.size, op.names);
    FillKeeps(s, maxFile, op.source, op.record, op.size, op.names);
    moves, w := [], v;
    if op.source == source {
      moves, w := FillSeen(s, maxFile, source, op.record, op.size, op.names, v);
    } else {
      FillOther(s, maxFile, op.source, op.record, op.size, op.names, source, v);
    }
    hide Filled, Owns, NamesWork, IsNewest, EvictAll;
    var more, u := EvictSeen(t, budget, source, w);
    LeadsOn(Seen(v), moves, Seen(w), more, Seen(u));
    hide Leads;
    moves, w := moves + more, u;
  }

  /** Each operation on the store is, for each source, a few operations on the list of its files. */
  lemma {:induction false} StepSeen(s: Store, budget: nat, maxFile: nat, op: Op, source: nat, v: Own)
      returns (moves: seq<Move>, w: Own)
    requires Consistent(s) && CanStep(s, op) && NamesRise(s, op) && Owns(s, source, v)
    ensures Owns(Step(s, budget, maxFile, op), source, w) && Leads(Seen(v), moves, Seen(w))
    ensures MovesFor(op, source, moves)
  {
    match op
    case WriteOp(_, _, _, _) => moves, w := WriteSeen(s, budget, maxFile, op, source, v);
    case ReplayOp(x, batch, size, name) =>
      if x == source {
        w := ReplaySeen(s, source, batch, size, name, v);
        LeadsOnce(Seen(v), Gave(batch));
        moves := [Gave(batch)];
      } else {
        ReplayOther(s, x, batch, size, name, source, v);
        moves, w := [], v;
      }
      hide Owns, Replayed, Spill.Replayed;
    case ResetOp(order, sizes, cuts) => moves, w := AbandonSeen(s, order, sizes, cuts, source, v);
    case ReopenOp(order, sizes, cuts) =>
      moves, w := AbandonSeen(s, order, sizes, cuts, source, v);
      ReopenCountsAsReset(s, order, sizes, cuts);
      hide Owns, Abandoned, Reopened;
  }

  lemma {:induction false} LeadsNowhere(v: Spill.Files<Record>)
    ensures Leads(v, [], v)
  {
  }

  lemma {:induction false} NoneOwned(source: nat)
    ensures Owns(Store([], map[], 0), source, Own([], None))
    ensures Leads(Spill.NoFiles(), Flatten<Move>([]), Seen(Own([], None)))
  {
  }

  lemma {:induction false} NextSeen(trace: seq<Store>, budget: nat, maxFile: nat, ops: seq<Op>, i: nat, source: nat,
      u: Own) returns (more: seq<Move>, v: Own)
    requires IsRun(trace, budget, maxFile, ops) && i < |ops| && i + 1 < |trace| && NamesRise(trace[i], ops[i])
    requires Owns(trace[i], source, u)
    ensures Owns(trace[i + 1], source, v) && Leads(Seen(u), more, Seen(v)) && MovesFor(ops[i], source, more)
  {
    hide CanStep, Step, Owns, Leads, NamesRise, Consistent, MovesFor;
    TotalIsExact(trace, budget, maxFile, ops, i);
    more, v := StepSeen(trace[i], budget, maxFile, ops[i], source, u);
  }

  /**
   In every run on an empty store whose file names rise, each source's files are at every moment what
   the operations on its list of files, in the order of the run, make of it.
   */
  lemma {:induction false} RunsAreSeen(trace: seq<Store>, budget: nat, maxFile: nat, ops: seq<Op>, i: nat, source: nat)
      returns (moves: seq<seq<Move>>, v: Own)
    requires IsRun(trace, budget, maxFile, ops) && trace[0] == Store([], map[], 0) && i < |trace|
    requires forall j :: 0 <= j < |ops| ==> NamesRise(trace[j], ops[j])
    ensures Owns(trace[i], source, v) && Leads(Spill.NoFiles(), Flatten(moves), Seen(v))
    ensures |moves| == i && forall j :: 0 <= j < i ==> MovesFor(ops[j], source, moves[j])
  {
    hide Owns, Leads, NamesRise, MovesFor, Flatten, CanStep, Step;
    if i == 0 {
      moves, v := [], Own([], None);
      NoneOwned(source);
    } else {
      var before, u := RunsAreSeen(trace, budget, maxFile, ops, i - 1, source);
      var more;
      more, v := NextSeen(trace, budget, maxFile, ops, i - 1, source, u);
      LeadsOn(Spill.NoFiles(), Flatten(before), Seen(u), more, Seen(v));
      FlattenSnoc(before, more);
      moves := before + [more];
    }
  }
}
