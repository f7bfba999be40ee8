/**
 Sizes of the overflow store's active files: what a writer has counted is what its file holds, and a
 file is finished by the very write that brings it to its size.
 */
module OverflowSizes {
  import opened Common
  import opened OverflowRecords
  import opened Overflow

  /** Each writer has counted exactly the bytes of the records in its file. */
  ghost predicate Counted(s: Store) {
    forall f :: f in s.files && IsCurrent(s.writers, f) ==> s.writers[f.source].bytesWritten == |Stream(f.records)|
  }

  ghost predicate Below(s: Store, maxFile: nat) {
    forall source :: source in s.writers ==> s.writers[source].bytesWritten < maxFile
  }

  lemma {:induction false} StreamGrows(rs: seq<Record>, r: Record)
    ensures |Stream(rs + [r])| == |Stream(rs)| + |EncodeRecord(r)|
  {
    hide EncodeRecord;
    if rs == [] {
      assert rs + [r] == [r] && [r][1..] == [];
    } else {
      StreamGrows(rs[1..], r);
      assert (rs + [r])[1..] == rs[1..] + [r];
    }
  }

  /** Fewer files and the same writers. */
  lemma {:induction false} FewerStayCounted(s: Store, t: Store)
    requires Counted(s) && t.writers == s.writers && forall f :: f in t.files ==> f in s.files
    ensures Counted(t)
  {
  }

  lemma {:induction false} OpenCounts(s: Store, source: nat, name: nat)
    requires Counted(s) && source !in s.writers && Fresh(s, source, name)
    ensures Counted(Opened(s, source, name))
  {
    var t := Opened(s, source, name);
    forall f | f in t.files && IsCurrent(t.writers, f)
      ensures t.writers[f.source].bytesWritten == |Stream(f.records)|
    {
      if f in s.files {
        assert f.source != source by {
          var i :| 0 <= i < |s.files| && s.files[i] == f;
          assert !HasPath(s.files[i], source, name);
        }
      }
    }
  }

  lemma {:induction false} RecordCounts(s: Store, source: nat, record: Record)
    requires Counted(s) && source in s.writers
    ensures Counted(Recorded(s, source, record))
  {
    hide EncodeRecord, Stream;
    var t := Recorded(s, source, record);
    forall f | f in t.files && IsCurrent(t.writers, f)
      ensures t.writers[f.source].bytesWritten == |Stream(f.records)|
    {
      var i :| 0 <= i < |t.files| && t.files[i] == f;
      var g := s.files[i];
      assert g in s.files && IsCurrent(s.writers, g);
      StreamGrows(g.records, record);
    }
  }

  lemma {:induction false} CloseCounts(s: Store, source: nat, size: nat, cut: Option<nat>)
    requires Counted(s)
    ensures Counted(Closed(s, source, size, cut))
  {
    hide Stream, CutTo;
    var t := Closed(s, source, size, cut);
    if source in s.writers {
      forall f | f in t.files && IsCurrent(t.writers, f)
        ensures t.writers[f.source].bytesWritten == |Stream(f.records)|
      {
        var i :| 0 <= i < |t.files| && t.files[i] == f;
        assert s.files[i] in s.files && s.files[i] == f;
      }
    }
  }

  lemma {:induction false} RotateCounts(s: Store, source: nat, size: nat, name: nat)
    requires Counted(s) && Fresh(s, source, name)
    ensures Counted(Rotated(s, source, size, name))
  {
    if source in s.writers {
      CloseCounts(s, source, size, None);
      ClosedPaths(s.files, source, s.writers[source].name, size, None);
      OpenCounts(Closed(s, source, size, None), source, name);
    }
  }

  lemma {:induction false} EvictionLeavesFewer(s: Store, budget: nat)
    ensures
      var t := EvictAll(s, budget);
      t.writers == s.writers && forall f :: f in t.files ==> f in s.files
    decreases |s.files|
  {
    var i := OldestFree(s.files, s.writers, None);
    if s.total > budget && i < |s.files| {
      EvictionLeavesFewer(EvictOne(s, i), budget);
    }
  }

  lemma {:induction false} ReadingLeavesFewer(r: Reading, writers: map<nat, SourceWriter>, source: nat, batch: nat)
    ensures forall f :: f in ReadOn(r, writers, source, batch).left ==> f in r.left
    decreases |r.left|
  {
    var i := OldestFree(r.left, writers, Some(source));
    if i < |r.left| && |ReadOne(r, i).records| < batch {
      ReadingLeavesFewer(ReadOne(r, i), writers, source, batch);
    }
  }

  lemma {:induction false} AppendCounts(s: Store, source: nat, record: Record, name: nat)
    requires Counted(s) && CanOpen(s, source, name)
    ensures Counted(Appended(s, source, record, name))
  {
    hide Counted;
    if source in s.writers {
      RecordCounts(s, source, record);
    } else {
      OpenCounts(s, source, name);
      RecordCounts(Opened(s, source, name), source, record);
    }
  }

  /** What a write leaves in its source's writer: all that is in the file, or nothing in a new one. */
  lemma {:induction false} FillSizes(s: Store, maxFile: nat, source: nat, record: Record, size: nat, names: (nat, nat))
    requires Counted(s) && Below(s, maxFile) && NamesWork(s, source, names) && Consistent(s) && maxFile > 0
    ensures
      var t := Filled(s, maxFile, source, record, size, names);
      Counted(t) && Below(t, maxFile)
  {
    AppendCounts(s, source, record, names.0);
    AppendKeeps(s, source, record, names.0);
    hide Counted, EncodeRecord, Consistent, Fresh;
    var a := Appended(s, source, record, names.0);
    RotateCounts(a, source, size, names.1);
  }

  lemma {:induction false} ReplayCounts(s: Store, source: nat, batch: nat, size: nat, name: nat)
    requires Counted(s) && Fresh(s, source, name)
    ensures Counted(Replayed(s, source, batch, size, name))
  {
    RotateCounts(s, source, size, name);
    var t := Finalized(s, source, size, name);
    ReadingLeavesFewer(Reading(t.files, [], t.total), t.writers, source, batch);
    FewerStayCounted(t, Replayed(s, source, batch, size, name));
  }

  lemma {:induction false} AbandonSizes(s: Store, maxFile: nat, order: seq<nat>, sizes: nat -> nat,
      cuts: nat -> Option<nat>)
    requires Counted(s) && Below(s, maxFile)
    ensures Counted(Abandoned(s, order, sizes, cuts)) && Below(Abandoned(s, order, sizes, cuts), maxFile)
  {
    if order != [] {
      var n := |order| - 1;
      AbandonSizes(s, maxFile, order[..n], sizes, cuts);
      CloseCounts(Abandoned(s, order[..n], sizes, cuts), order[n], sizes(order[n]), cuts(order[n]));
    }
  }

  lemma {:induction false} StepSizes(s: Store, budget: nat, maxFile: nat, op: Op)
    requires Consistent(s) && CanStep(s, op) && Counted(s) && Below(s, maxFile) && maxFile > 0
    ensures Counted(Step(s, budget, maxFile, op)) && Below(Step(s, budget, maxFile, op), maxFile)
  {
    hide Counted, Consistent, Abandoned, EvictAll, ReadOn;
    match op
    case WriteOp(source, record, size, names) =>
      FillSizes(s, maxFile, source, record, size, names);
      var t := Filled(s, maxFile, source, record, size, names);
      EvictionLeavesFewer(t, budget);
      FewerStayCounted(t, EvictAll(t, budget));
    case ReplayOp(source, batch, size, name) =>
      ReplayCounts(s, source, batch, size, name);
    case ResetOp(order, sizes, cuts) => AbandonSizes(s, maxFile, order, sizes, cuts);
    case ReopenOp(order, sizes, cuts) => NoneWriting(Reopened(s, order, sizes, cuts));
  }

  lemma {:induction false} NoneWriting(s: Store)
    requires s.writers == map[]
    ensures Counted(s)
  {
  }

  /**
   In every run of writes, replays, resets and restarts from a state with no active file, each active
   file is smaller than the file size, and its writer has counted exactly the bytes in it.
   */
  lemma {:induction false} ActiveFilesStaySmall(trace: seq<Store>, budget: nat, maxFile: nat, ops: seq<Op>, i: nat)
    requires IsRun(trace, budget, maxFile, ops) && trace[0].writers == map[] && i < |trace| && maxFile > 0
    ensures Counted(trace[i]) && Below(trace[i], maxFile)
  {
    if i > 0 {
      hide Counted, Below, CanStep, Step, Consistent;
      ActiveFilesStaySmall(trace, budget, maxFile, ops, i - 1);
      TotalIsExact(trace, budget, maxFile, ops, i - 1);
      StepSizes(trace[i - 1], budget, maxFile, ops[i - 1]);
    } else {
      NoneWriting(trace[0]);
    }
  }

  /** A write finishes its file, and opens the next one, exactly when it brings the file to its size. */
  lemma {:induction false} FinishesExactlyWhen(s: Store, budget: nat, maxFile: nat, source: nat, record: Record,
      size: nat, names: (nat, nat), f: File)
    requires Consistent(s) && Counted(s) && NamesWork(s, source, names)
    requires f in s.files && source in s.writers && HasPath(f, source, s.writers[source].name)
    ensures
      var t := Written(s, budget, maxFile, source, record, size, names);
      && source in t.writers
      && (t.writers[source].name == names.1 <==> |Stream(f.records + [record])| >= maxFile)
      && (t.writers[source].name != names.1 ==> t.writers[source].name == f.name)
  {
    hide Stream, EncodeRecord, EvictAll, FreeSize;
    StreamGrows(f.records, record);
    EvictionLeavesFewer(Filled(s, maxFile, source, record, size, names), budget);
    assert IsCurrent(s.writers, f);
    var i :| 0 <= i < |s.files| && s.files[i] == f;
    assert HasPath(s.files[i], source, f.name);
  }
}
