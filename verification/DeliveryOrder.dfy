/**
 What a session stores follows the file, stream by stream; and with a single stream, or without
 aggregation, it follows the file as a whole.
 */
module DeliveryOrder {
  import opened Common
  import opened LogFiles
  import opened EntryAssembly
  import opened StreamAssembly
  import opened StreamAssemblyRuns
  import opened DeliveryProtocol
  import opened DeliverySafety

  /** A line of the given stream read in this session. */
  ghost predicate ReadHere(u: Setup, from: nat, to: nat, st: LogStream, h: Held)
    requires to <= |u.file|
  {
    exists k :: from <= k < to && u.file[k].stream == st && h == Line(u, k)
  }

  ghost predicate OnPath(u: Setup, from: nat, to: nat, st: LogStream, path: seq<Held>)
    requires to <= |u.file|
  {
    Ascending(path) && forall h :: h in path ==> ReadHere(u, from, to, st, h)
  }

  /** Each stream's stored lines, then its held lines, ascend along the lines read this session. */
  ghost predicate FollowsStreams(u: Setup, s: Core) {
    && s.origin <= s.position <= |u.file|
    && forall st :: OnPath(u, s.origin, s.position, st, EmittedBy(s.log, st) + HeldBy(s.slots, st))
  }

  // ---------------------------------------------------------------- sequences of lines

  lemma {:induction false} AscendingDropMiddle(a: seq<Held>, b: seq<Held>, c: seq<Held>)
    requires Ascending(a + (b + c))
    ensures Ascending(a + c) && Ascending((a + b) + c)
  {
    var all := a + (b + c);
    var some := a + c;
    forall i, j | 0 <= i < j < |some|
      ensures some[i].ctx.start < some[j].ctx.start
    {
      var i' := if i < |a| then i else i + |b|;
      var j' := if j < |a| then j else j + |b|;
      assert all[i'] == some[i] && all[j'] == some[j];
    }
    assert (a + b) + c == all;
  }

  lemma {:induction false} PathBelow(u: Setup, from: nat, to: nat, st: LogStream, h: Held)
    requires Proper(u) && to <= |u.file| && ReadHere(u, from, to, st, h)
    ensures StartOf(u.file, from) <= h.ctx.start < StartOf(u.file, to)
  {
    var k :| from <= k < to && u.file[k].stream == st && h == Line(u, k);
    StartsOrder(u.file, k, to);
    StartsOrder(u.file, from, k);
  }

  /** A path extended by lines read after it is a path. */
  lemma {:induction false} PathExtends(u: Setup, from: nat, at: nat, to: nat, st: LogStream, path: seq<Held>,
      more: seq<Held>)
    requires Proper(u) && from <= at <= to <= |u.file|
    requires OnPath(u, from, at, st, path) && OnPath(u, at, to, st, more)
    ensures OnPath(u, from, to, st, path + more)
  {
    forall h | h in path
      ensures h.ctx.start < StartOf(u.file, at) && ReadHere(u, from, to, st, h)
    {
      PathBelow(u, from, at, st, h);
      var k :| from <= k < at && u.file[k].stream == st && h == Line(u, k);
      assert from <= k < to;
    }
    forall h | h in more
      ensures StartOf(u.file, at) <= h.ctx.start && ReadHere(u, from, to, st, h)
    {
      PathBelow(u, at, to, st, h);
      var k :| at <= k < to && u.file[k].stream == st && h == Line(u, k);
      assert from <= k < to;
    }
    AscendAcross(path, more, StartOf(u.file, at));
  }

  lemma {:induction false} ArrivalsOnPath(u: Setup, from: nat, times: seq<int>, st: LogStream)
    requires Proper(u) && from + |times| <= |u.file|
    ensures OnPath(u, from, from + |times|, st, ArrivedOn(Arrivals(u, from, times), st))
  {
    var a := Arrivals(u, from, times);
    ArrivalsInFileOrder(u, from, times);
    ArrivedAscending(a, st);
    ArrivedMembers(a, st);
    forall h | h in ArrivedOn(a, st)
      ensures ReadHere(u, from, from + |times|, st, h)
    {
      var i :| 0 <= i < |a| && a[i].stream == st && a[i].held == h;
      assert from <= from + i < from + |times| && h == Line(u, from + i);
    }
  }

  /** What the non-aggregating path makes of one line. */
  function KeptOne(a: Arrival): (r: seq<Emission>)
    ensures AllNonempty(r)
  {
    if IsBlank(a.held.line) then [] else [Emission(a.stream, [a.held])]
  }

  lemma {:induction false} KeptSnoc(u: Setup, from: nat, times: seq<int>)
    requires times != [] && from + |times| <= |u.file|
    ensures
      var n := |times| - 1;
      KeptGroups(Arrivals(u, from, times)) ==
      KeptGroups(Arrivals(u, from, times[..n])) + KeptOne(Arrival(u.file[from + n].stream, Line(u, from + n), times[n]))
  {
    var n := |times| - 1;
    assert Arrivals(u, from, times)[..n] == Arrivals(u, from, times[..n]);
  }

  lemma {:induction false} OneOnPath(u: Setup, k: nat, now: int, st: LogStream)
    requires k < |u.file|
    ensures OnPath(u, k, k + 1, st, EmittedBy(KeptOne(Arrival(u.file[k].stream, Line(u, k), now)), st))
  {
    EmittedByOne(KeptOne(Arrival(u.file[k].stream, Line(u, k), now)), st);
    if u.file[k].stream == st {
      assert ReadHere(u, k, k + 1, st, Line(u, k));
    }
  }

  /** The non-blank lines of an arrival list, stream by stream. */
  lemma {:induction false} KeptOnPath(u: Setup, from: nat, times: seq<int>, st: LogStream)
    requires Proper(u) && from + |times| <= |u.file|
    ensures OnPath(u, from, from + |times|, st, EmittedBy(KeptGroups(Arrivals(u, from, times)), st))
  {
    if times == [] {
      KeptNothing(u, from);
      assert EmittedBy([], st) == [];
    } else {
      var n := |times| - 1;
      KeptOnPath(u, from, times[..n], st);
      KeptOneMore(u, from, times, st);
    }
  }

  lemma {:induction false} KeptOneMore(u: Setup, from: nat, times: seq<int>, st: LogStream)
    requires Proper(u) && from + |times| <= |u.file| && times != []
    requires OnPath(u, from, from + |times| - 1, st, EmittedBy(KeptGroups(Arrivals(u, from, times[..|times| - 1])), st))
    ensures OnPath(u, from, from + |times|, st, EmittedBy(KeptGroups(Arrivals(u, from, times)), st))
  {
    hide *;
    var n := |times| - 1;
    var before := KeptGroups(Arrivals(u, from, times[..n]));
    var added := KeptOne(Arrival(u.file[from + n].stream, Line(u, from + n), times[n]));
    KeptSnoc(u, from, times);
    OneOnPath(u, from + n, times[n], st);
    EmittedByAppend(before, added, st);
    PathExtends(u, from, from + n, from + n + 1, st, EmittedBy(before, st), EmittedBy(added, st));
  }

  lemma {:induction false} KeptNothing(u: Setup, from: nat)
    requires from <= |u.file|
    ensures KeptGroups(Arrivals(u, from, [])) == []
  {
    assert Arrivals(u, from, []) == [];
  }

  // ------------------------------------------------------------------ storing steps

  lemma {:induction false} StoreFollows(u: Setup, s: Core, groups: seq<Emission>, outcome: StoreOutcome)
    requires AllNonempty(groups) && s.origin <= s.position <= |u.file|
    requires forall st :: OnPath(u, s.origin, s.position, st,
      EmittedBy(s.log, st) + (EmittedBy(groups, st) + HeldBy(s.slots, st)))
    ensures FollowsStreams(u, Store(u, s, groups, outcome))
  {
    var r := Store(u, s, groups, outcome);
    forall st
      ensures OnPath(u, s.origin, s.position, st, EmittedBy(r.log, st) + HeldBy(r.slots, st))
    {
      var a, b, c := EmittedBy(s.log, st), EmittedBy(groups, st), HeldBy(s.slots, st);
      EmittedByAppend(s.log, groups, st);
      AscendingDropMiddle(a, b, c);
      assert forall h :: h in a + c || h in (a + b) + c ==> h in a + (b + c);
    }
  }

  lemma {:induction false} PlainReadFollows(u: Setup, s: Core, times: seq<int>, st: LogStream)
    requires Proper(u) && FollowsStreams(u, s) && s.position + |times| <= |u.file| && s.slots == InitialSlots
    ensures
      var kept := EmittedBy(KeptGroups(Arrivals(u, s.position, times)), st);
      OnPath(u, s.origin, s.position + |times|, st, EmittedBy(s.log, st) + (kept + HeldBy(s.slots, st)))
  {
    KeptOnPath(u, s.position, times, st);
    var a, h, kept := EmittedBy(s.log, st), HeldBy(s.slots, st),
      EmittedBy(KeptGroups(Arrivals(u, s.position, times)), st);
    assert h == [];
    assert a + (kept + h) == (a + h) + kept;
    hide OnPath, EmittedBy, HeldBy, KeptGroups;
    PathExtends(u, s.origin, s.position, s.position + |times|, st, a + h, kept);
  }

  lemma {:induction false} AssembledReadFollows(u: Setup, s: Core, times: seq<int>, st: LogStream)
    requires Proper(u) && FollowsStreams(u, s) && s.position + |times| <= |u.file| && u.assembly.Some?
    ensures
      var p := FeedAll(u.assembly.value, s.slots, Arrivals(u, s.position, times));
      OnPath(u, s.origin, s.position + |times|, st,
        EmittedBy(s.log, st) + (EmittedBy(p.emissions, st) + HeldBy(p.slots, st)))
  {
    var arrivals := Arrivals(u, s.position, times);
    var a, h, more := EmittedBy(s.log, st), HeldBy(s.slots, st), ArrivedOn(arrivals, st);
    assert a + (h + more) == (a + h) + more;
    hide OnPath, EmittedBy, HeldBy, ArrivedOn, FeedAll;
    FeedAllConserves(u.assembly.value, s.slots, arrivals, st);
    ArrivalsOnPath(u, s.position, times, st);
    PathExtends(u, s.origin, s.position, s.position + |times|, st, a + h, more);
  }

  lemma {:induction false} ReadFollows(u: Setup, s: Core, times: seq<int>, outcome: StoreOutcome)
    requires Proper(u) && FollowsStreams(u, s) && s.position + |times| <= |u.file|
    requires u.assembly.None? ==> s.slots == InitialSlots
    ensures FollowsStreams(u, AfterRead(u, s, times, outcome))
  {
    hide OnPath, EmittedBy, HeldBy, FollowsStreams, FeedAll;
    var p := Taken(u, s.slots, Arrivals(u, s.position, times));
    var r := AfterTaking(s, p, |times|);
    forall st
      ensures OnPath(u, r.origin, r.position, st,
        EmittedBy(r.log, st) + (EmittedBy(p.emissions, st) + HeldBy(r.slots, st)))
    {
      if u.assembly.None? {
        PlainReadFollows(u, s, times, st);
      } else {
        AssembledReadFollows(u, s, times, st);
      }
    }
    assert r.origin <= r.position by {
      OriginFirst(u, s);
    }
    StoreFollows(u, r, p.emissions, outcome);
  }

  lemma {:induction false} OriginFirst(u: Setup, s: Core)
    requires FollowsStreams(u, s)
    ensures s.origin <= s.position
  {
  }

  lemma {:induction false} CollectFollows(u: Setup, s: Core, mode: DrainMode, outcome: StoreOutcome)
    requires FollowsStreams(u, s) && u.assembly.Some? && Sound(u.assembly.value, s.slots)
    ensures FollowsStreams(u, Collected(u, s, mode, outcome))
  {
    var c := u.assembly.value;
    var p := Collect(c, s.slots, mode);
    var r := AfterTaking(s, p, 0);
    forall st
      ensures OnPath(u, r.origin, r.position, st,
        EmittedBy(r.log, st) + (EmittedBy(p.emissions, st) + HeldBy(r.slots, st)))
    {
      CollectConserves(c, s.slots, mode, st);
    }
    StoreFollows(u, r, p.emissions, outcome);
  }

  lemma {:induction false} RestartFollows(u: Setup, s: Core, end: nat)
    requires end <= |u.file|
    ensures FollowsStreams(u, Restarted(u, s, end))
  {
    var r := Restarted(u, s, end);
    forall st
      ensures EmittedBy(r.log, st) + HeldBy(r.slots, st) == []
    {
    }
  }

  lemma {:induction false} StepFollows(u: Setup, s: Core, step: Step)
    requires Proper(u) && Inv(u, s) && Enabled(u, s, step) && FollowsStreams(u, s)
    ensures FollowsStreams(u, Next(u, s, step))
  {
    hide OnPath;
    match step
    case Read(_, times, outcome) => ReadFollows(u, s, times, outcome);
    case IdleCheck(now, outcome) => CollectFollows(u, s, OnTimeout(now), outcome);
    case FlushAll(outcome) => CollectFollows(u, s.(closing := true), OnFlush, outcome);
    case Drain(_, _) =>
    case DrainAndReplay(_, _, _) =>
    case Tend(_) =>
    case SaveCheckpoint(_) =>
    case Restart(end) => RestartFollows(u, s, end);
  }

  // ------------------------------------------------------- order of the log as a whole

  /** All stored lines, in the order stored. */
  function LogLines(log: seq<Emission>): seq<Held> {
    if log == [] then [] else LogLines(log[..|log| - 1]) + log[|log| - 1].lines
  }

  lemma {:induction false} LogLinesAppend(a: seq<Emission>, b: seq<Emission>)
    ensures LogLines(a + b) == LogLines(a) + LogLines(b)
  {
    if b == [] {
      assert a + b == a;
    } else {
      var n := |b| - 1;
      assert (a + b)[..|a + b| - 1] == a + b[..n];
      LogLinesAppend(a, b[..n]);
    }
  }

  lemma {:induction false} LogLinesMembers(log: seq<Emission>, i: nat)
    requires i < |log|
    ensures forall h :: h in log[i].lines ==> h in LogLines(log)
  {
    if i < |log| - 1 {
      LogLinesMembers(log[..|log| - 1], i);
    }
  }

  /** Along an ascending log, an earlier group's lines all start before a later group's. */
  lemma {:induction false} EarlierGroupsFirst(log: seq<Emission>, i: nat, j: nat, h: Held, h': Held)
    requires Ascending(LogLines(log)) && i < j < |log| && h in log[i].lines && h' in log[j].lines
    ensures h.ctx.start < h'.ctx.start
  {
    var front, back := log[..j], log[j..];
    assert log == front + back;
    LogLinesAppend(front, back);
    LogLinesMembers(front, i);
    LogLinesMembers(back, 0);
    var a, b := LogLines(front), LogLines(back);
    var x :| 0 <= x < |a| && a[x] == h;
    var y :| 0 <= y < |b| && b[y] == h';
    assert (a + b)[x] == h && (a + b)[|a| + y] == h';
  }

  lemma {:induction false} LogLinesOneStream(log: seq<Emission>, st: LogStream)
    requires forall i :: 0 <= i < |log| ==> log[i].stream == st
    ensures LogLines(log) == EmittedBy(log, st)
  {
    if log != [] {
      LogLinesOneStream(log[..|log| - 1], st);
    }
  }

  /** No aggregation, or a file written by a single stream. */
  ghost predicate KeepsFileOrder(u: Setup) {
    u.assembly.None? || forall j, k :: 0 <= j < |u.file| && 0 <= k < |u.file| ==> u.file[j].stream == u.file[k].stream
  }

  /** The log ascends along the file. */
  ghost predicate FollowsFile(u: Setup, s: Core)
    requires s.position <= |u.file|
  {
    Ascending(LogLines(s.log)) && forall h :: h in LogLines(s.log) ==> AmongFirst(u, s.position, h)
  }

  lemma {:induction false} GroupsReadHere(u: Setup, s: Core, i: nat, h: Held)
    requires FollowsStreams(u, s) && i < |s.log| && h in s.log[i].lines
    ensures ReadHere(u, s.origin, s.position, s.log[i].stream, h)
  {
    InEmittedBy(s.log, i);
    var st := s.log[i].stream;
    assert h in EmittedBy(s.log, st) + HeldBy(s.slots, st);
  }

  /** With one stream, following the stream is following the file. */
  lemma {:induction false} OneStreamFollowsFile(u: Setup, s: Core)
    requires u.assembly.Some? && KeepsFileOrder(u) && FollowsStreams(u, s) && AllNonempty(s.log)
    ensures FollowsFile(u, s)
  {
    if s.log == [] {
      return;
    }
    var st := s.log[0].stream;
    forall i | 0 <= i < |s.log|
      ensures s.log[i].stream == st
    {
      GroupsReadHere(u, s, i, s.log[i].lines[0]);
      GroupsReadHere(u, s, 0, s.log[0].lines[0]);
    }
    LogLinesOneStream(s.log, st);
    DisjointHalves(EmittedBy(s.log, st), HeldBy(s.slots, st));
    var path := EmittedBy(s.log, st) + HeldBy(s.slots, st);
    forall i, j | 0 <= i < j < |EmittedBy(s.log, st)|
      ensures EmittedBy(s.log, st)[i].ctx.start < EmittedBy(s.log, st)[j].ctx.start
    {
      assert path[i] == EmittedBy(s.log, st)[i] && path[j] == EmittedBy(s.log, st)[j];
    }
    forall h | h in LogLines(s.log)
      ensures AmongFirst(u, s.position, h)
    {
      assert h in path;
      assert ReadHere(u, s.origin, s.position, st, h);
    }
  }

  /** An ascending list of lines read from `from` on, all among the first `to`. */
  ghost predicate AscendsFrom(u: Setup, from: nat, to: nat, lines: seq<Held>)
    requires from <= to <= |u.file|
  {
    Ascending(lines) && forall h :: h in lines ==> StartOf(u.file, from) <= h.ctx.start && AmongFirst(u, to, h)
  }

  lemma {:induction false} AscentGoesOn(u: Setup, from: nat, at: nat, to: nat, lines: seq<Held>, more: seq<Held>)
    requires Proper(u) && from <= at <= to <= |u.file|
    requires AscendsFrom(u, from, at, lines) && AscendsFrom(u, at, to, more)
    ensures AscendsFrom(u, from, to, lines + more)
  {
    forall h | h in lines
      ensures h.ctx.start < StartOf(u.file, at) && AmongFirst(u, to, h)
    {
      LineEndsAreBoundaries(u, at, h);
      var k :| 0 <= k < at && h == Line(u, k);
      assert 0 <= k < to;
    }
    StartsOrder(u.file, from, at);
    AscendAcross(lines, more, StartOf(u.file, at));
  }

  lemma {:induction false} KeptAscend(u: Setup, from: nat, times: seq<int>)
    requires Proper(u) && from + |times| <= |u.file|
    ensures AscendsFrom(u, from, from + |times|, LogLines(KeptGroups(Arrivals(u, from, times))))
  {
    if times == [] {
      KeptNothing(u, from);
      assert LogLines([]) == [];
    } else {
      var n := |times| - 1;
      KeptAscend(u, from, times[..n]);
      KeptAscendMore(u, from, times);
    }
  }

  lemma {:induction false} KeptAscendMore(u: Setup, from: nat, times: seq<int>)
    requires Proper(u) && from + |times| <= |u.file| && times != []
    requires AscendsFrom(u, from, from + |times| - 1, LogLines(KeptGroups(Arrivals(u, from, times[..|times| - 1]))))
    ensures AscendsFrom(u, from, from + |times|, LogLines(KeptGroups(Arrivals(u, from, times))))
  {
    hide *;
    var n := |times| - 1;
    var before := KeptGroups(Arrivals(u, from, times[..n]));
    var added := KeptOne(Arrival(u.file[from + n].stream, Line(u, from + n), times[n]));
    KeptSnoc(u, from, times);
    OneAscends(u, from + n, times[n]);
    LogLinesAppend(before, added);
    AscentGoesOn(u, from, from + n, from + n + 1, LogLines(before), LogLines(added));
  }

  lemma {:induction false} OneAscends(u: Setup, k: nat, now: int)
    requires k < |u.file|
    ensures AscendsFrom(u, k, k + 1, LogLines(KeptOne(Arrival(u.file[k].stream, Line(u, k), now))))
  {
    var added := KeptOne(Arrival(u.file[k].stream, Line(u, k), now));
    assert AmongFirst(u, k + 1, Line(u, k));
    assert LogLines([]) == [];
    if added != [] {
      assert added[..0] == [];
      assert LogLines(added) == [Line(u, k)];
    }
  }

  lemma {:induction false} PlainReadFollowsFile(u: Setup, s: Core, times: seq<int>, outcome: StoreOutcome)
    requires Proper(u) && u.assembly.None? && s.position + |times| <= |u.file| && FollowsFile(u, s)
    ensures FollowsFile(u, AfterRead(u, s, times, outcome))
  {
    var groups := KeptGroups(Arrivals(u, s.position, times));
    var to := s.position + |times|;
    KeptAscend(u, s.position, times);
    LogLinesAppend(s.log, groups);
    assert AscendsFrom(u, 0, s.position, LogLines(s.log));
    AscentGoesOn(u, 0, s.position, to, LogLines(s.log), LogLines(groups));
    AscentGoesOn(u, 0, s.position, to, LogLines(s.log), []);
    assert LogLines(s.log) + [] == LogLines(s.log);
    var r := AfterRead(u, s, times, outcome);
    assert r.log == s.log || r.log == s.log + groups;
  }

  /** The log follows the file along every step when there is one stream or no aggregation. */
  lemma {:induction false} StepFollowsFile(u: Setup, s: Core, step: Step)
    requires Proper(u) && KeepsFileOrder(u) && Enabled(u, s, step) && s.position <= |u.file|
    requires u.assembly.None? && FollowsFile(u, s)
    ensures FollowsFile(u, Next(u, s, step))
  {
    hide FollowsFile;
    match step
    case Read(_, times, outcome) => PlainReadFollowsFile(u, s, times, outcome);
    case Drain(handled, release) => SameLogFollows(u, s, AfterDrain(s, handled, release));
    case DrainAndReplay(_, _, _) => SameLogFollows(u, s, Next(u, s, step));
    case Tend(_) => SameLogFollows(u, s, Next(u, s, step));
    case SaveCheckpoint(saved) => SameLogFollows(u, s, AfterSave(u, s, saved));
    case Restart(end) => EmptyLogFollows(u, Restarted(u, s, end));
  }

  lemma {:induction false} SameLogFollows(u: Setup, s: Core, r: Core)
    requires s.position <= |u.file| && FollowsFile(u, s) && r.log == s.log && r.position == s.position
    ensures FollowsFile(u, r)
  {
  }

  lemma {:induction false} EmptyLogFollows(u: Setup, r: Core)
    requires r.position <= |u.file| && r.log == []
    ensures FollowsFile(u, r)
  {
  }
}
