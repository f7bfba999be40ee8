/** Assembling a finite batch of lines into events, as the sampler does. */
module BatchAssembly {
  import opened Common
  import opened EntryAssembly
  import opened EventCuts

  /** The sampler's settings: a timeout of a second at least. */
  function Settings(m: AssemblerConfig): (c: AssemblerConfig)
    ensures c.maxLines > 0
  {
    Configured(m.isStart, m.maxLines, Max(m.timeout, 1_000))
  }

  /** The batch as it arrives: line `i` at `clock(i)`, under the context the sampler gives it. */
  function Feeding(lines: seq<bytes>, clock: nat -> int): (r: seq<Op>)
    ensures |r| == |lines|
    ensures forall i :: 0 <= i < |r| ==> r[i] == LineOp(Held(lines[i], LineContext(i, i + 1, 0)), clock(i))
  {
    seq(|lines|, i requires 0 <= i < |lines| => LineOp(Held(lines[i], LineContext(i, i + 1, 0)), clock(i)))
  }

  function Stamped(lines: seq<bytes>, clock: nat -> int): (r: seq<Arrived>)
    ensures |r| == |lines|
    ensures forall i :: 0 <= i < |r| ==> r[i] == Arrived(Held(lines[i], LineContext(i, i + 1, 0)), clock(i), false)
  {
    seq(|lines|, i requires 0 <= i < |lines| => Arrived(Held(lines[i], LineContext(i, i + 1, 0)), clock(i), false))
  }

  function Bodies(events: seq<seq<Held>>): (r: seq<bytes>)
    ensures |r| == |events| && forall i :: 0 <= i < |r| ==> r[i] == Join(Lines(events[i]))
  {
    seq(|events|, i requires 0 <= i < |events| => Join(Lines(events[i])))
  }

  lemma {:induction false} FeedingIsSeen(c: AssemblerConfig, lines: seq<bytes>, clock: nat -> int, n: nat)
    requires n <= |lines|
    ensures SeenOf(c, Feeding(lines, clock)[..n]) == Seen(Stamped(lines, clock)[..n], false)
  {
    if n > 0 {
      FeedingIsSeen(c, lines, clock, n - 1);
      assert Feeding(lines, clock)[..n][..n - 1] == Feeding(lines, clock)[..n - 1];
      assert Stamped(lines, clock)[..n] == Stamped(lines, clock)[..n - 1] + [Stamped(lines, clock)[n - 1]];
    }
  }

  lemma {:induction false} RunGrows(c: AssemblerConfig, ops: seq<Op>, n: nat)
    requires n < |ops|
    ensures
      var r := RunOf(c, ops[..n]);
      var next := Advanced(c, r.assembler, ops[n]);
      RunOf(c, ops[..n + 1]) == Run(r.events + (if next.emitted == [] then [] else [next.emitted]), next.rest)
  {
    assert ops[..n + 1][..n] == ops[..n];
  }

  /** The whole batch, and a flush at the end. */
  lemma {:induction false} BatchIsTheCut(c: AssemblerConfig, lines: seq<bytes>, clock: nat -> int)
      returns (groups: seq<seq<Arrived>>)
    requires c.maxLines > 0
    ensures IsCut(c, groups) && Flatten(groups) == Stamped(lines, clock)
    ensures RunOf(c, Feeding(lines, clock) + [FlushOp]).events == AllHeld(groups)
  {
    var ops := Feeding(lines, clock) + [FlushOp];
    var current;
    groups, current := EveryRunIsTheCut(c, ops);
    assert ops[..|ops| - 1] == Feeding(lines, clock)[..|lines|];
    FeedingIsSeen(c, lines, clock, |lines|);
    assert Stamped(lines, clock)[..|lines|] == Stamped(lines, clock);
    hide IsCut, RunOf, Flatten;
    assert Flatten(groups) + [] == Flatten(groups);
  }

  /**
   Feed every line, then flush. The events are the joined groups of the one right cut of the lines as
   they arrived.
   */
  method AssembleBatch(lines: seq<bytes>, multiline: Option<AssemblerConfig>, clock: nat -> int)
    returns (events: seq<bytes>, ghost groups: seq<seq<Arrived>>)
    ensures multiline.None? ==> events == lines
    ensures multiline.Some? ==>
      && IsCut(Settings(multiline.value), groups) && Flatten(groups) == Stamped(lines, clock)
      && events == Bodies(AllHeld(groups))
  {
    groups := [];
    if multiline.None? {
      return lines, [];
    }
    var m := multiline.value;
    var c := Settings(m);
    var assembler := new EntryAssembler(m.isStart, m.maxLines, Max(m.timeout, 1_000));
    events := [];
    ghost var ops := Feeding(lines, clock) + [FlushOp];
    assert ops[..0] == [];
    hide IsCut, Fed, Flushed, TimedOut, Join, Flatten, Lines;
    for i := 0 to |lines|
      invariant assembler.Valid() && assembler.config == c && assembler.Model() == RunOf(c, ops[..i]).assembler
      invariant events == Bodies(RunOf(c, ops[..i]).events)
    {
      RunGrows(c, ops, i);
      var e := assembler.Process(lines[i], LineContext(i, i + 1, 0), clock(i));
      if e.Some? {
        events := events + [e.value.body];
      }
      hide RunOf;
    }
    RunGrows(c, ops, |lines|);
    hide RunOf;
    var last := assembler.Flush();
    if last.Some? {
      events := events + [last.value.body];
    }
    assert ops[..|ops|] == ops;
    groups := BatchIsTheCut(c, lines, clock);
  }

  // ------------------------------------------------------------ when the clock plays no part

  /** No line comes later than the timeout after the one before it. */
  ghost predicate NeverIdle(c: AssemblerConfig, clock: nat -> int, n: nat) {
    forall i :: 0 < i < n ==> clock(i) - clock(i - 1) <= c.timeout
  }

  /** While no gap exceeds the timeout the events depend on nothing but the lines. */
  lemma {:induction false} ClockPlaysNoPart(c: AssemblerConfig, lines: seq<bytes>, clock: nat -> int,
      other: nat -> int, a: seq<seq<Arrived>>, b: seq<seq<Arrived>>)
    requires IsCut(c, a) && Flatten(a) == Stamped(lines, clock) && NeverIdle(c, clock, |lines|)
    requires IsCut(c, b) && Flatten(b) == Stamped(lines, other) && NeverIdle(c, other, |lines|)
    ensures AllHeld(a) == AllHeld(b)
  {
    SameBreaksSameEvents(c, a, b);
  }

  /** Two lines in a row are in the same event. */
  ghost predicate Together(groups: seq<seq<Held>>, x: Held, y: Held) {
    exists j, k :: 0 <= j < |groups| && 0 <= k < |groups[j]| - 1 && groups[j][k] == x && groups[j][k + 1] == y
  }

  /** A line joins the one before it when that one starts an event and this one does not. */
  lemma {:induction false} JoinsTheStart(c: AssemblerConfig, a: seq<seq<Arrived>>, i: nat)
    requires IsCut(c, a) && c.maxLines > 1 && 0 < i < |Flatten(a)|
    requires i > 1 ==> Breaks(c, Flatten(a)[i - 2], Flatten(a)[i - 1])
    requires !Breaks(c, Flatten(a)[i - 1], Flatten(a)[i])
    ensures Together(AllHeld(a), Flatten(a)[i - 1].held, Flatten(a)[i].held)
    decreases |a|
  {
    hide Breaks, IsCut, AllHeld, Flatten, Together;
    var x := Flatten(a);
    Unfolds(a);
    FirstEvent(c, a, x);
    var m, rest := |a[0]|, Flatten(a[1..]);
    if i < m {
      TogetherFirst(a, i);
    } else {
      assert i != m;
      assert rest[i - m - 1] == x[i - 1] && rest[i - m] == x[i] && (i - m > 1 ==> rest[i - m - 2] == x[i - 2]);
      CutTail(c, a);
      JoinsTheStart(c, a[1..], i - m);
      TogetherLater(a, x[i - 1].held, x[i].held);
    }
  }

  lemma {:induction false} Unfolds(a: seq<seq<Arrived>>)
    requires Flatten(a) != []
    ensures a != [] && Flatten(a) == a[0] + Flatten(a[1..])
  {
  }

  lemma {:induction false} TogetherFirst(a: seq<seq<Arrived>>, i: nat)
    requires a != [] && 0 < i < |a[0]|
    ensures Together(AllHeld(a), a[0][i - 1].held, a[0][i].held)
  {
    var k := i - 1;
    assert AllHeld(a)[0][k] == a[0][i - 1].held && AllHeld(a)[0][k + 1] == a[0][i].held;
  }

  lemma {:induction false} TogetherLater(a: seq<seq<Arrived>>, x: Held, y: Held)
    requires a != [] && Together(AllHeld(a[1..]), x, y)
    ensures Together(AllHeld(a), x, y)
  {
    HeldFirst(a);
    var rest := AllHeld(a[1..]);
    var j, k :| 0 <= j < |rest| && 0 <= k < |rest[j]| - 1 && rest[j][k] == x && rest[j][k + 1] == y;
    assert AllHeld(a)[j + 1] == rest[j];
  }

  /** Lines further apart than the timeout are never in the same event. */
  lemma {:induction false} GapsKeepApart(c: AssemblerConfig, lines: seq<bytes>, clock: nat -> int,
      a: seq<seq<Arrived>>, i: nat)
    requires IsCut(c, a) && Flatten(a) == Stamped(lines, clock) && 0 < i < |lines|
    requires clock(i) - clock(i - 1) > c.timeout
    ensures !Together(AllHeld(a), Stamped(lines, clock)[i - 1].held, Stamped(lines, clock)[i].held)
  {
    var x, all := Stamped(lines, clock), AllHeld(a);
    forall j, k | 0 <= j < |all| && 0 <= k < |all[j]| - 1
      ensures !(all[j][k] == x[i - 1].held && all[j][k + 1] == x[i].held)
    {
      if all[j][k] == x[i - 1].held && all[j][k + 1] == x[i].held {
        PairsAreClose(c, lines, clock, a, j, k, i);
      }
    }
  }

  lemma {:induction false} PairsAreClose(c: AssemblerConfig, lines: seq<bytes>, clock: nat -> int,
      a: seq<seq<Arrived>>, j: nat, k: nat, i: nat)
    requires IsCut(c, a) && Flatten(a) == Stamped(lines, clock) && 0 < i < |lines|
    requires j < |a| && k + 1 < |a[j]|
    requires a[j][k].held == Stamped(lines, clock)[i - 1].held && a[j][k + 1].held == Stamped(lines, clock)[i].held
    ensures clock(i) - clock(i - 1) <= c.timeout
  {
    ArrivedThen(lines, clock, a, j, k, i - 1);
    ArrivedThen(lines, clock, a, j, k + 1, i);
    assert IsEvent(c, a[j]);
    assert !Breaks(c, a[j][k + 1 - 1], a[j][k + 1]);
  }

  /** The sampler's context says which line it is, and so when it came. */
  lemma {:induction false} ArrivedThen(lines: seq<bytes>, clock: nat -> int, a: seq<seq<Arrived>>, j: nat, k: nat,
      i: nat)
    requires Flatten(a) == Stamped(lines, clock) && i < |lines| && j < |a| && k < |a[j]|
    requires a[j][k].held == Stamped(lines, clock)[i].held
    ensures a[j][k].at == clock(i)
  {
    InFlatten(a, a[j][k]);
    assert a[j][k] in Stamped(lines, clock);
  }

  /** A start and a line that continues it, fed with a gap longer than the timeout between them. */
  lemma {:induction false} GapSplitsAnEvent(c: AssemblerConfig, clock: nat -> int, n: nat, i: nat, start: bytes,
      more: bytes) returns (lines: seq<bytes>, a: seq<seq<Arrived>>, b: seq<seq<Arrived>>)
    requires c.maxLines > 1 && c.isStart(start) && !c.isStart(more)
    requires 0 < i < n && clock(i) - clock(i - 1) > c.timeout
    ensures |lines| == n && lines[i - 1] == start && lines[i] == more && !SameEvents(c, lines, clock, a, b)
  {
    hide IsCut, AllHeld, Flatten;
    lines := seq(n, k requires 0 <= k < n => if k == i - 1 then start else more);
    a := BatchIsTheCut(c, lines, clock);
    b := BatchIsTheCut(c, lines, Still);
    GapsKeepApart(c, lines, clock, a, i);
    JoinsTheStart(c, b, i);
  }

  /**
   With settings under which a line can both start and continue an event: on every batch of `n` lines
   the events are those of a clock that stands still, if and only if no gap exceeds the timeout.
   */
  lemma {:induction false} ClockPlaysNoPartExactlyWhen(c: AssemblerConfig, clock: nat -> int, n: nat, start: bytes,
      more: bytes)
    requires c.maxLines > 1 && c.isStart(start) && !c.isStart(more)
    ensures NeverIdle(c, clock, n) <==> forall lines, a, b :: |lines| == n ==> SameEvents(c, lines, clock, a, b)
  {
    if NeverIdle(c, clock, n) {
      forall lines, a, b | |lines| == n
        ensures SameEvents(c, lines, clock, a, b)
      {
        if IsCut(c, a) && Flatten(a) == Stamped(lines, clock) && IsCut(c, b) && Flatten(b) == Stamped(lines, Still) {
          ClockPlaysNoPart(c, lines, clock, Still, a, b);
        }
      }
    } else {
      hide IsCut, SameEvents;
      var i :| 0 < i < n && clock(i) - clock(i - 1) > c.timeout;
      var lines, a, b := GapSplitsAnEvent(c, clock, n, i, start, more);
    }
  }

  function Still(i: nat): int {
    0
  }

  /** The right cut of the lines as they arrive is the right cut of them arriving all at once. */
  ghost predicate SameEvents(c: AssemblerConfig, lines: seq<bytes>, clock: nat -> int, a: seq<seq<Arrived>>,
      b: seq<seq<Arrived>>)
  {
    IsCut(c, a) && Flatten(a) == Stamped(lines, clock) && IsCut(c, b) && Flatten(b) == Stamped(lines, Still)
    ==> AllHeld(a) == AllHeld(b)
  }
}
