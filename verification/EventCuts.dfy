/**
 Where events end. A stream of lines has one right cut into events, said without the assembler; and
 every run of an assembler, idle checks and flushes included, is that cut.
 */
module EventCuts {
  import opened Common
  import opened EntryAssembly

  // --------------------------------------------------------------- what a right cut is

  /** A line, when it arrived, and whether an idle check or a flush came between it and the line before. */
  datatype Arrived = Arrived(held: Held, at: int, apart: bool)

  /** The line starts a new event whatever the length of the one before: `last` is the line before it. */
  predicate Breaks(c: AssemblerConfig, last: Arrived, next: Arrived) {
    c.isStart(next.held.line) || next.at - last.at > c.timeout || next.apart
  }

  /** One event's lines: at least one, at most the cap, and none that starts another one. */
  predicate IsEvent(c: AssemblerConfig, g: seq<Arrived>) {
    1 <= |g| <= c.maxLines && forall i :: 1 <= i < |g| ==> !Breaks(c, g[i - 1], g[i])
  }

  /** An event ends only where the next line starts one, or where it is full. */
  predicate EndsRightly(c: AssemblerConfig, g: seq<Arrived>, next: Arrived)
    requires g != []
  {
    Breaks(c, g[|g| - 1], next) || |g| == c.maxLines
  }

  predicate IsCut(c: AssemblerConfig, groups: seq<seq<Arrived>>) {
    && (forall i :: 0 <= i < |groups| ==> IsEvent(c, groups[i]))
    && forall i :: 0 <= i < |groups| - 1 ==> EndsRightly(c, groups[i], groups[i + 1][0])
  }

  lemma {:induction false} CutTail(c: AssemblerConfig, groups: seq<seq<Arrived>>)
    requires IsCut(c, groups) && groups != []
    ensures IsCut(c, groups[1..])
  {
    var rest := groups[1..];
    assert forall i :: 0 <= i < |rest| ==> rest[i] == groups[i + 1];
  }

  /** Where the first event ends can be read off the lines. */
  lemma {:induction false} FirstEvent(c: AssemblerConfig, a: seq<seq<Arrived>>, lines: seq<Arrived>)
    requires IsCut(c, a) && a != [] && Flatten(a) == lines
    ensures 1 <= |a[0]| <= c.maxLines && a[0] <= lines
    ensures forall j :: 1 <= j < |a[0]| ==> !Breaks(c, lines[j - 1], lines[j])
    ensures |a[0]| == |lines| || |a[0]| == c.maxLines || Breaks(c, lines[|a[0]| - 1], lines[|a[0]|])
  {
    hide Breaks;
    assert IsEvent(c, a[0]);
    assert lines == a[0] + Flatten(a[1..]);
    assert forall j :: 0 <= j < |a[0]| ==> lines[j] == a[0][j];
    if |a| > 1 {
      assert IsEvent(c, a[1]) && EndsRightly(c, a[0], a[0 + 1][0]);
      assert a[1..][0] == a[1] && Flatten(a[1..]) == a[1] + Flatten(a[1..][1..]);
      assert lines[|a[0]|] == a[1][0];
    }
  }

  /** There is only one right cut of a list of lines. */
  lemma {:induction false} CutIsUnique(c: AssemblerConfig, a: seq<seq<Arrived>>, b: seq<seq<Arrived>>)
    requires IsCut(c, a) && IsCut(c, b) && Flatten(a) == Flatten(b)
    ensures a == b
  {
    if a == [] || b == [] {
      OnlyEmpty(c, a);
      OnlyEmpty(c, b);
    } else {
      FirstEvent(c, a, Flatten(a));
      FirstEvent(c, b, Flatten(a));
      SameLength(c, Flatten(a), |a[0]|, |b[0]|);
      CutTail(c, a);
      CutTail(c, b);
      hide IsCut;
      assert Flatten(a) == a[0] + Flatten(a[1..]) && Flatten(b) == b[0] + Flatten(b[1..]);
      assert a[0] == Flatten(a)[..|a[0]|] == b[0];
      assert Flatten(a[1..]) == Flatten(a)[|a[0]|..] == Flatten(b[1..]);
      CutIsUnique(c, a[1..], b[1..]);
      assert a == [a[0]] + a[1..] && b == [b[0]] + b[1..];
    }
  }

  lemma {:induction false} SameLength(c: AssemblerConfig, lines: seq<Arrived>, m: nat, n: nat)
    requires 1 <= m <= c.maxLines && 1 <= n <= c.maxLines && m <= |lines| && n <= |lines|
    requires forall j :: 1 <= j < m ==> !Breaks(c, lines[j - 1], lines[j])
    requires forall j :: 1 <= j < n ==> !Breaks(c, lines[j - 1], lines[j])
    requires m == |lines| || m == c.maxLines || Breaks(c, lines[m - 1], lines[m])
    requires n == |lines| || n == c.maxLines || Breaks(c, lines[n - 1], lines[n])
    ensures m == n
  {
    hide Breaks;
  }

  lemma {:induction false} OnlyEmpty(c: AssemblerConfig, a: seq<seq<Arrived>>)
    requires IsCut(c, a)
    ensures Flatten(a) == [] <==> a == []
  {
    if a != [] {
      assert IsEvent(c, a[0]);
      assert Flatten(a) == a[0] + Flatten(a[1..]);
    }
  }

  // ------------------------------------------------------------ what the cut depends on

  function HeldOf(g: seq<Arrived>): (r: seq<Held>)
    ensures |r| == |g| && forall i :: 0 <= i < |r| ==> r[i] == g[i].held
  {
    seq(|g|, i requires 0 <= i < |g| => g[i].held)
  }

  function AllHeld(groups: seq<seq<Arrived>>): (r: seq<seq<Held>>)
    ensures |r| == |groups| && forall i :: 0 <= i < |r| ==> r[i] == HeldOf(groups[i])
  {
    seq(|groups|, i requires 0 <= i < |groups| => HeldOf(groups[i]))
  }

  /** The same lines, with the same ones starting events. */
  ghost predicate BreakAlike(c: AssemblerConfig, a: seq<Arrived>, b: seq<Arrived>) {
    && HeldOf(a) == HeldOf(b)
    && forall i :: 1 <= i < |a| ==> (Breaks(c, a[i - 1], a[i]) <==> Breaks(c, b[i - 1], b[i]))
  }

  lemma {:induction false} AlikeFrom(c: AssemblerConfig, a: seq<Arrived>, b: seq<Arrived>, n: nat)
    requires |a| == |b| && BreakAlike(c, a, b) && n <= |a|
    ensures BreakAlike(c, a[n..], b[n..]) && HeldOf(a[..n]) == HeldOf(b[..n])
  {
    hide Breaks;
    assert forall i :: 0 <= i < |a| ==> HeldOf(a)[i] == HeldOf(b)[i];
  }

  /** Cuts of lines that start events alike are the same events. */
  lemma {:induction false} SameBreaksSameEvents(c: AssemblerConfig, a: seq<seq<Arrived>>, b: seq<seq<Arrived>>)
    requires IsCut(c, a) && IsCut(c, b) && |Flatten(a)| == |Flatten(b)| && BreakAlike(c, Flatten(a), Flatten(b))
    ensures AllHeld(a) == AllHeld(b)
  {
    if a == [] || b == [] {
      OnlyEmpty(c, a);
      OnlyEmpty(c, b);
    } else {
      var x, y := Flatten(a), Flatten(b);
      FirstEvent(c, a, x);
      FirstEvent(c, b, y);
      SameLength(c, x, |a[0]|, |b[0]|);
      AlikeFrom(c, x, y, |a[0]|);
      CutTail(c, a);
      CutTail(c, b);
      hide IsCut, Breaks, BreakAlike;
      assert x == a[0] + Flatten(a[1..]) && y == b[0] + Flatten(b[1..]);
      assert a[0] == x[..|a[0]|] && b[0] == y[..|a[0]|];
      assert Flatten(a[1..]) == x[|a[0]|..] && Flatten(b[1..]) == y[|a[0]|..];
      SameBreaksSameEvents(c, a[1..], b[1..]);
      HeldFirst(a);
      HeldFirst(b);
    }
  }

  lemma {:induction false} HeldFirst(a: seq<seq<Arrived>>)
    requires a != []
    ensures AllHeld(a) == [HeldOf(a[0])] + AllHeld(a[1..])
  {
  }

  // ----------------------------------------------------------------------- any run

  datatype Op = LineOp(held: Held, now: int) | CheckOp(now: int) | FlushOp

  /** The events a run has emitted, and the assembler it has come to. */
  datatype Run = Run(events: seq<seq<Held>>, assembler: Assembler)

  function Advanced(c: AssemblerConfig, a: Assembler, op: Op): Advance {
    match op
    case LineOp(held, now) => Fed(c, a, held, now)
    case CheckOp(now) => TimedOut(c, a, now)
    case FlushOp => Flushed(a)
  }

  function RunOf(c: AssemblerConfig, ops: seq<Op>): Run {
    if ops == [] then Run([], IdleAssembler)
    else
      var before := RunOf(c, ops[..|ops| - 1]);
      var next := Advanced(c, before.assembler, ops[|ops| - 1]);
      Run(before.events + (if next.emitted == [] then [] else [next.emitted]), next.rest)
  }

  /** The lines of a run as they arrived, and whether the next one will be apart from the last. */
  datatype Seen = Seen(lines: seq<Arrived>, apart: bool)

  function SeenOf(c: AssemblerConfig, ops: seq<Op>): Seen {
    if ops == [] then Seen([], false)
    else
      SeenAfter(c, SeenOf(c, ops[..|ops| - 1]), ops[|ops| - 1])
  }

  /** An idle check sets the next line apart when the last one is older than the timeout, a flush always. */
  function SeenAfter(c: AssemblerConfig, s: Seen, op: Op): Seen {
    match op
    case LineOp(held, now) => Seen(s.lines + [Arrived(held, now, s.apart)], false)
    case CheckOp(now) => s.(apart := s.apart || (s.lines != [] && now - s.lines[|s.lines| - 1].at > c.timeout))
    case FlushOp => s.(apart := true)
  }

  /** `current` is the event in progress: it is there exactly while the next line may join it. */
  ghost predicate InProgress(s: Seen, a: Assembler, current: seq<Arrived>) {
    && a.held == HeldOf(current)
    && (current == [] <==> s.lines == [] || s.apart)
    && (current != [] ==> s.lines != [] && current[|current| - 1] == s.lines[|s.lines| - 1]
                          && a.lastLineAt == Some(current[|current| - 1].at))
  }

  /** Some events and the one in progress are the right cut of the lines seen. */
  ghost predicate CutSoFar(c: AssemblerConfig, s: Seen, r: Run, done: seq<seq<Arrived>>, current: seq<Arrived>) {
    && r.events == AllHeld(done) && Flatten(done) + current == s.lines
    && IsCut(c, done) && (current != [] ==> IsCut(c, done + [current])) && InProgress(s, r.assembler, current)
    && (s.lines != [] && current == [] ==>
          done != [] && done[|done| - 1] != [] && Last(done[|done| - 1]) == Last(s.lines))
  }

  function Last<T>(xs: seq<T>): T
    requires xs != []
  {
    xs[|xs| - 1]
  }

  lemma {:induction false} CutAppend(c: AssemblerConfig, done: seq<seq<Arrived>>, g: seq<Arrived>)
    requires IsCut(c, done) && IsEvent(c, g)
    requires done != [] ==> done[|done| - 1] != [] && EndsRightly(c, done[|done| - 1], g[0])
    ensures IsCut(c, done + [g])
  {
    hide Breaks;
    var all := done + [g];
    forall i | 0 <= i < |all|
      ensures IsEvent(c, all[i])
    {
    }
    forall i | 0 <= i < |all| - 1
      ensures EndsRightly(c, all[i], all[i + 1][0])
    {
      if i < |done| - 1 {
        assert all[i] == done[i] && all[i + 1] == done[i + 1];
      }
    }
  }

  /** The event in progress takes one line more. */
  lemma {:induction false} CutGrows(c: AssemblerConfig, done: seq<seq<Arrived>>, current: seq<Arrived>, next: Arrived)
    requires IsCut(c, done) && IsCut(c, done + [current]) && current != []
    requires !Breaks(c, current[|current| - 1], next) && |current| < c.maxLines
    ensures IsCut(c, done + [current + [next]])
  {
    hide Breaks;
    var all := done + [current];
    assert IsEvent(c, all[|done|]);
    assert IsEvent(c, current + [next]);
    if done != [] {
      assert EndsRightly(c, all[|done| - 1], all[|done| - 1 + 1][0]) && IsEvent(c, done[|done| - 1]);
    }
    CutAppend(c, done, current + [next]);
  }

  /** The event in progress is over, and the line starts the next one. */
  lemma {:induction false} CutStarts(c: AssemblerConfig, done: seq<seq<Arrived>>, current: seq<Arrived>, next: Arrived)
    requires c.maxLines > 0 && current != [] && IsCut(c, done + [current])
    requires Breaks(c, current[|current| - 1], next) || |current| >= c.maxLines
    ensures IsCut(c, done + [current] + [[next]])
  {
    hide Breaks;
    var all := done + [current];
    assert IsEvent(c, all[|done|]);
    CutAppend(c, all, [next]);
  }

  lemma {:induction false} AllHeldSnoc(done: seq<seq<Arrived>>, g: seq<Arrived>)
    ensures AllHeld(done + [g]) == AllHeld(done) + [HeldOf(g)]
  {
  }

  lemma {:induction false} LineGrows(c: AssemblerConfig, s: Seen, r: Run, held: Held, now: int,
      done: seq<seq<Arrived>>, current: seq<Arrived>)
    requires c.maxLines > 0 && CutSoFar(c, s, r, done, current) && current != []
    requires !Breaks(c, Last(current), Arrived(held, now, s.apart)) && |current| < c.maxLines
    ensures
      var next := Arrived(held, now, s.apart);
      var a := Assembler(r.assembler.held + [held], Some(now));
      && Fed(c, r.assembler, held, now) == Advance([], a)
      && CutSoFar(c, Seen(s.lines + [next], false), Run(r.events, a), done, current + [next])
  {
    var next := Arrived(held, now, s.apart);
    CutGrows(c, done, current, next);
    hide IsCut, Flatten;
    assert Flatten(done) + (current + [next]) == s.lines + [next];
    assert HeldOf(current + [next]) == HeldOf(current) + [held];
  }

  lemma {:induction false} LineCloses(c: AssemblerConfig, s: Seen, r: Run, held: Held, now: int,
      done: seq<seq<Arrived>>, current: seq<Arrived>)
    requires c.maxLines > 0 && CutSoFar(c, s, r, done, current) && current != []
    requires Breaks(c, Last(current), Arrived(held, now, s.apart)) || |current| >= c.maxLines
    ensures
      var next := Arrived(held, now, s.apart);
      var a := Assembler([held], Some(now));
      && Fed(c, r.assembler, held, now) == Advance(r.assembler.held, a) && r.assembler.held != []
      && CutSoFar(c, Seen(s.lines + [next], false), Run(r.events + [r.assembler.held], a), done + [current], [next])
  {
    var next := Arrived(held, now, s.apart);
    CutStarts(c, done, current, next);
    FlattenSnoc(done, current);
    AllHeldSnoc(done, current);
    hide IsCut, Flatten;
  }

  lemma {:induction false} LineStarts(c: AssemblerConfig, s: Seen, r: Run, held: Held, now: int,
      done: seq<seq<Arrived>>)
    requires c.maxLines > 0 && CutSoFar(c, s, r, done, [])
    ensures
      var next := Arrived(held, now, s.apart);
      var a := Assembler([held], Some(now));
      && Fed(c, r.assembler, held, now) == Advance([], a)
      && CutSoFar(c, Seen(s.lines + [next], false), Run(r.events, a), done, [next])
  {
    var next := Arrived(held, now, s.apart);
    assert [] + [held] == [held];
    if done != [] {
      NoLinesNoEvents(c, s, r, done);
    }
    CutAppend(c, done, [next]);
    hide IsCut, Flatten;
    assert Flatten(done) + [] == Flatten(done);
  }

  lemma {:induction false} NoLinesNoEvents(c: AssemblerConfig, s: Seen, r: Run, done: seq<seq<Arrived>>)
    requires CutSoFar(c, s, r, done, []) && done != []
    ensures s.lines != [] && s.apart
  {
    OnlyEmpty(c, done);
    assert Flatten(done) + [] == Flatten(done);
  }

  /** The event in progress is emitted between two lines. */
  lemma {:induction false} EmitsBetween(c: AssemblerConfig, s: Seen, r: Run, done: seq<seq<Arrived>>,
      current: seq<Arrived>)
    requires CutSoFar(c, s, r, done, current) && current != []
    ensures CutSoFar(c, s.(apart := true), Run(r.events + [r.assembler.held], IdleAssembler), done + [current], [])
  {
    FlattenSnoc(done, current);
    AllHeldSnoc(done, current);
    hide IsCut, Flatten;
    assert Flatten(done + [current]) + [] == Flatten(done) + current;
  }

  lemma {:induction false} StepCuts(c: AssemblerConfig, s: Seen, r: Run, op: Op, done: seq<seq<Arrived>>,
      current: seq<Arrived>)
      returns (done': seq<seq<Arrived>>, current': seq<Arrived>)
    requires c.maxLines > 0 && CutSoFar(c, s, r, done, current)
    ensures
      var next := Advanced(c, r.assembler, op);
      CutSoFar(c, SeenAfter(c, s, op), Run(r.events + (if next.emitted == [] then [] else [next.emitted]), next.rest),
               done', current')
  {
    assert r.events + [] == r.events;
    match op {
      case LineOp(held, now) =>
        var next := Arrived(held, now, s.apart);
        if current == [] {
          LineStarts(c, s, r, held, now, done);
          done', current' := done, [next];
        } else if Breaks(c, Last(current), next) || |current| >= c.maxLines {
          LineCloses(c, s, r, held, now, done, current);
          done', current' := done + [current], [next];
        } else {
          LineGrows(c, s, r, held, now, done, current);
          done', current' := done, current + [next];
        }
        hide CutSoFar, Fed, Breaks;
      case CheckOp(now) =>
        if current != [] && now - Last(current).at > c.timeout {
          EmitsBetween(c, s, r, done, current);
          done', current' := done + [current], [];
        } else {
          done', current' := done, current;
        }
        hide IsCut, Flatten;
      case FlushOp =>
        if current != [] {
          EmitsBetween(c, s, r, done, current);
          done', current' := done + [current], [];
        } else {
          done', current' := done, current;
        }
        hide IsCut, Flatten;
    }
  }

  /**
   Over every run of lines, idle checks and flushes at any times: the events emitted, and the lines
   held after them, are the one right cut of the lines.
   */
  lemma {:induction false} EveryRunIsTheCut(c: AssemblerConfig, ops: seq<Op>)
      returns (done: seq<seq<Arrived>>, current: seq<Arrived>)
    requires c.maxLines > 0
    ensures CutSoFar(c, SeenOf(c, ops), RunOf(c, ops), done, current)
  {
    if ops == [] {
      done, current := [], [];
    } else {
      hide CutSoFar, SeenAfter, Advanced;
      done, current := EveryRunIsTheCut(c, ops[..|ops| - 1]);
      done, current :=
        StepCuts(c, SeenOf(c, ops[..|ops| - 1]), RunOf(c, ops[..|ops| - 1]), ops[|ops| - 1], done, current);
    }
  }
}
