/** Removal of terminal escape sequences from a line, in place. */
module AnsiStripping {
  import opened Common
  import opened Utf8

  const ESC: byte := 0x1b
  const BEL: byte := 0x07
  const OPEN_BRACKET: byte := 0x5b
  const BACKSLASH: byte := 0x5c
  const CLOSE_BRACKET: byte := 0x5d

  /** Final byte of a control sequence, section 5.4 of ECMA-48. */
  predicate IsFinal(b: byte) {
    0x40 <= b <= 0x7e
  }

  /** An operating-system command ends here: BEL, or ESC followed by a backslash. */
  predicate EndsCommand(s: bytes, i: nat)
    requires i < |s|
  {
    s[i] == BEL || (s[i] == ESC && i + 1 < |s| && s[i + 1] == BACKSLASH)
  }

  /** One whole escape sequence: control sequence, command, or two-byte escape. */
  predicate IsSequence(e: bytes) {
    && |e| >= 2 && e[0] == ESC
    && if e[1] == OPEN_BRACKET then
         |e| >= 3 && IsFinal(e[|e| - 1]) && forall i :: 2 <= i < |e| - 1 ==> !IsFinal(e[i])
       else if e[1] == CLOSE_BRACKET then
         (|e| >= 3 && e[|e| - 1] == BEL && forall i :: 2 <= i < |e| - 1 ==> !EndsCommand(e, i))
         || (|e| >= 4 && e[|e| - 2] == ESC && e[|e| - 1] == BACKSLASH && forall i :: 2 <= i < |e| - 2 ==>
           !EndsCommand(e, i))
       else |e| == 2
  }

  /** A sequence the line ends in the middle of. */
  predicate IsCutShort(e: bytes) {
    && |e| >= 1 && e[0] == ESC
    && (|e| == 1
        || (e[1] == OPEN_BRACKET && forall i :: 2 <= i < |e| ==> !IsFinal(e[i]))
        || (e[1] == CLOSE_BRACKET && forall i :: 2 <= i < |e| ==> !EndsCommand(e, i)))
  }

  function FinalFrom(s: bytes, i: nat): (r: nat)
    requires i <= |s|
    ensures i <= r <= |s| && (r < |s| ==> IsFinal(s[r])) && forall j :: i <= j < r ==> !IsFinal(s[j])
    decreases |s| - i
  {
    if i == |s| || IsFinal(s[i]) then i else FinalFrom(s, i + 1)
  }

  function CommandEndFrom(s: bytes, i: nat): (r: nat)
    requires i <= |s|
    ensures i <= r <= |s| && (r < |s| ==> EndsCommand(s, r)) && forall j :: i <= j < r ==> !EndsCommand(s, j)
    decreases |s| - i
  {
    if i == |s| || EndsCommand(s, i) then i else CommandEndFrom(s, i + 1)
  }

  /** How many bytes the sequence at the front takes. */
  function SequenceLength(s: bytes): (n: nat)
    requires s != [] && s[0] == ESC
    ensures 1 <= n <= |s|
  {
    if |s| == 1 then 1
    else if s[1] == OPEN_BRACKET then Min(FinalFrom(s, 2) + 1, |s|)
    else if s[1] == CLOSE_BRACKET then
      var e := CommandEndFrom(s, 2);
      if e == |s| then |s| else if s[e] == BEL then e + 1 else e + 2
    else 2
  }

  /** What a line keeps. */
  function Strip(s: bytes): (r: bytes)
    ensures ESC !in r && |r| <= |s|
    decreases |s|
  {
    if s == [] then []
    else if s[0] == ESC then Strip(s[SequenceLength(s)..])
    else [s[0]] + Strip(s[1..])
  }

  // ------------------------------------------------------------------ the code's loops

  /** Index just past the escape sequence at `start`. */
  method EscapeEnd(a: array<byte>, start: nat) returns (end: nat)
    requires start < a.Length && a[start] == ESC
    ensures end == start + SequenceLength(a[start..])
  {
    ghost var s := a[start..];
    if start + 1 >= a.Length {
      return start + 1;
    }
    assert s[1] == a[start + 1];
    if a[start + 1] == OPEN_BRACKET {
      var i := start + 2;
      while i < a.Length && !IsFinal(a[i])
        invariant start + 2 <= i <= a.Length
        invariant FinalFrom(s, 2) == FinalFrom(s, i - start)
      {
        assert s[i - start] == a[i];
        i := i + 1;
      }
      assert i < a.Length ==> s[i - start] == a[i];
      return Min(i + 1, a.Length);
    } else if a[start + 1] == CLOSE_BRACKET {
      var i := start + 2;
      while i < a.Length
        invariant start + 2 <= i <= a.Length
        invariant CommandEndFrom(s, 2) == CommandEndFrom(s, i - start)
      {
        assert s[i - start] == a[i];
        assert i + 1 < a.Length ==> s[i - start + 1] == a[i + 1];
        if a[i] == BEL {
          return i + 1;
        }
        if a[i] == ESC && i + 1 < a.Length && a[i + 1] == BACKSLASH {
          return i + 2;
        }
        i := i + 1;
      }
      return a.Length;
    }
    return start + 2;
  }

  lemma {:induction false} StripFrom(line: bytes, read: nat, done: bytes)
    requires read < |line|
    ensures line[read] == ESC ==> Strip(line[read..]) == Strip(line[read + SequenceLength(line[read..])..])
    ensures line[read] != ESC ==> done + Strip(line[read..]) == done + [line[read]] + Strip(line[read + 1..])
  {
    hide SequenceLength;
    var s := line[read..];
    if line[read] == ESC {
      assert s[SequenceLength(s)..] == line[read + SequenceLength(s)..];
    } else {
      assert s[1..] == line[read + 1..];
    }
  }

  /**
   Compact the line over the sequences being dropped. The first `kept` bytes of the array are the
   line that is left; the original truncates its vector there.
   */
  method StripInPlace(a: array<byte>) returns (kept: nat)
    modifies a
    ensures kept <= a.Length
    ensures a[..kept] == Strip(old(a[..]))
  {
    hide SequenceLength, Strip;
    ghost var line := a[..];
    var write, read := 0, 0;
    while read < a.Length
      invariant 0 <= write <= read <= a.Length
      invariant forall k :: read <= k < a.Length ==> a[k] == line[k]
      invariant a[..write] + Strip(line[read..]) == Strip(line)
      decreases a.Length - read
    {
      StripFrom(line, read, a[..write]);
      if a[read] == ESC {
        assert a[read..] == line[read..];
        read := EscapeEnd(a, read);
        continue;
      }
      ghost var before := a[..write];
      a[write] := a[read];
      assert a[..write + 1] == before + [line[read]];
      write := write + 1;
      read := read + 1;
    }
    StripNothing(line[read..]);
    kept := write;
  }

  lemma {:induction false} StripNothing(s: bytes)
    requires |s| == 0
    ensures Strip(s) == []
  {
  }

  // --------------------------------------------------------------- what stripping means

  /** The front sequence is the only whole sequence there is, or the line is cut short in it. */
  lemma {:induction false} FrontSequence(s: bytes)
    requires s != [] && s[0] == ESC
    ensures IsSequence(s[..SequenceLength(s)]) || (SequenceLength(s) == |s| && IsCutShort(s))
    ensures IsCutShort(s) ==> SequenceLength(s) == |s|
  {
    var n := SequenceLength(s);
    var e := s[..n];
    if |s| > 1 && s[1] == OPEN_BRACKET {
      var f := FinalFrom(s, 2);
      if f < |s| {
        assert e[n - 1] == s[f];
      }
    } else if |s| > 1 && s[1] == CLOSE_BRACKET {
      var c := CommandEndFrom(s, 2);
      if c < |s| {
        forall i | 2 <= i < c
          ensures !EndsCommand(e, i)
        {
          assert !EndsCommand(s, i);
        }
      }
    }
  }

  lemma {:induction false} SequenceIsFront(e: bytes, t: bytes)
    requires IsSequence(e)
    ensures SequenceLength(e + t) == |e|
  {
    var s := e + t;
    assert forall i :: 0 <= i < |e| ==> s[i] == e[i];
    if e[1] == OPEN_BRACKET {
      var f := FinalFrom(s, 2);
      assert f >= |e| - 1;
      assert IsFinal(s[|e| - 1]);
    } else if e[1] == CLOSE_BRACKET {
      var c := CommandEndFrom(s, 2);
      var end := if e[|e| - 1] == BEL && (forall i :: 2 <= i < |e| - 1 ==> !EndsCommand(e, i)) then |e| - 1
        else |e| - 2;
      assert EndsCommand(s, end);
      forall i | 2 <= i < end
        ensures !EndsCommand(s, i)
      {
        assert !EndsCommand(e, i);
      }
      assert c == end;
    }
  }

  /** A line cut into text bytes and whole sequences. */
  datatype Piece = Text(b: byte) | Escape(e: bytes)

  predicate WellFormed(p: Piece) {
    match p
    case Text(b) => b != ESC
    case Escape(e) => IsSequence(e)
  }

  function Written(ps: seq<Piece>): bytes {
    if ps == [] then [] else (match ps[0] case Text(b) => [b] case Escape(e) => e) + Written(ps[1..])
  }

  function Shown(ps: seq<Piece>): bytes {
    if ps == [] then [] else (match ps[0] case Text(b) => [b] + Shown(ps[1..]) case Escape(_) => Shown(ps[1..]))
  }

  lemma {:induction false} StripText(b: byte, rest: bytes)
    requires b != ESC
    ensures Strip([b] + rest) == [b] + Strip(rest) && (TakesALead([b] + rest) <==> TakesALead(rest))
  {
    assert ([b] + rest)[1..] == rest;
  }

  lemma {:induction false} StripSequence(e: bytes, rest: bytes)
    requires IsSequence(e)
    ensures Strip(e + rest) == Strip(rest)
  {
    SequenceIsFront(e, rest);
    hide SequenceLength;
    assert (e + rest)[|e|..] == rest;
  }

  lemma {:induction false} StripCutShort(tail: bytes)
    requires tail == [] || IsCutShort(tail)
    ensures Strip(tail) == []
  {
    if tail != [] {
      FrontSequence(tail);
      hide SequenceLength;
      assert tail[|tail|..] == [];
    }
  }

  /** However a line is cut into text and whole sequences, with at most a cut-short tail, stripping keeps the text. */
  lemma {:induction false} StripKeepsText(ps: seq<Piece>, tail: bytes)
    requires forall i :: 0 <= i < |ps| ==> WellFormed(ps[i])
    requires tail == [] || IsCutShort(tail)
    ensures Strip(Written(ps) + tail) == Shown(ps)
  {
    hide Strip, IsSequence, IsCutShort;
    if ps == [] {
      assert Written(ps) + tail == tail;
      StripCutShort(tail);
    } else {
      var rest := Written(ps[1..]) + tail;
      StripKeepsText(ps[1..], tail);
      match ps[0]
      case Text(b) =>
        assert Written(ps) + tail == [b] + rest && Shown(ps) == [b] + Shown(ps[1..]);
        hide Written, Shown;
        StripText(b, rest);
      case Escape(e) =>
        assert Written(ps) + tail == e + rest && Shown(ps) == Shown(ps[1..]);
        hide Written, Shown;
        StripSequence(e, rest);
    }
  }

  lemma {:induction false} WrittenFirst(p: Piece, ps: seq<Piece>, tail: bytes)
    ensures Written([p] + ps) + tail == (match p case Text(b) => [b] case Escape(e) => e) + (Written(ps) + tail)
  {
    assert ([p] + ps)[1..] == ps;
  }

  /** Every line can be cut that way. */
  lemma {:induction false} EveryLineCuts(s: bytes) returns (ps: seq<Piece>, tail: bytes)
    ensures Written(ps) + tail == s && (tail == [] || IsCutShort(tail))
    ensures forall i :: 0 <= i < |ps| ==> WellFormed(ps[i])
    decreases |s|
  {
    hide SequenceLength, IsSequence, IsCutShort;
    if s == [] {
      ps, tail := [], [];
    } else if s[0] != ESC {
      ps, tail := EveryLineCuts(s[1..]);
      WrittenFirst(Text(s[0]), ps, tail);
      hide Written;
      assert s == [s[0]] + s[1..];
      ps := [Text(s[0])] + ps;
    } else {
      FrontSequence(s);
      var n := SequenceLength(s);
      if IsSequence(s[..n]) {
        ps, tail := EveryLineCuts(s[n..]);
        WrittenFirst(Escape(s[..n]), ps, tail);
        hide Written;
        assert s == s[..n] + s[n..];
        ps := [Escape(s[..n])] + ps;
      } else {
        ps, tail := [], s;
        assert Written(ps) + tail == s;
      }
    }
  }

  /** A line without ESC is left alone; so stripping twice is stripping once. */
  lemma {:induction false} StripLeavesPlain(s: bytes)
    requires ESC !in s
    ensures Strip(s) == s
  {
    if s != [] {
      assert ESC !in s[1..];
      StripLeavesPlain(s[1..]);
      assert s == [s[0]] + s[1..];
    }
  }

  lemma {:induction false} StripIdempotent(s: bytes)
    ensures Strip(Strip(s)) == Strip(s)
  {
    StripLeavesPlain(Strip(s));
  }

  method StripOwned(a: array<byte>) returns (kept: nat)
    modifies a
    ensures kept <= a.Length && a[..kept] == Strip(old(a[..]))
    ensures ESC !in old(a[..]) ==> kept == a.Length && a[..] == old(a[..])
  {
    if ESC !in a[..] {
      StripLeavesPlain(a[..]);
      assert a[..a.Length] == a[..];
      return a.Length;
    }
    kept := StripInPlace(a);
  }

  // -------------------------------------------------------------------------- UTF-8

  /** Some two-byte escape of the line takes the lead byte of a multi-byte character. */
  predicate TakesALead(s: bytes)
    decreases |s|
  {
    if s == [] then false
    else if s[0] == ESC then
      (|s| > 1 && s[1] >= 0x80) || TakesALead(s[SequenceLength(s)..])
    else TakesALead(s[1..])
  }

  /** Text bytes of a whole character are kept together. */
  lemma {:induction false} StripPast(c: bytes, t: bytes)
    requires ESC !in c
    ensures Strip(c + t) == c + Strip(t) && (TakesALead(c + t) <==> TakesALead(t))
  {
    hide Strip, TakesALead;
    if c == [] {
      assert c + t == t;
    } else {
      assert c + t == [c[0]] + (c[1..] + t);
      assert ESC !in c[1..];
      StripPast(c[1..], t);
      StripText(c[0], c[1..] + t);
      assert c == [c[0]] + c[1..];
    }
  }

  lemma {:induction false} AfterSequence(s: bytes)
    requires Valid(s) && s != [] && s[0] == ESC && (|s| > 1 ==> s[1] < 0x80)
    ensures Valid(s[SequenceLength(s)..])
  {
    var n := SequenceLength(s);
    if n == |s| {
      assert s[n..] == [];
    } else {
      ValidFromAscii(s, n - 1);
    }
  }

  lemma {:induction false} LeadTaken(s: bytes)
    requires Valid(s) && |s| > 1 && s[0] == ESC && s[1] >= 0x80
    ensures !Valid(Strip(s))
  {
    assert CharLength(s) == 1;
    var n := CharLength(s[1..]);
    assert IsTail(s[1..][1]);
    assert Strip(s) == Strip(s[2..]);
    assert Strip(s[2..])[0] == s[2];
  }

  /** Stripping well-formed text leaves well-formed text exactly when no two-byte escape takes a lead byte. */
  lemma {:induction false} Utf8SurvivesExactlyWhen(s: bytes)
    requires Valid(s)
    ensures Valid(Strip(s)) <==> !TakesALead(s)
    decreases |s|
  {
    if s == [] {
    } else if s[0] == ESC {
      if |s| > 1 && s[1] >= 0x80 {
        LeadTaken(s);
      } else {
        AfterSequence(s);
        Utf8SurvivesExactlyWhen(s[SequenceLength(s)..]);
      }
    } else {
      var n := CharLength(s);
      var c, t := s[..n], s[n..];
      assert s == c + t && CharLength(c) == n;
      StripPast(c, t);
      Utf8SurvivesExactlyWhen(t);
      CharThen(c, Strip(t));
    }
  }

  /** In particular whenever no ESC directly precedes a byte of 0x80 or more. */
  lemma {:induction false} Utf8Survives(s: bytes)
    requires Valid(s) && forall i :: 0 <= i < |s| - 1 && s[i] == ESC ==> s[i + 1] < 0x80
    ensures Valid(Strip(s))
  {
    NoLeadTaken(s);
    Utf8SurvivesExactlyWhen(s);
  }

  lemma {:induction false} NoLeadTaken(s: bytes)
    requires forall i :: 0 <= i < |s| - 1 && s[i] == ESC ==> s[i + 1] < 0x80
    ensures !TakesALead(s)
    decreases |s|
  {
    if s != [] {
      var n := if s[0] == ESC then SequenceLength(s) else 1;
      var t := s[n..];
      forall i | 0 <= i < |t| - 1 && t[i] == ESC
        ensures t[i + 1] < 0x80
      {
        assert s[n + i] == ESC;
      }
      NoLeadTaken(t);
    }
  }

  /** An accented letter right after ESC: the letter's first byte goes, its second stays. */
  lemma {:induction false} EscapeSplitsACharacter()
    ensures Valid([ESC, 0xC3, 0xA9]) && Strip([ESC, 0xC3, 0xA9]) == [0xA9] && !Valid(Strip([ESC, 0xC3, 0xA9]))
  {
    var s := [ESC, 0xC3, 0xA9];
    assert s[1..] == [0xC3, 0xA9] && CharLength(s[1..]) == 2 && s[1..][2..] == [];
    assert s[2..] == [0xA9] && [0xA9][1..] == [];
  }
}
