/** Well-formed UTF-8, by the syntax of section 4 of RFC 3629. */
module Utf8 {
  import opened Common

  predicate IsTail(b: byte) {
    0x80 <= b <= 0xBF
  }

  /** The second byte allowed after a given lead byte. */
  predicate SecondFits(lead: byte, b: byte) {
    if lead == 0xE0 then 0xA0 <= b <= 0xBF
    else if lead == 0xED then 0x80 <= b <= 0x9F
    else if lead == 0xF0 then 0x90 <= b <= 0xBF
    else if lead == 0xF4 then 0x80 <= b <= 0x8F
    else IsTail(b)
  }

  /** How many bytes the lead byte announces; zero for a byte that cannot lead. */
  function Announced(lead: byte): nat {
    if lead < 0x80 then 1
    else if 0xC2 <= lead <= 0xDF then 2
    else if 0xE0 <= lead <= 0xEF then 3
    else if 0xF0 <= lead <= 0xF4 then 4
    else 0
  }

  /** Length of the well-formed character at the front, zero if there is none. */
  function CharLength(s: bytes): (n: nat)
    requires s != []
    ensures n <= |s|
    ensures n > 1 ==> s[0] >= 0x80 && forall i :: 1 <= i < n ==> IsTail(s[i])
  {
    var n := Announced(s[0]);
    if n <= 1 then n
    else if n > |s| || !SecondFits(s[0], s[1]) then 0
    else if n >= 3 && !IsTail(s[2]) then 0
    else if n == 4 && !IsTail(s[3]) then 0
    else n
  }

  predicate Valid(s: bytes) {
    s == [] || (CharLength(s) > 0 && Valid(s[CharLength(s)..]))
  }

  /** A character's length does not depend on what follows it. */
  lemma {:induction false} CharThen(c: bytes, t: bytes)
    requires c != [] && CharLength(c) == |c|
    ensures CharLength(c + t) == |c| && (Valid(c + t) <==> Valid(t))
  {
    assert (c + t)[|c|..] == t;
  }

  /** Dropping well-formed text up to any ASCII byte, with or without it, leaves well-formed text. */
  lemma {:induction false} ValidFromAscii(s: bytes, i: nat)
    requires Valid(s) && i < |s| && s[i] < 0x80
    ensures Valid(s[i..]) && Valid(s[i + 1..])
  {
    var n := CharLength(s);
    if i == 0 {
      assert s[0..] == s && n == 1;
    } else {
      if i < n {
        assert false;
      }
      ValidFromAscii(s[n..], i - n);
      assert s[n..][i - n..] == s[i..];
      assert s[n..][i - n + 1..] == s[i + 1..];
    }
  }
}
