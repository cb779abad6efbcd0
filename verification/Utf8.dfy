/** Byte strings that are well-formed UTF-8 in the sense of RFC 3629, and where they can be cut. */
module Utf8 {
  import opened Base

  type byte = n: int | 0 <= n < 256

  predicate Tail(b: byte) { 0x80 <= b <= 0xBF }

  /** The length of the well-formed character at the start of s, by the table of section 4 of RFC 3629; 0 if there is none. */
  function CharLength(s: seq<byte>): (k: nat)
    ensures k <= 4 && k <= |s|
  {
    if s == [] then 0
    else if s[0] <= 0x7F then 1
    else if 0xC2 <= s[0] <= 0xDF then (if |s| >= 2 && Tail(s[1]) then 2 else 0)
    else if 0xE0 <= s[0] <= 0xEF then (if |s| >= 3 && SecondOk(s[0], s[1]) && Tail(s[2]) then 3 else 0)
    else if 0xF0 <= s[0] <= 0xF4 then (if |s| >= 4 && SecondOk(s[0], s[1]) && Tail(s[2]) && Tail(s[3]) then 4 else 0)
    else 0
  }

  /** The narrower ranges for the byte after E0, ED, F0 and F4. */
  predicate SecondOk(first: byte, second: byte) {
    if first == 0xE0 then 0xA0 <= second <= 0xBF
    else if first == 0xED then 0x80 <= second <= 0x9F
    else if first == 0xF0 then 0x90 <= second <= 0xBF
    else if first == 0xF4 then 0x80 <= second <= 0x8F
    else Tail(second)
  }

  predicate WellFormed(s: seq<byte>) {
    s == [] || (CharLength(s) > 0 && WellFormed(s[CharLength(s)..]))
  }

  /** The test a string slice is cut by: the ends, or any byte that does not continue a character. */
  predicate IsBoundary(s: seq<byte>, i: nat) {
    i == 0 || i == |s| || (i < |s| && !Tail(s[i]))
  }

  lemma CharInside(s: seq<byte>, c: nat)
    requires CharLength(s) > 0 && c <= |s|
    ensures !Tail(s[0])
    ensures 0 < c < CharLength(s) ==> Tail(s[c]) && CharLength(s[..c]) == 0
    ensures c >= CharLength(s) ==> CharLength(s[..c]) == CharLength(s)
  {
  }

  /** A well-formed string cut at c is well-formed exactly when c is a boundary. */
  lemma {:induction false} CutsAtBoundaries(s: seq<byte>, c: nat)
    requires WellFormed(s) && c <= |s|
    ensures WellFormed(s[..c]) <==> IsBoundary(s, c)
    decreases |s|
  {
    if s != [] && c > 0 {
      var k := CharLength(s);
      CharInside(s, c);
      if c >= k {
        CutsAtBoundaries(s[k..], c - k);
        assert s[..c][k..] == s[k..][..c - k];
        if k < |s| { CharInside(s[k..], 0); }
      }
    }
  }

  /** No character is longer than four bytes, so a boundary is never more than three bytes back. */
  lemma {:induction false} BoundaryNear(s: seq<byte>, c: nat)
    requires WellFormed(s) && c <= |s|
    ensures exists b: nat :: c <= b + 3 && b <= c && IsBoundary(s, b)
    decreases |s|
  {
    if c <= 3 {
      assert IsBoundary(s, 0);
    } else {
      var k := CharLength(s);
      BoundaryNear(s[k..], c - k);
      var b: nat :| c - k <= b + 3 && b <= c - k && IsBoundary(s[k..], b);
      CutsAtBoundaries(s, k);
      CharInside(s, k);
      assert s[..k][k..] == [];
      assert IsBoundary(s, b + k);
    }
  }
}
