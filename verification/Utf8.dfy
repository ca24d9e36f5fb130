/** Well-formed UTF-8 as section 4 of RFC 3629 defines it, and where its characters may be cut. */
module Utf8 {
  import opened Bytes

  /** UTF8-tail: the bytes whose top two bits are 10. */
  predicate IsTail(b: byte) {
    0x80 <= b <= 0xBF
  }

  /** The second byte a three-byte character may have after `b`. */
  predicate Second3(b: byte, c: byte) {
    || (b == 0xE0 && 0xA0 <= c <= 0xBF)
    || (0xE1 <= b <= 0xEC && IsTail(c))
    || (b == 0xED && 0x80 <= c <= 0x9F)
    || (0xEE <= b <= 0xEF && IsTail(c))
  }

  /** The second byte a four-byte character may have after `b`. */
  predicate Second4(b: byte, c: byte) {
    || (b == 0xF0 && 0x90 <= c <= 0xBF)
    || (0xF1 <= b <= 0xF3 && IsTail(c))
    || (b == 0xF4 && 0x80 <= c <= 0x8F)
  }

  /** Length of the character `s` starts with; 0 when it starts with none. */
  function CharLength(s: seq<byte>): (n: nat)
    ensures n <= |s| && n <= 4
    ensures n > 0 ==> !IsTail(s[0])
    ensures forall i :: 1 <= i < n ==> IsTail(s[i])
  {
    if s == [] then 0
    else if s[0] < 0x80 then 1
    else if |s| >= 2 && 0xC2 <= s[0] <= 0xDF && IsTail(s[1]) then 2
    else if |s| >= 3 && Second3(s[0], s[1]) && IsTail(s[2]) then 3
    else if |s| >= 4 && Second4(s[0], s[1]) && IsTail(s[2]) && IsTail(s[3]) then 4
    else 0
  }

  predicate WellFormed(s: seq<byte>)
    decreases |s|
  {
    s == [] || (CharLength(s) > 0 && WellFormed(s[CharLength(s)..]))
  }

  /** What a byte holds beyond its leading bits. */
  function Bits(b: byte, lead: int): int {
    var n: int := b;
    n - lead
  }

  /** The character number of the first character, from the bits of its bytes. */
  function FirstCharacter(s: seq<byte>): int
    requires CharLength(s) > 0
  {
    match CharLength(s)
    case 1 => Bits(s[0], 0)
    case 2 => Bits(s[0], 0xC0) * 64 + Bits(s[1], 0x80)
    case 3 => Bits(s[0], 0xE0) * 4096 + Bits(s[1], 0x80) * 64 + Bits(s[2], 0x80)
    case _ => Bits(s[0], 0xF0) * 262144 + Bits(s[1], 0x80) * 4096 + Bits(s[2], 0x80) * 64 + Bits(s[3], 0x80)
  }

  function Decode(s: seq<byte>): seq<int>
    requires WellFormed(s)
    decreases |s|
  {
    if s == [] then [] else [FirstCharacter(s)] + Decode(s[CharLength(s)..])
  }

  lemma CharLengthPrefix(s: seq<byte>, p: nat)
    requires CharLength(s) <= p <= |s|
    ensures CharLength(s) > 0 ==> CharLength(s[..p]) == CharLength(s)
  {
  }

  /** A well-formed text may be cut before any byte that does not continue a character. */
  lemma {:induction false} CutBeforeNonTail(s: seq<byte>, p: nat)
    requires WellFormed(s) && p <= |s|
    requires p == |s| || !IsTail(s[p])
    ensures WellFormed(s[..p]) && WellFormed(s[p..])
    decreases |s|
  {
    var n := CharLength(s);
    if p == 0 {
      assert s[..0] == [] && s[0..] == s;
    } else {
      assert n <= p;
      CutBeforeNonTail(s[n..], p - n);
      CharLengthPrefix(s, p);
      assert s[n..][..p - n] == s[..p][n..];
      assert s[n..][p - n..] == s[p..];
    }
  }

  /** No more than three bytes in a row continue a character. */
  lemma {:induction false} NonTailWithinFour(s: seq<byte>, p: nat) returns (q: nat)
    requires WellFormed(s) && p + 3 < |s|
    ensures p <= q <= p + 3 && !IsTail(s[q])
    decreases |s|
  {
    var n := CharLength(s);
    if p == 0 {
      q := 0;
    } else if p < n {
      q := n;
      assert CharLength(s[n..]) > 0;
      assert s[n..][0] == s[n];
    } else {
      var r := NonTailWithinFour(s[n..], p - n);
      q := r + n;
    }
  }
}
