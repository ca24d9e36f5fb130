/** Strings as the browser holds them (UTF-16 code units) and their UTF-8 encoding. */
module Utf16 {
  import opened Bytes
  import Utf8

  type unit = u: int | 0 <= u < 0x10000

  predicate IsHigh(u: unit) {
    0xD800 <= u <= 0xDBFF
  }

  predicate IsLow(u: unit) {
    0xDC00 <= u <= 0xDFFF
  }

  /** How many units the first character takes: a surrogate pair takes two. */
  function FirstUnits(s: seq<unit>): (n: nat)
    requires s != []
    ensures 1 <= n <= |s|
  {
    if IsHigh(s[0]) && |s| > 1 && IsLow(s[1]) then 2 else 1
  }

  /** The first character; a surrogate without its partner becomes U+FFFD. */
  function FirstScalar(s: seq<unit>): (c: nat)
    requires s != []
    ensures c < 0x110000 && !(0xD800 <= c <= 0xDFFF)
  {
    if FirstUnits(s) == 2 then
      var high: int, low: int := s[0], s[1];
      0x10000 + (high - 0xD800) * 0x400 + (low - 0xDC00)
    else if IsHigh(s[0]) || IsLow(s[0]) then 0xFFFD
    else s[0]
  }

  function EncodeScalar(c: nat): seq<byte>
    requires c < 0x110000
  {
    if c < 0x80 then [c]
    else if c < 0x800 then [0xC0 + c / 64, 0x80 + c % 64]
    else if c < 0x10000 then [0xE0 + c / 4096, 0x80 + c / 64 % 64, 0x80 + c % 64]
    else [0xF0 + c / 262144, 0x80 + c / 4096 % 64, 0x80 + c / 64 % 64, 0x80 + c % 64]
  }

  function Encode(s: seq<unit>): seq<byte> {
    if s == [] then [] else EncodeScalar(FirstScalar(s)) + Encode(s[FirstUnits(s)..])
  }

  lemma ScalarIsOneCharacter(c: nat, rest: seq<byte>)
    requires c < 0x110000 && !(0xD800 <= c <= 0xDFFF)
    ensures Utf8.CharLength(EncodeScalar(c) + rest) == |EncodeScalar(c)|
  {
    var s := EncodeScalar(c) + rest;
    if 0x80 <= c < 0x800 {
      assert s[..2] == EncodeScalar(c);
    } else if 0x800 <= c < 0x10000 {
      assert s[..3] == EncodeScalar(c);
    } else if 0x10000 <= c {
      assert s[..4] == EncodeScalar(c);
    }
  }

  lemma {:induction false} EncodeIsWellFormed(s: seq<unit>)
    ensures Utf8.WellFormed(Encode(s))
  {
    if s != [] {
      var c := FirstScalar(s);
      var rest := Encode(s[FirstUnits(s)..]);
      EncodeIsWellFormed(s[FirstUnits(s)..]);
      ScalarIsOneCharacter(c, rest);
      assert (EncodeScalar(c) + rest)[|EncodeScalar(c)|..] == rest;
    }
  }

  /** Encoding never takes fewer bytes than the string has units. */
  lemma {:induction false} EncodeIsNotShorter(s: seq<unit>)
    ensures |Encode(s)| >= |s|
  {
    if s != [] { EncodeIsNotShorter(s[FirstUnits(s)..]); }
  }

  // ---- Decoding gives the text back ----

  /** The units of a character: beyond the first 65536, a surrogate pair (section 2.1 of RFC 2781). */
  function UnitsOf(c: int): seq<int> {
    if c < 0x10000 then [c] else [0xD800 + (c - 0x10000) / 0x400, 0xDC00 + (c - 0x10000) % 0x400]
  }

  function Units(characters: seq<int>): seq<int> {
    if characters == [] then [] else UnitsOf(characters[0]) + Units(characters[1..])
  }

  /** The unit at `i`, or U+FFFD for a surrogate without its partner. */
  function Repaired(s: seq<unit>, i: nat): nat
    requires i < |s|
  {
    if IsHigh(s[i]) && !(i + 1 < |s| && IsLow(s[i + 1])) then 0xFFFD
    else if IsLow(s[i]) && !(i > 0 && IsHigh(s[i - 1])) then 0xFFFD
    else s[i]
  }

  lemma ScalarDecodes(c: nat, rest: seq<byte>)
    requires c < 0x110000 && !(0xD800 <= c <= 0xDFFF)
    ensures Utf8.CharLength(EncodeScalar(c) + rest) == |EncodeScalar(c)| > 0
    ensures Utf8.FirstCharacter(EncodeScalar(c) + rest) == c
  {
    ScalarIsOneCharacter(c, rest);
    var e, s := EncodeScalar(c), EncodeScalar(c) + rest;
    assert s[0] == e[0] && (|e| > 1 ==> s[1] == e[1]) && (|e| > 2 ==> s[2] == e[2]) && (|e| > 3 ==> s[3] == e[3]);
    hide Utf8.CharLength;
    SixBits(c);
    SixBits(c / 64);
    SixBits(c / 4096);
    assert c / 64 / 64 == c / 4096 && c / 4096 / 64 == c / 262144;
  }

  lemma SixBits(n: nat)
    ensures n == n / 64 * 64 + n % 64
  {
  }

  lemma FirstUnitsBack(s: seq<unit>)
    requires s != []
    ensures var n := FirstUnits(s);
            && UnitsOf(FirstScalar(s)) == seq(n, i requires 0 <= i < n => Repaired(s, i))
            && (n < |s| ==> !(IsHigh(s[n - 1]) && IsLow(s[n])))
  {
    var u := UnitsOf(FirstScalar(s));
    if FirstUnits(s) == 2 {
      var high: int, low: int := s[0], s[1];
      assert FirstScalar(s) - 0x10000 == (high - 0xD800) * 0x400 + (low - 0xDC00);
      assert u[0] == high && u[1] == low;
    }
  }

  /** The UTF-8 of a text, decoded, is the text; only surrogates without a partner become U+FFFD. */
  lemma {:induction false} DecodeInvertsEncode(s: seq<unit>)
    ensures Utf8.WellFormed(Encode(s))
    ensures Units(Utf8.Decode(Encode(s))) == seq(|s|, i requires 0 <= i < |s| => Repaired(s, i))
  {
    EncodeIsWellFormed(s);
    if s != [] {
      var n, c := FirstUnits(s), FirstScalar(s);
      var tail := s[n..];
      var rest := Encode(tail);
      DecodeInvertsEncode(tail);
      ScalarDecodes(c, rest);
      assert (EncodeScalar(c) + rest)[|EncodeScalar(c)|..] == rest;
      assert Utf8.Decode(Encode(s)) == [c] + Utf8.Decode(rest);
      assert ([c] + Utf8.Decode(rest))[1..] == Utf8.Decode(rest);
      FirstUnitsBack(s);
      TailRepaired(s, n);
    }
  }

  lemma TailRepaired(s: seq<unit>, n: nat)
    requires 0 < n <= |s| && (n < |s| ==> !(IsHigh(s[n - 1]) && IsLow(s[n])))
    ensures forall i :: 0 <= i < |s| - n ==> Repaired(s[n..], i) == Repaired(s, n + i)
  {
  }
}
