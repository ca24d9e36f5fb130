/**
 * The instructions the remote-desktop tunnel sends: elements with their length in characters in
 * front, separated by commas and ended by a semicolon. Texts are sequences of UTF-16 units.
 */
module GuacamoleInstruction {
  import opened Bytes
  import Utf16

  type Text = seq<Utf16.unit>

  const DOT: Utf16.unit := 0x2E
  const COMMA: Utf16.unit := 0x2C
  const SEMICOLON: Utf16.unit := 0x3B

  // ---- The encoder ----

  /** `Array.from(text).length`: a surrogate pair is one character, a lone surrogate another. */
  function Characters(text: Text): nat {
    if text == [] then 0 else 1 + Characters(text[Utf16.FirstUnits(text)..])
  }

  function Decimal(n: nat): (digits: Text)
    ensures digits != [] && forall i :: 0 <= i < |digits| ==> 0x30 <= digits[i] <= 0x39
  {
    if n < 10 then [0x30 + n] else Decimal(n / 10) + [0x30 + n % 10]
  }

  function EncodeElement(text: Text): Text {
    Decimal(Characters(text)) + [DOT] + text
  }

  /** `parts.join(",")` */
  function Join(parts: seq<Text>): Text {
    if parts == [] then [] else if |parts| == 1 then parts[0] else parts[0] + [COMMA] + Join(parts[1..])
  }

  function EncodeElements(elements: seq<Text>): (parts: seq<Text>)
    ensures |parts| == |elements|
  {
    seq(|elements|, i requires 0 <= i < |elements| => EncodeElement(elements[i]))
  }

  function Encode(elements: seq<Text>): Text {
    Join(EncodeElements(elements)) + [SEMICOLON]
  }

  // ---- A decoder ----

  /** Where the first dot is. */
  function DotIndex(s: Text): (i: nat)
    ensures i <= |s| && DOT !in s[..i] && (i < |s| ==> s[i] == DOT)
  {
    if s == [] || s[0] == DOT then 0 else 1 + DotIndex(s[1..])
  }

  /** The number that `digits` spells, if it is spelled in the usual way. */
  function Number(digits: Text): Option<nat> {
    var n := Value(digits);
    if Decimal(n) == digits then Some(n) else None
  }

  function Value(digits: Text): nat {
    if digits == [] then 0
    else
      var digit := digits[|digits| - 1];
      Value(digits[..|digits| - 1]) * 10 + if 0x30 <= digit <= 0x39 then digit - 0x30 else 0
  }

  /** How many units the first `n` characters take. */
  function UnitsOf(s: Text, n: nat): (units: Option<nat>)
    ensures units.Some? ==> units.value <= |s|
  {
    if n == 0 then Some(0)
    else if s == [] then None
    else
      var rest := UnitsOf(s[Utf16.FirstUnits(s)..], n - 1);
      if rest.Some? then Some(Utf16.FirstUnits(s) + rest.value) else None
  }

  datatype Decoded<T> = Decoded(value: T, rest: Text)

  function DecodeElement(s: Text): (r: Option<Decoded<Text>>)
    ensures r.Some? ==> |r.value.rest| < |s|
  {
    var i := DotIndex(s);
    if i == |s| || Number(s[..i]) == None then None
    else
      var tail := s[i + 1..];
      var units := UnitsOf(tail, Number(s[..i]).value);
      if units.None? then None else Some(Decoded(tail[..units.value], tail[units.value..]))
  }

  function Decode(s: Text): Option<Decoded<seq<Text>>>
    decreases |s|
  {
    var first := DecodeElement(s);
    if first.None? || first.value.rest == [] then None
    else
      var rest := first.value.rest[1..];
      if first.value.rest[0] == SEMICOLON then Some(Decoded([first.value.value], rest))
      else if first.value.rest[0] == COMMA && Decode(rest).Some? then
        Some(Decoded([first.value.value] + Decode(rest).value.value, Decode(rest).value.rest))
      else None
  }

  // ---- One element ----

  lemma {:induction false} DotAfterDigits(digits: Text, tail: Text)
    requires DOT !in digits
    ensures DotIndex(digits + [DOT] + tail) == |digits|
    decreases |digits|
  {
    var s := digits + [DOT] + tail;
    if digits == [] {
      assert s[0] == DOT;
    } else {
      DotAfterDigits(digits[1..], tail);
      assert s[0] == digits[0] && s[1..] == digits[1..] + [DOT] + tail;
    }
  }

  lemma {:induction false} NumberOfDecimal(n: nat)
    ensures Value(Decimal(n)) == n && Number(Decimal(n)) == Some(n)
  {
    if n >= 10 {
      NumberOfDecimal(n / 10);
      assert Decimal(n)[..|Decimal(n)| - 1] == Decimal(n / 10);
    } else {
      assert Decimal(n)[..0] == [];
    }
  }

  /** What follows cannot become part of the text's last character. */
  lemma {:induction false} UnitsOfText(text: Text, rest: Text)
    requires rest != [] ==> !Utf16.IsLow(rest[0])
    ensures UnitsOf(text + rest, Characters(text)) == Some(|text|)
  {
    if text != [] {
      var n := Utf16.FirstUnits(text);
      assert Utf16.FirstUnits(text + rest) == n;
      assert (text + rest)[n..] == text[n..] + rest;
      UnitsOfText(text[n..], rest);
    }
  }

  lemma {:induction false} CharactersOfUnits(s: Text, n: nat)
    requires UnitsOf(s, n).Some?
    ensures Characters(s[..UnitsOf(s, n).value]) == n
  {
    if n > 0 {
      var k, m := Utf16.FirstUnits(s), UnitsOf(s, n).value;
      CharactersOfUnits(s[k..], n - 1);
      assert s[..m][k..] == s[k..][..m - k];
      assert Utf16.FirstUnits(s[..m]) == k;
    }
  }

  lemma ElementDecoded(text: Text, rest: Text)
    requires rest != [] && !Utf16.IsLow(rest[0])
    ensures DecodeElement(EncodeElement(text) + rest) == Some(Decoded(text, rest))
  {
    hide Characters, Decimal, UnitsOf, DotIndex, Number, Utf16.IsLow;
    var digits, tail := Decimal(Characters(text)), text + rest;
    var s := EncodeElement(text) + rest;
    assert s == digits + [DOT] + tail;
    DotAfterDigits(digits, tail);
    NumberOfDecimal(Characters(text));
    UnitsOfText(text, rest);
    assert s[..|digits|] == digits && s[|digits| + 1..] == tail;
    assert tail[..|text|] == text && tail[|text|..] == rest;
  }

  lemma ElementEncoded(s: Text)
    requires DecodeElement(s).Some?
    ensures s == EncodeElement(DecodeElement(s).value.value) + DecodeElement(s).value.rest
  {
    hide Characters, Decimal, UnitsOf, DotIndex, Value;
    var i := DotIndex(s);
    var n, tail := Number(s[..i]).value, s[i + 1..];
    CharactersOfUnits(tail, n);
    var text, rest := DecodeElement(s).value.value, DecodeElement(s).value.rest;
    assert tail == text + rest;
    assert s == s[..i] + [DOT] + tail;
    assert s == (s[..i] + [DOT] + text) + rest;
  }

  // ---- Instructions ----

  lemma EncodeUnfolds(elements: seq<Text>)
    requires elements != []
    ensures |elements| == 1 ==> Encode(elements) == EncodeElement(elements[0]) + [SEMICOLON]
    ensures |elements| > 1 ==> Encode(elements) == EncodeElement(elements[0]) + [COMMA] + Encode(elements[1..])
  {
    assert EncodeElements(elements)[1..] == EncodeElements(elements[1..]);
  }

  lemma {:induction false} DecodeOfEncode(elements: seq<Text>, rest: Text)
    requires elements != []
    ensures Decode(Encode(elements) + rest) == Some(Decoded(elements, rest))
    decreases |elements|
  {
    hide Encode, EncodeElement, DecodeElement;
    var s := Encode(elements) + rest;
    EncodeUnfolds(elements);
    if |elements| == 1 {
      var after := [SEMICOLON] + rest;
      assert s == EncodeElement(elements[0]) + after;
      ElementDecoded(elements[0], after);
      assert after[1..] == rest && [elements[0]] == elements;
    } else {
      var more := Encode(elements[1..]) + rest;
      var after := [COMMA] + more;
      assert s == EncodeElement(elements[0]) + after;
      ElementDecoded(elements[0], after);
      assert after[1..] == more;
      DecodeOfEncode(elements[1..], rest);
      assert [elements[0]] + elements[1..] == elements;
    }
  }

  lemma {:induction false} EncodeOfDecode(s: Text)
    requires Decode(s).Some?
    ensures Decode(s).value.value != []
    ensures s == Encode(Decode(s).value.value) + Decode(s).value.rest
    decreases |s|
  {
    hide Encode, EncodeElement, DecodeElement;
    var first := DecodeElement(s).value;
    var text, more := first.value, first.rest[1..];
    ElementEncoded(s);
    EncodeUnfolds(Decode(s).value.value);
    assert first.rest == [first.rest[0]] + more;
    if first.rest[0] == SEMICOLON {
      assert s == (EncodeElement(text) + [SEMICOLON]) + more;
    } else {
      EncodeOfDecode(more);
      var tail := Decode(more).value;
      assert Decode(s).value.value[1..] == tail.value;
      assert s == (EncodeElement(text) + [COMMA] + Encode(tail.value)) + tail.rest;
    }
  }

  /** For every text: it decodes to these elements and this rest exactly when it is their encoding followed by the rest. */
  lemma DecodeInvertsEncode(s: Text, elements: seq<Text>, rest: Text)
    ensures Decode(s) == Some(Decoded(elements, rest)) <==> elements != [] && s == Encode(elements) + rest
  {
    if Decode(s) == Some(Decoded(elements, rest)) { EncodeOfDecode(s); }
    if elements != [] && s == Encode(elements) + rest { DecodeOfEncode(elements, rest); }
  }

  /** Distinct lists have distinct encodings, and none is a prefix of another. */
  lemma UniquelyDecodable(a: seq<Text>, b: seq<Text>)
    requires a != [] && b != []
    ensures Encode(a) <= Encode(b) <==> a == b
  {
    if Encode(a) <= Encode(b) {
      var rest := Encode(b)[|Encode(a)|..];
      assert Encode(b) == Encode(a) + rest && Encode(b) == Encode(b) + [];
      DecodeOfEncode(a, rest);
      DecodeOfEncode(b, []);
    }
  }

  // ---- On the wire ----

  /** A frame answer: `4.sync,` and the length, a dot, the time and a semicolon. */
  lemma SyncOnTheWire(time: Text)
    requires |time| < 10 && forall i :: 0 <= i < |time| ==> time[i] < 0x80
    ensures Encode([SYNC, time]) == [0x34, 0x2E, 0x73, 0x79, 0x6E, 0x63, 0x2C, 0x30 + |time|, 0x2E] + time + [0x3B]
  {
    JoinTwo(SYNC, time);
    PlainElement(SYNC);
    PlainElement(time);
    hide Encode, EncodeElement;
    assert [0x34, 0x2E, 0x73, 0x79, 0x6E, 0x63, 0x2C, 0x30 + |time|, 0x2E] == [0x34, 0x2E] + SYNC + [0x2C] + [0x30 + |time|, 0x2E];
  }

  /** A character outside the first 65536 is one character, though two units. */
  lemma PairOnTheWire()
    ensures Encode([[0xD83D, 0xDE00]]) == [0x31, 0x2E, 0xD83D, 0xDE00, 0x3B]
  {
    var pair: Text := [0xD83D, 0xDE00];
    assert pair[2..] == [];
    assert Utf16.FirstUnits(pair) == 2 && Characters([]) == 0;
    EncodeUnfolds([pair]);
  }

  lemma PlainElement(text: Text)
    requires |text| < 10 && forall i :: 0 <= i < |text| ==> text[i] < 0x80
    ensures EncodeElement(text) == [0x30 + |text|, 0x2E] + text
  {
    PlainCharacters(text);
  }

  lemma JoinTwo(a: Text, b: Text)
    ensures Encode([a, b]) == EncodeElement(a) + [COMMA] + EncodeElement(b) + [SEMICOLON]
  {
    EncodeUnfolds([a, b]);
    EncodeUnfolds([b]);
    assert [a, b][1..] == [b];
    hide Encode, EncodeElement;
  }

  lemma {:induction false} PlainCharacters(text: Text)
    requires forall i :: 0 <= i < |text| ==> text[i] < 0x80
    ensures Characters(text) == |text|
  {
    if text != [] { PlainCharacters(text[1..]); }
  }

  // ---- A stream of instructions ----

  function EncodeStream(instructions: seq<seq<Text>>): Text {
    if instructions == [] then [] else Encode(instructions[0]) + EncodeStream(instructions[1..])
  }

  lemma {:induction false} EncodeStreamSnoc(instructions: seq<seq<Text>>, elements: seq<Text>)
    ensures EncodeStream(instructions + [elements]) == EncodeStream(instructions) + Encode(elements)
  {
    if instructions == [] {
      assert [elements][1..] == [] && [] + [elements] == [elements];
      assert EncodeStream([elements]) == Encode(elements) + EncodeStream([]);
    } else {
      EncodeStreamSnoc(instructions[1..], elements);
      assert (instructions + [elements])[1..] == instructions[1..] + [elements];
    }
  }

  /** The boundaries of the frames carry nothing: the instructions are found in the stream alone. */
  lemma {:induction false} StreamIsUnique(a: seq<seq<Text>>, b: seq<seq<Text>>)
    requires forall i :: 0 <= i < |a| ==> a[i] != []
    requires forall i :: 0 <= i < |b| ==> b[i] != []
    requires EncodeStream(a) == EncodeStream(b)
    ensures a == b
  {
    if a == [] || b == [] {
    } else {
      DecodeOfEncode(a[0], EncodeStream(a[1..]));
      DecodeOfEncode(b[0], EncodeStream(b[1..]));
      StreamIsUnique(a[1..], b[1..]);
      assert a == [a[0]] + a[1..] && b == [b[0]] + b[1..];
    }
  }

  // ---- The tunnel ----

  const SYNC: Text := [0x73, 0x79, 0x6E, 0x63]
  const UNDEFINED: Text := [0x75, 0x6E, 0x64, 0x65, 0x66, 0x69, 0x6E, 0x65, 0x64]

  /** The sending half of the tunnel: `heldSync` is the frame answer that waits until the desktop is shown. */
  class TunnelSender {
    var heldSync: Option<Text>
    var stream: Text
    ghost var instructions: seq<seq<Text>>

    /** What went out is exactly the instructions that were sent. */
    ghost predicate Valid()
      reads this
    {
      stream == EncodeStream(instructions)
    }

    constructor ()
      ensures Valid() && heldSync == None && instructions == []
    {
      heldSync, stream, instructions := None, [], [];
    }

    /**
     * A frame answer of a hidden desktop is held, and only the latest one; everything else goes out
     * at once. `open`: the tunnel and its socket are open.
     */
    method SendMessage(elements: seq<Text>, open: bool, hidden: bool)
      requires Valid()
      modifies this
      ensures Valid()
      ensures var held := open && elements != [] && elements[0] == SYNC && hidden;
              && heldSync == (if held then Some(if |elements| > 1 then elements[1] else UNDEFINED) else old(heldSync))
              && instructions == old(instructions) + if open && !held then [elements] else []
    {
      if !open { return; }
      if elements != [] && elements[0] == SYNC && hidden {
        heldSync := Some(if |elements| > 1 then elements[1] else UNDEFINED);
        return;
      }
      stream := stream + Encode(elements);
      EncodeStreamSnoc(instructions, elements);
      instructions := instructions + [elements];
    }

    /** Shown again, the latest held answer goes out once. */
    method ReleaseSync(open: bool, hidden: bool)
      requires Valid()
      modifies this
      ensures Valid()
      ensures heldSync == if hidden then old(heldSync) else None
      ensures instructions == old(instructions) + if open && !hidden
        && old(heldSync).Some? then [[SYNC, old(heldSync).value]] else []
    {
      if hidden || heldSync == None { return; }
      var timestamp := heldSync.value;
      heldSync := None;
      SendMessage([SYNC, timestamp], open, hidden);
    }
  }
}
