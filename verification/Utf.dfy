/** UTF-16 strings, as JavaScript holds them, and their encoding as UTF-8 (section 3 of RFC 3629). */
module Utf {
  import opened Prelude

  /** One element of a JavaScript string. */
  type CodeUnit = n: nat | n < 0x10000

  predicate IsHigh(u: nat) { 0xD800 <= u < 0xDC00 }

  predicate IsLow(u: nat) { 0xDC00 <= u < 0xE000 }

  /** A Unicode scalar value. */
  type CodePoint = n: nat | n < 0x110000 && !(0xD800 <= n < 0xE000)

  const REPLACEMENT: CodePoint := 0xFFFD

  // ---------------------------------------------------------------- UTF-16

  /** The character a surrogate pair stands for. */
  function Joined(high: int, low: int): CodePoint
    requires 0xD800 <= high < 0xDC00 && 0xDC00 <= low < 0xE000
  {
    0x10000 + (high - 0xD800) * 0x400 + (low - 0xDC00)
  }

  /** The text of a string, with a replacement character for each lone surrogate. */
  function CodePoints(s: seq<CodeUnit>): seq<CodePoint> {
    if s == [] then []
    else if IsHigh(s[0]) && |s| > 1 && IsLow(s[1]) then
      [Joined(s[0], s[1])] + CodePoints(s[2..])
    else if IsHigh(s[0]) || IsLow(s[0]) then [REPLACEMENT] + CodePoints(s[1..])
    else [s[0]] + CodePoints(s[1..])
  }

  function Utf16One(c: CodePoint): (r: seq<CodeUnit>)
    ensures 1 <= |r| <= 2
  {
    if c < 0x10000 then [c] else [0xD800 + (c - 0x10000) / 0x400, 0xDC00 + (c - 0x10000) % 0x400]
  }

  function Utf16(cs: seq<CodePoint>): seq<CodeUnit> {
    if cs == [] then [] else Utf16One(cs[0]) + Utf16(cs[1..])
  }

  /** No surrogate stands alone. */
  predicate WellFormed(s: seq<CodeUnit>) {
    if s == [] then true
    else if IsHigh(s[0]) then |s| > 1 && IsLow(s[1]) && WellFormed(s[2..])
    else !IsLow(s[0]) && WellFormed(s[1..])
  }

  /** A string can be rebuilt from its code points exactly when it is well formed. */
  lemma {:induction false} RebuiltIff(s: seq<CodeUnit>)
    ensures Utf16(CodePoints(s)) == s <==> WellFormed(s)
  {
    if s == [] {
    } else if IsHigh(s[0]) && |s| > 1 && IsLow(s[1]) {
      RebuiltIff(s[2..]);
      var c := CodePoints(s)[0];
      assert CodePoints(s)[1..] == CodePoints(s[2..]);
      assert Utf16One(c) == [s[0], s[1]];
      assert s == [s[0], s[1]] + s[2..];
      assert Utf16(CodePoints(s))[2..] == Utf16(CodePoints(s[2..]));
    } else {
      RebuiltIff(s[1..]);
      assert CodePoints(s)[1..] == CodePoints(s[1..]);
      assert s == [s[0]] + s[1..];
      assert Utf16(CodePoints(s))[1..] == Utf16(CodePoints(s[1..]));
    }
  }

  // ---------------------------------------------------------------- UTF-8

  function Utf8One(c: CodePoint): (r: seq<Byte>)
    ensures 1 <= |r| <= 4
  {
    if c < 0x80 then [c]
    else if c < 0x800 then [0xC0 + c / 0x40, 0x80 + c % 0x40]
    else
      var d := c / 0x40;
      if c < 0x10000 then [0xE0 + d / 0x40, 0x80 + d % 0x40, 0x80 + c % 0x40]
      else
        var e := d / 0x40;
        [0xF0 + e / 0x40, 0x80 + e % 0x40, 0x80 + d % 0x40, 0x80 + c % 0x40]
  }

  function Utf8(cs: seq<CodePoint>): seq<Byte> {
    if cs == [] then [] else Utf8One(cs[0]) + Utf8(cs[1..])
  }

  predicate IsContinuation(b: Byte) { 0x80 <= b < 0xC0 }

  /** The length the first byte announces; zero for a byte that starts no character. */
  function SequenceLength(b: Byte): nat {
    if b < 0x80 then 1 else if 0xC0 <= b < 0xE0 then 2 else if 0xE0 <= b < 0xF0 then 3
    else if 0xF0 <= b < 0xF8 then 4 else 0
  }

  /** A sequence of the length its first byte announces, the others being continuation bytes. */
  predicate IsSequence(bs: seq<Byte>) {
    && 1 <= |bs| <= 4 && SequenceLength(bs[0]) == |bs|
    && (|bs| > 1 ==> IsContinuation(bs[1]))
    && (|bs| > 2 ==> IsContinuation(bs[2]))
    && (|bs| > 3 ==> IsContinuation(bs[3]))
  }

  /** The number such a sequence spells, ranges unchecked. */
  function Spelled(bs: seq<Byte>): nat
    requires IsSequence(bs)
  {
    if |bs| == 1 then bs[0]
    else if |bs| == 2 then Shifted(bs[0] - 0xC0, bs[1])
    else if |bs| == 3 then Shifted(Shifted(bs[0] - 0xE0, bs[1]), bs[2])
    else Shifted(Shifted(Shifted(bs[0] - 0xF0, bs[1]), bs[2]), bs[3])
  }

  /** Six more bits, from a continuation byte. */
  function Shifted(high: int, b: int): nat
    requires 0 <= high && 0x80 <= b
  {
    high * 0x40 + (b - 0x80)
  }

  /** The first character of a byte string: neither overlong, nor a surrogate, nor out of range. */
  function FirstCharacter(bs: seq<Byte>): (r: Option<CodePoint>)
    requires bs != []
    ensures r.Some? ==> 0 < SequenceLength(bs[0]) <= |bs|
  {
    var n := SequenceLength(bs[0]);
    if n == 0 || n > |bs| then None
    else if !IsSequence(bs[..n]) then None
    else
      var c := Spelled(bs[..n]);
      if c >= 0x110000 || 0xD800 <= c < 0xE000 then None
      else if (n == 2 && c < 0x80) || (n == 3 && c < 0x800) || (n == 4 && c < 0x10000) then None
      else Some(c)
  }

  /** A strict UTF-8 decoder. */
  function Utf8Decode(bs: seq<Byte>): Option<seq<CodePoint>> {
    if bs == [] then Some([])
    else
      var c := FirstCharacter(bs);
      if c.None? then None
      else
        var rest := Utf8Decode(bs[SequenceLength(bs[0])..]);
        if rest.None? then None else Some([c.value] + rest.value)
  }

  lemma Utf8OneSpells(c: CodePoint)
    ensures var bs := Utf8One(c);
            && IsSequence(bs) && Spelled(bs) == c
            && (|bs| == 2 ==> c >= 0x80) && (|bs| == 3 ==> c >= 0x800) && (|bs| == 4 ==> c >= 0x10000)
  {
  }

  lemma ShiftedParts(high: int, b: int)
    requires 0 <= high && 0x80 <= b < 0xC0
    ensures Shifted(high, b) / 0x40 == high && Shifted(high, b) % 0x40 == b - 0x80
  {
  }

  /** A character in the announced length and range is spelled in one way only. */
  lemma SpelledOnce(bs: seq<Byte>)
    requires IsSequence(bs) && FirstCharacter(bs).Some?
    ensures Utf8One(FirstCharacter(bs).value) == bs
  {
    assert bs[..|bs|] == bs;
    if |bs| == 2 {
      ShiftedParts(bs[0] - 0xC0, bs[1]);
    } else if |bs| == 3 {
      var d := Shifted(bs[0] - 0xE0, bs[1]);
      ShiftedParts(bs[0] - 0xE0, bs[1]);
      ShiftedParts(d, bs[2]);
    } else if |bs| == 4 {
      var e := Shifted(bs[0] - 0xF0, bs[1]);
      var d := Shifted(e, bs[2]);
      ShiftedParts(bs[0] - 0xF0, bs[1]);
      ShiftedParts(e, bs[2]);
      ShiftedParts(d, bs[3]);
    }
  }

  /** The first character of what an encoder wrote is the one it wrote first. */
  lemma FirstOfEncoded(c: CodePoint, rest: seq<Byte>)
    ensures var bs := Utf8One(c) + rest;
            FirstCharacter(bs) == Some(c) && SequenceLength(bs[0]) == |Utf8One(c)|
  {
    var one := Utf8One(c);
    var bs := one + rest;
    Utf8OneSpells(c);
    assert bs[0] == one[0];
    assert bs[..|one|] == one;
  }

  lemma {:induction false} Utf8DecodeOfEncode(cs: seq<CodePoint>)
    ensures Utf8Decode(Utf8(cs)) == Some(cs)
  {
    if cs != [] {
      var one, rest := Utf8One(cs[0]), Utf8(cs[1..]);
      FirstOfEncoded(cs[0], rest);
      Utf8DecodeOfEncode(cs[1..]);
      assert Utf8(cs) == one + rest && (one + rest)[|one|..] == rest;
      assert cs == [cs[0]] + cs[1..];
    }
  }

  /** Decoding takes a sequence off the front that encodes the first character. */
  lemma FirstSequence(bs: seq<Byte>)
    requires bs != [] && FirstCharacter(bs).Some?
    ensures bs[..SequenceLength(bs[0])] == Utf8One(FirstCharacter(bs).value)
  {
    var one := bs[..SequenceLength(bs[0])];
    assert one[..SequenceLength(bs[0])] == one;
    SpelledOnce(one);
  }

  lemma DecodeSplits(bs: seq<Byte>)
    requires bs != [] && Utf8Decode(bs).Some?
    ensures FirstCharacter(bs).Some? && Utf8Decode(bs[SequenceLength(bs[0])..]).Some?
    ensures Utf8Decode(bs).value == [FirstCharacter(bs).value] + Utf8Decode(bs[SequenceLength(bs[0])..]).value
  {
  }

  lemma EncodeSplits(c: CodePoint, cs: seq<CodePoint>)
    ensures Utf8([c] + cs) == Utf8One(c) + Utf8(cs)
  {
  }

  lemma {:induction false} Utf8EncodeOfDecode(bs: seq<Byte>)
    requires Utf8Decode(bs).Some?
    ensures Utf8(Utf8Decode(bs).value) == bs
    decreases |bs|
  {
    if bs != [] {
      DecodeSplits(bs);
      Utf8EncodeOfDecode(bs[SequenceLength(bs[0])..]);
      FrontEncoded(bs);
    }
  }

  /** If what follows the first character is encoded as it was, so is the whole. */
  lemma FrontEncoded(bs: seq<Byte>)
    requires bs != [] && Utf8Decode(bs).Some? && FirstCharacter(bs).Some?
    requires Utf8Decode(bs[SequenceLength(bs[0])..]).Some?
    requires var rest := bs[SequenceLength(bs[0])..]; Utf8(Utf8Decode(rest).value) == rest
    ensures Utf8(Utf8Decode(bs).value) == bs
  {
    DecodeSplits(bs);
    FirstSequence(bs);
    Glued(FirstCharacter(bs).value, Utf8Decode(bs[SequenceLength(bs[0])..]).value, bs, SequenceLength(bs[0]));
  }

  lemma Glued(c: CodePoint, cs: seq<CodePoint>, bs: seq<Byte>, n: nat)
    requires n <= |bs| && Utf8One(c) == bs[..n] && Utf8(cs) == bs[n..]
    ensures Utf8([c] + cs) == bs
  {
    EncodeSplits(c, cs);
    assert bs == bs[..n] + bs[n..];
  }

  /** Encoding and strict decoding are inverse to each other: a byte string is UTF-8 in one way or not at all. */
  lemma Utf8Iff(bs: seq<Byte>, cs: seq<CodePoint>)
    ensures Utf8Decode(bs) == Some(cs) <==> Utf8(cs) == bs
  {
    Utf8DecodeOfEncode(cs);
    if Utf8Decode(bs).Some? { Utf8EncodeOfDecode(bs); }
  }

  // ---------------------------------------------------------------- UTF-8, checked against its standard

  /** The ranges and bits of the table in section 3 of RFC 3629, `xyz` standing for the number of a character. */
  lemma Utf8Bits(c: CodePoint)
    ensures c <= 0x7F ==> Utf8One(c) == [c]
    ensures 0x80 <= c <= 0x7FF ==>
              Utf8One(c) == [0xC0 + c / 0x40, 0x80 + c % 0x40]
    ensures 0x800 <= c <= 0xFFFF ==>
              Utf8One(c) == [0xE0 + c / 0x1000, 0x80 + c / 0x40 % 0x40, 0x80 + c % 0x40]
    ensures 0x10000 <= c ==>
              Utf8One(c) == [0xF0 + c / 0x40000, 0x80 + c / 0x1000 % 0x40, 0x80 + c / 0x40 % 0x40, 0x80 + c % 0x40]
  {
    assert c / 0x40 / 0x40 == c / 0x1000;
    assert c / 0x40 / 0x40 / 0x40 == c / 0x40000;
  }

  /** A lone surrogate reads as U+FFFD, a pair as the character it stands for, anything else as itself. */
  lemma UnitsRead(u: CodeUnit, rest: seq<CodeUnit>)
    ensures var pair := 0xD800 <= u <= 0xDBFF && rest != [] && 0xDC00 <= rest[0] <= 0xDFFF;
            CodePoints([u] + rest)
            == if pair then [0x10000 + (u - 0xD800) * 0x400 + (rest[0] - 0xDC00)] + CodePoints(rest[1..])
               else [if 0xD800 <= u <= 0xDFFF then 0xFFFD else u] + CodePoints(rest)
  {
    assert ([u] + rest)[1..] == rest;
    if rest != [] { assert ([u] + rest)[2..] == rest[1..]; }
  }

  /** And is encoded as EF BF BD. */
  lemma ReplacementBytes()
    ensures Utf8One(0xFFFD) == [0xEF, 0xBF, 0xBD]
  {
    Utf8Bits(0xFFFD);
  }
}
