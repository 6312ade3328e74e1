/** Base64 (section 4 of RFC 4648), as btoa writes it and atob reads it. */
module Base64 {
  import opened Prelude

  /** Six bits. */
  type Sextet = n: nat | n < 64

  // The four sextets of the bytes a, b, c.

  function Sextet0(a: Byte): Sextet { a / 4 }

  function Sextet1(a: Byte, b: Byte): Sextet { a % 4 * 16 + b / 16 }

  function Sextet2(b: Byte, c: Byte): Sextet { b % 16 * 4 + c / 64 }

  function Sextet3(c: Byte): Sextet { c % 64 }

  /** Bytes regrouped in sixes: four for three bytes, two or three, filled with zeros, for what is left. */
  function Sextets(bs: seq<Byte>): seq<Sextet> {
    if |bs| == 0 then []
    else if |bs| == 1 then [Sextet0(bs[0]), Sextet1(bs[0], 0)]
    else if |bs| == 2 then [Sextet0(bs[0]), Sextet1(bs[0], bs[1]), Sextet2(bs[1], 0)]
    else [Sextet0(bs[0]), Sextet1(bs[0], bs[1]), Sextet2(bs[1], bs[2]), Sextet3(bs[2])] + Sextets(bs[3..])
  }

  // And the bytes of the sextets.

  function FirstByte(v0: Sextet, v1: Sextet): Byte { v0 * 4 + v1 / 16 }

  function SecondByte(v1: Sextet, v2: Sextet): Byte { v1 % 16 * 16 + v2 / 4 }

  function ThirdByte(v2: Sextet, v3: Sextet): Byte { v2 % 4 * 64 + v3 }

  /** The bytes sextets stand for; bits left over are discarded, and a lone sextet is an error. */
  function FromSextets(vs: seq<Sextet>): Option<seq<Byte>> {
    if |vs| == 0 then Some([])
    else if |vs| == 1 then None
    else if |vs| == 2 then Some([FirstByte(vs[0], vs[1])])
    else if |vs| == 3 then Some([FirstByte(vs[0], vs[1]), SecondByte(vs[1], vs[2])])
    else
      var rest := FromSextets(vs[4..]);
      if rest.None? then None
      else Some([FirstByte(vs[0], vs[1]), SecondByte(vs[1], vs[2]), ThirdByte(vs[2], vs[3])] + rest.value)
  }

  /** Table 1 in section 4 of RFC 4648. */
  function Digit(v: Sextet): char {
    if v < 26 then 'A' + v as char
    else if v < 52 then 'a' + (v - 26) as char
    else if v < 62 then '0' + (v - 52) as char
    else if v == 62 then '+' else '/'
  }

  function DigitValue(c: char): Option<Sextet> {
    if 'A' <= c <= 'Z' then Some((c - 'A') as nat)
    else if 'a' <= c <= 'z' then Some((c - 'a') as nat + 26)
    else if '0' <= c <= '9' then Some((c - '0') as nat + 52)
    else if c == '+' then Some(62)
    else if c == '/' then Some(63)
    else None
  }

  function Digits(vs: seq<Sextet>): string {
    if vs == [] then "" else [Digit(vs[0])] + Digits(vs[1..])
  }

  function FromDigits(t: string): Option<seq<Sextet>> {
    if t == "" then Some([])
    else
      var v, rest := DigitValue(t[0]), FromDigits(t[1..]);
      if v.None? || rest.None? then None else Some([v.value] + rest.value)
  }

  function Padding(n: nat): string {
    if n % 3 == 1 then "==" else if n % 3 == 2 then "=" else ""
  }

  /** btoa, on a string of which each element is a byte. */
  function Btoa(bs: seq<Byte>): string {
    Digits(Sextets(bs)) + Padding(|bs|)
  }

  predicate IsAsciiSpace(c: char) {
    c == ' ' || c == '\t' || c == '\n' || c == '\r' || c == '\U{0C}'
  }

  function WithoutSpaces(t: string): string {
    if t == "" then ""
    else if IsAsciiSpace(t[0]) then WithoutSpaces(t[1..])
    else [t[0]] + WithoutSpaces(t[1..])
  }

  /** Drops the padding of a text whose length is a multiple of four. */
  function WithoutPadding(t: string): string {
    if |t| % 4 != 0 || t == "" || t[|t| - 1] != '=' then t
    else if t[|t| - 2] != '=' then t[..|t| - 1]
    else t[..|t| - 2]
  }

  /** atob: spaces and padding are forgiven, anything else outside the alphabet throws. */
  function Atob(t: string): Option<seq<Byte>> {
    var vs := FromDigits(WithoutPadding(WithoutSpaces(t)));
    if vs.None? then None else FromSextets(vs.value)
  }

  // ---------------------------------------------------------------- Base64 round trip

  lemma {:induction false} DigitsRead(vs: seq<Sextet>)
    ensures FromDigits(Digits(vs)) == Some(vs)
    ensures |Digits(vs)| == |vs|
    ensures Plain(Digits(vs))
  {
    if vs != [] {
      DigitsRead(vs[1..]);
      DigitRead(vs[0]);
      assert vs == [vs[0]] + vs[1..];
      assert Digits(vs)[1..] == Digits(vs[1..]);
    }
  }

  lemma DigitRead(v: Sextet)
    ensures DigitValue(Digit(v)) == Some(v)
    ensures !IsAsciiSpace(Digit(v)) && Digit(v) != '='
  {
  }

  /** Three bytes and their four sextets are the same 24 bits, most significant first. */
  lemma SameBits(a: Byte, b: Byte, c: Byte)
    ensures Sextet0(a) * 0x40000 + Sextet1(a, b) * 0x1000 + Sextet2(b, c) * 0x40 + Sextet3(c)
         == a * 0x10000 + b * 0x100 + c
  {
  }

  /** Digits are neither spaces nor padding. */
  predicate Plain(t: string) {
    forall c :: c in t ==> !IsAsciiSpace(c) && c != '='
  }

  lemma {:induction false} NoSpaces(t: string)
    requires forall c :: c in t ==> !IsAsciiSpace(c)
    ensures WithoutSpaces(t) == t
  {
    if t != "" { NoSpaces(t[1..]); }
  }

  lemma PaddingDropped(d: string, n: nat)
    requires Plain(d) && |d| % 4 == (if n % 3 == 0 then 0 else if n % 3 == 1 then 2 else 3)
    ensures WithoutPadding(d + Padding(n)) == d
  {
    var t := d + Padding(n);
    if d != "" { assert d[|d| - 1] in d; }
    if n % 3 == 0 {
      assert t == d;
    } else if n % 3 == 1 {
      assert t[..|t| - 2] == d;
    } else {
      assert t[|t| - 2] == d[|d| - 1];
      assert t[..|t| - 1] == d;
    }
  }

  lemma {:induction false} SextetCount(bs: seq<Byte>)
    ensures |Sextets(bs)| % 4 == (if |bs| % 3 == 0 then 0 else if |bs| % 3 == 1 then 2 else 3)
  {
    if |bs| >= 3 { SextetCount(bs[3..]); }
  }

  lemma UnpaddedAgain(bs: seq<Byte>)
    ensures WithoutPadding(WithoutSpaces(Btoa(bs))) == Digits(Sextets(bs))
  {
    var d := Digits(Sextets(bs));
    DigitsRead(Sextets(bs));
    SextetCount(bs);
    forall c | c in Btoa(bs) ensures !IsAsciiSpace(c) {
      assert c in d || c in Padding(|bs|);
    }
    NoSpaces(Btoa(bs));
    PaddingDropped(d, |bs|);
  }

  /** Taking three bytes apart into four sextets and putting them together again. */
  lemma Regrouped(a: Byte, b: Byte, c: Byte)
    ensures FirstByte(Sextet0(a), Sextet1(a, b)) == a
    ensures SecondByte(Sextet1(a, b), Sextet2(b, c)) == b
    ensures ThirdByte(Sextet2(b, c), Sextet3(c)) == c
  {
  }

  lemma TwoSextetsRead(a: Byte)
    ensures FromSextets([Sextet0(a), Sextet1(a, 0)]) == Some([a])
  {
  }

  lemma ThreeSextetsRead(a: Byte, b: Byte)
    ensures FromSextets([Sextet0(a), Sextet1(a, b), Sextet2(b, 0)]) == Some([a, b])
  {
  }

  lemma FourSextetsRead(a: Byte, b: Byte, c: Byte, vs: seq<Sextet>)
    ensures var rest := FromSextets(vs);
            FromSextets([Sextet0(a), Sextet1(a, b), Sextet2(b, c), Sextet3(c)] + vs)
            == if rest.None? then None else Some([a, b, c] + rest.value)
  {
    FourRead(Sextet0(a), Sextet1(a, b), Sextet2(b, c), Sextet3(c), vs);
    Regrouped(a, b, c);
  }

  lemma FourRead(v0: Sextet, v1: Sextet, v2: Sextet, v3: Sextet, vs: seq<Sextet>)
    ensures var rest := FromSextets(vs);
            FromSextets([v0, v1, v2, v3] + vs)
            == if rest.None? then None
               else Some([FirstByte(v0, v1), SecondByte(v1, v2), ThirdByte(v2, v3)] + rest.value)
  {
    assert ([v0, v1, v2, v3] + vs)[4..] == vs;
  }

  lemma {:induction false} SextetsRead(bs: seq<Byte>)
    ensures FromSextets(Sextets(bs)) == Some(bs)
  {
    if |bs| == 0 {
    } else if |bs| == 1 {
      TwoSextetsRead(bs[0]);
      assert bs == [bs[0]];
    } else if |bs| == 2 {
      ThreeSextetsRead(bs[0], bs[1]);
      assert bs == [bs[0], bs[1]];
    } else {
      SextetsRead(bs[3..]);
      FourSextetsRead(bs[0], bs[1], bs[2], Sextets(bs[3..]));
      assert bs == [bs[0], bs[1], bs[2]] + bs[3..];
    }
  }

  /** Base64 loses nothing. */
  lemma Base64RoundTrip(bs: seq<Byte>)
    ensures Atob(Btoa(bs)) == Some(bs)
  {
    UnpaddedAgain(bs);
    DigitsRead(Sextets(bs));
    SextetsRead(bs);
  }

  // ---------------------------------------------------------------- Base64, checked against its standard

  // Table 1 of RFC 4648, spelled out.
  const UPPER := "ABCDEFGHIJKLMNOPQRSTUVWXYZ"
  const LOWER := "abcdefghijklmnopqrstuvwxyz"
  const TABLE := UPPER + LOWER + "0123456789" + "+/"

  lemma UpperTable(v: nat)
    requires v < 26
    ensures |UPPER| == 26 && UPPER[v] == 'A' + v as char
  {
  }

  lemma LowerTable(v: nat)
    requires v < 26
    ensures |LOWER| == 26 && LOWER[v] == 'a' + v as char
  {
  }

  lemma DigitTable(v: Sextet)
    ensures |TABLE| == 64 && Digit(v) == TABLE[v]
  {
    if v < 26 { UpperTable(v); }
    else if v < 52 { LowerTable(v - 26); }
  }

  /** No character outside the table stands for a digit. */
  lemma DigitInTable(c: char)
    ensures DigitValue(c).Some? <==> c in TABLE
    ensures DigitValue(c).Some? ==> TABLE[DigitValue(c).value] == c
  {
    if DigitValue(c).Some? {
      var v := DigitValue(c).value;
      DigitTable(v);
      assert Digit(v) == c;
    } else {
      forall i | 0 <= i < |TABLE| ensures TABLE[i] != c {
        DigitTable(i);
        DigitRead(i);
      }
    }
  }

  /** The result comes in groups of four, of which the last ends in as many '=' as its bytes fall short of three. */
  lemma BtoaShape(bs: seq<Byte>)
    ensures var t, short := Btoa(bs), (3 - |bs| % 3) % 3;
            && 3 * |t| == 4 * (|bs| + short)
            && forall i :: 0 <= i < |t| ==> (t[i] == '=' <==> i >= |t| - short)
  {
    var d := Digits(Sextets(bs));
    DigitsRead(Sextets(bs));
    SextetTotal(bs);
    forall i | 0 <= i < |d| ensures d[i] != '=' { assert d[i] in d; }
  }

  lemma {:induction false} SextetTotal(bs: seq<Byte>)
    ensures 3 * (|Sextets(bs)| + |Padding(|bs|)|) == 4 * (|bs| + (3 - |bs| % 3) % 3)
  {
    if |bs| >= 3 {
      SextetTotal(bs[3..]);
      assert |bs[3..]| == |bs| - 3 && |bs| % 3 == (|bs| - 3) % 3;
    }
  }

  function OfFour(a: int, b: int, c: int, d: int): int {
    a * 0x40000 + b * 0x1000 + c * 0x40 + d
  }

  function OfThree(a: int, b: int, c: int): int {
    a * 0x10000 + b * 0x100 + c
  }

  /** The sextets' bits are the bytes' bits, whichever group is looked at. */
  lemma {:induction false} GroupBits(bs: seq<Byte>, g: nat)
    requires 3 * g + 3 <= |bs|
    ensures 4 * g + 4 <= |Sextets(bs)|
    ensures var v := Sextets(bs);
            OfFour(v[4 * g], v[4 * g + 1], v[4 * g + 2], v[4 * g + 3])
            == OfThree(bs[3 * g], bs[3 * g + 1], bs[3 * g + 2])
  {
    if g == 0 {
      SameBits(bs[0], bs[1], bs[2]);
    } else {
      GroupBits(bs[3..], g - 1);
    }
  }

  /** Spaces in between are forgiven, wherever they are. */
  lemma {:induction false} SpaceForgiven(a: string, c: char, b: string)
    requires c == ' ' || c == '\t' || c == '\n' || c == '\r' || c == '\U{0C}'
    ensures WithoutSpaces(a + [c] + b) == WithoutSpaces(a + b)
    ensures Atob(a + [c] + b) == Atob(a + b)
  {
    if a == "" {
      assert a + [c] + b == [c] + b && a + b == b;
      assert ([c] + b)[1..] == b;
    } else {
      SpaceForgiven(a[1..], c, b);
      assert (a + [c] + b)[1..] == a[1..] + [c] + b && (a + b)[1..] == a[1..] + b;
    }
  }

  /** Nothing but spaces is dropped. */
  lemma {:induction false} OnlySpacesDropped(t: string, c: char)
    ensures c in WithoutSpaces(t)
       <==> c in t && !(c == ' ' || c == '\t' || c == '\n' || c == '\r' || c == '\U{0C}')
  {
    if t != "" {
      OnlySpacesDropped(t[1..], c);
      assert t == [t[0]] + t[1..];
    }
  }

  /** Padding is dropped where it fills a group of four, one '=' or two, and is left anywhere else. */
  lemma OnlyPaddingDropped(d: string)
    ensures |d| % 4 == 3 && d[|d| - 1] != '=' ==> WithoutPadding(d + "=") == d
    ensures |d| % 4 == 2 ==> WithoutPadding(d + "==") == d
    ensures |d| % 4 != 0 || d == "" || d[|d| - 1] != '=' ==> WithoutPadding(d) == d
  {
    assert (d + "=")[..|d|] == d && (d + "==")[..|d|] == d;
    if |d| % 4 == 3 { assert (d + "=")[|d + "="| - 2] == d[|d| - 1]; }
  }

  lemma {:induction false} DigitsIff(t: string)
    ensures FromDigits(t).Some? <==> forall c :: c in t ==> c in TABLE
    ensures FromDigits(t).Some? ==> |FromDigits(t).value| == |t|
  {
    if t != "" {
      DigitsIff(t[1..]);
      DigitInTable(t[0]);
      assert t == [t[0]] + t[1..];
    }
  }

  lemma {:induction false} LoneSextet(vs: seq<Sextet>)
    ensures FromSextets(vs).None? <==> |vs| % 4 == 1
  {
    if |vs| >= 4 { LoneSextet(vs[4..]); }
  }

  /** atob throws exactly when something other than digits is left, or one digit too many. */
  lemma AtobThrowsIff(t: string)
    ensures var u := WithoutPadding(WithoutSpaces(t));
            Atob(t).None? <==> |u| % 4 == 1 || exists c :: c in u && c !in TABLE
  {
    var u := WithoutPadding(WithoutSpaces(t));
    DigitsIff(u);
    if FromDigits(u).Some? { LoneSextet(FromDigits(u).value); }
  }
}
