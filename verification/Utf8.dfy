/** UTF-8 as in section 3 of RFC 3629: encoding of characters, and strict decoding. */
module Utf8 {
  import opened Options
  import opened Sequences

  type Byte = b: int | 0 <= b < 256

  const NEWLINE: Byte := 10

  /** One to four bytes, the leading one telling how many. */
  function EncodeChar(c: char): seq<Byte> {
    var n := c as int;
    if n < 0x80 then [n]
    else if n < 0x800 then [0xC0 + n / 64, 0x80 + n % 64]
    else if n < 0x1_0000 then [0xE0 + n / 64 / 64, 0x80 + n / 64 % 64, 0x80 + n % 64]
    else [0xF0 + n / 64 / 64 / 64, 0x80 + n / 64 / 64 % 64, 0x80 + n / 64 % 64, 0x80 + n % 64]
  }

  function Encode(s: string): seq<Byte> {
    if s == [] then [] else EncodeChar(s[0]) + Encode(s[1..])
  }

  predicate Continues(b: Byte) {
    0x80 <= b < 0xC0
  }

  /** How many bytes the first character takes, or 0 if no character starts with this byte. */
  function Width(b: Byte): nat {
    if b < 0x80 then 1 else if 0xC0 <= b < 0xE0 then 2 else if 0xE0 <= b < 0xF0 then 3 else if 0xF0 <= b < 0xF8 then 4
        else 0
  }

  predicate ValidStart(b: seq<Byte>) {
    && b != [] && 0 < Width(b[0]) <= |b|
    && (Width(b[0]) >= 2 ==> Continues(b[1]))
    && (Width(b[0]) >= 3 ==> Continues(b[2]))
    && (Width(b[0]) == 4 ==> Continues(b[3]))
  }

  /** The number continued by the low six bits of a byte. */
  function Shift(n: int, b: Byte): int {
    n * 64 + (b as int - 0x80)
  }

  /** The number spelled by the first character's bytes. */
  function CodePoint(b: seq<Byte>): int
    requires ValidStart(b)
  {
    match Width(b[0])
    case 1 => b[0] as int
    case 2 => Shift(b[0] as int - 0xC0, b[1])
    case 3 => Shift(Shift(b[0] as int - 0xE0, b[1]), b[2])
    case _ => Shift(Shift(Shift(b[0] as int - 0xF0, b[1]), b[2]), b[3])
  }

  /** The shortest form only, and no surrogates. */
  predicate IsScalar(n: int, width: nat) {
    && (width == 2 ==> n >= 0x80) && (width == 3 ==> n >= 0x800) && (width == 4 ==> n >= 0x1_0000)
    && (0 <= n < 0xD800 || 0xE000 <= n < 0x11_0000)
  }

  function Decode(b: seq<Byte>): Option<string>
    decreases |b|
  {
    if b == [] then Some("")
    else if !ValidStart(b) || !IsScalar(CodePoint(b), Width(b[0])) then None
    else
      match Decode(b[Width(b[0])..])
      case None => None
      case Some(rest) => Some([CodePoint(b) as char] + rest)
  }

  lemma EncodeCharIsValid(c: char, rest: seq<Byte>)
    ensures var b := EncodeChar(c) + rest;
            && ValidStart(b) && Width(b[0]) == |EncodeChar(c)| && b[|EncodeChar(c)|..] == rest
            && CodePoint(b) == c as int && IsScalar(CodePoint(b), Width(b[0]))
  {
  }

  /** Decoding undoes encoding. */
  lemma {:induction false} DecodeEncode(s: string)
    ensures Decode(Encode(s)) == Some(s)
  {
    if s != [] {
      EncodeCharIsValid(s[0], Encode(s[1..]));
      DecodeEncode(s[1..]);
      assert [s[0]] + s[1..] == s;
    }
  }

  lemma ShiftUndone(n: int, b: Byte)
    requires Continues(b)
    ensures Shift(n, b) / 64 == n && 0x80 + Shift(n, b) % 64 == b
  {
  }

  lemma DecodedCharEncodes(b: seq<Byte>)
    requires ValidStart(b) && IsScalar(CodePoint(b), Width(b[0]))
    ensures EncodeChar(CodePoint(b) as char) == b[..Width(b[0])]
  {
    match Width(b[0])
    case 1 =>
    case 2 => ShiftUndone(b[0] as int - 0xC0, b[1]);
    case 3 =>
      ShiftUndone(b[0] as int - 0xE0, b[1]);
      ShiftUndone(Shift(b[0] as int - 0xE0, b[1]), b[2]);
    case _ =>
      ShiftUndone(b[0] as int - 0xF0, b[1]);
      ShiftUndone(Shift(b[0] as int - 0xF0, b[1]), b[2]);
      ShiftUndone(Shift(Shift(b[0] as int - 0xF0, b[1]), b[2]), b[3]);
  }

  /** What decodes is the encoding of the result: no two byte strings decode to the same text. */
  lemma {:induction false} EncodeDecode(b: seq<Byte>)
    ensures Decode(b).Some? ==> Encode(Decode(b).value) == b
    decreases |b|
  {
    if b != [] && Decode(b).Some? {
      var w := Width(b[0]);
      DecodedCharEncodes(b);
      EncodeDecode(b[w..]);
      assert Decode(b).value[1..] == Decode(b[w..]).value;
      assert b[..w] + b[w..] == b;
    }
  }

  /** The newline byte occurs exactly where the newline character does. */
  lemma {:induction false} NewlineOnlyInNewline(s: string)
    ensures NEWLINE in Encode(s) <==> '\n' in s
  {
    if s != [] {
      NewlineOnlyInNewline(s[1..]);
      assert s == [s[0]] + s[1..];
    }
  }

  lemma EncodeCons(c: char, s: string)
    ensures Encode([c] + s) == EncodeChar(c) + Encode(s)
  {
    assert ([c] + s)[1..] == s;
  }

  lemma {:induction false} EncodeConcat(a: string, b: string)
    ensures Encode(a + b) == Encode(a) + Encode(b)
  {
    if a == [] {
      assert a + b == b;
    } else {
      EncodeConcat(a[1..], b);
      assert a + b == [a[0]] + (a[1..] + b);
      EncodeCons(a[0], a[1..] + b);
      ConcatAssoc(EncodeChar(a[0]), Encode(a[1..]), Encode(b));
    }
  }

  /** Examples of section 7 of RFC 3629: one to four bytes. */
  lemma {:induction false} RfcExamples()
    ensures EncodeChar('A') == [0x41] && EncodeChar('\U{2262}') == [0xE2, 0x89, 0xA2]
    ensures EncodeChar('\U{0391}') == [0xCE, 0x91] && EncodeChar('\U{233B4}') == [0xF0, 0xA3, 0x8E, 0xB4]
    ensures EncodeChar('\U{D55C}') == [0xED, 0x95, 0x9C] && EncodeChar('\U{FEFF}') == [0xEF, 0xBB, 0xBF]
  {
  }
}
