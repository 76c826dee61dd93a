/** UTF-8 (section 3 of RFC 3629): the encoder both payload builders call, and a decoder for it. */
module Utf8 {
  import opened Common

  type Byte = x: int | 0 <= x < 256

  function EncodeChar(c: char): (bytes: seq<Byte>)
    ensures 1 <= |bytes| <= 4
  {
    var n := c as int;
    if n < 0x80 then [n]
    else if n < 0x800 then [0xC0 + n / 0x40, 0x80 + n % 0x40]
    else if n < 0x1_0000 then [0xE0 + n / 0x1000, 0x80 + n / 0x40 % 0x40, 0x80 + n % 0x40]
    else [0xF0 + n / 0x4_0000, 0x80 + n / 0x1000 % 0x40, 0x80 + n / 0x40 % 0x40, 0x80 + n % 0x40]
  }

  function Encode(s: string): seq<Byte> {
    if s == "" then [] else EncodeChar(s[0]) + Encode(s[1..])
  }

  /** Number of bytes in the character that starts with this byte. */
  function Width(first: Byte): (w: nat)
    ensures 1 <= w <= 4
  {
    if first < 0xC0 then 1 else if first < 0xE0 then 2 else if first < 0xF0 then 3 else 4
  }

  function CodePoint(b: seq<Byte>): int
    requires |b| > 0 && |b| >= Width(b[0])
  {
    var at := (i: int) requires 0 <= i < |b| => b[i] as int;
    match Width(b[0])
    case 1 => at(0)
    case 2 => (at(0) - 0xC0) * 0x40 + (at(1) - 0x80)
    case 3 => (at(0) - 0xE0) * 0x1000 + (at(1) - 0x80) * 0x40 + (at(2) - 0x80)
    case _ => (at(0) - 0xF0) * 0x4_0000 + (at(1) - 0x80) * 0x1000 + (at(2) - 0x80) * 0x40 + (at(3) - 0x80)
  }

  predicate IsScalar(n: int) {
    0 <= n < 0xD800 || 0xE000 <= n < 0x11_0000
  }

  function Decode(b: seq<Byte>): Option<string> {
    if b == [] then Some("")
    else if |b| < Width(b[0]) || !IsScalar(CodePoint(b)) then None
    else
      match Decode(b[Width(b[0])..])
      case None => None
      case Some(rest) => Some([CodePoint(b) as char] + rest)
  }

  lemma DecodeCharUndoesEncode(c: char, rest: seq<Byte>)
    ensures var b := EncodeChar(c) + rest;
            Width(b[0]) == |EncodeChar(c)| && CodePoint(b) == c as int
  {
    var n := c as int;
    assert n / 0x1000 == n / 0x40 / 0x40;
    assert n / 0x4_0000 == n / 0x1000 / 0x40;
  }

  lemma {:induction false} DecodeUndoesEncode(s: string)
    ensures Decode(Encode(s)) == Some(s)
  {
    if s != "" {
      var rest := Encode(s[1..]);
      DecodeCharUndoesEncode(s[0], rest);
      DecodeUndoesEncode(s[1..]);
      assert Encode(s)[|EncodeChar(s[0])|..] == rest;
      assert s == [s[0]] + s[1..];
    }
  }

  /** A byte that starts a character of this many bytes, by the table of section 3 of RFC 3629. */
  predicate IsLeadByte(b: Byte, width: nat) {
    || (width == 1 && b < 0x80)
    || (width == 2 && 0xC0 <= b < 0xE0)
    || (width == 3 && 0xE0 <= b < 0xF0)
    || (width == 4 && 0xF0 <= b < 0xF8)
  }

  function WidthInTable(n: int): nat {
    if n < 0x80 then 1 else if n < 0x800 then 2 else if n < 0x1_0000 then 3 else 4
  }

  /** Each character takes as few bytes as the table allows: a lead byte, and bytes from 0x80 to 0xBF. */
  lemma EncodingFollowsTheTable(c: char)
    ensures var b := EncodeChar(c);
            && |b| == WidthInTable(c as int)
            && IsLeadByte(b[0], |b|)
            && (forall i :: 1 <= i < |b| ==> 0x80 <= b[i] < 0xC0)
            && CodePoint(b) == c as int
  {
    DecodeCharUndoesEncode(c, []);
    assert EncodeChar(c) + [] == EncodeChar(c);
  }
}
