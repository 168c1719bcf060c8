/** Strict UTF-8, as Python's `bytes.decode("utf8")` and `str(b, encoding="utf8")`
    apply it: overlong forms, surrogates, code points above U+10FFFF, stray
    continuation bytes and truncated sequences are all rejected (the source
    then sees a `UnicodeDecodeError`, here `None`). */
module Utf8 {
  import opened Wrappers

  newtype byte = x: int | 0 <= x < 256

  predicate IsContinuation(b: byte) { 0x80 <= b <= 0xBF }

  /** The second byte of a three-byte sequence: E0 excludes overlong forms,
      ED excludes the surrogates. */
  predicate SecondOfThree(lead: byte, b: byte)
  {
    if lead == 0xE0 then 0xA0 <= b <= 0xBF
    else if lead == 0xED then 0x80 <= b <= 0x9F
    else IsContinuation(b)
  }

  /** The second byte of a four-byte sequence: F0 excludes overlong forms,
      F4 excludes code points above U+10FFFF. */
  predicate SecondOfFour(lead: byte, b: byte)
  {
    if lead == 0xF0 then 0x90 <= b <= 0xBF
    else if lead == 0xF4 then 0x80 <= b <= 0x8F
    else IsContinuation(b)
  }

  /** Decodes the character at the front of `b`, with the number of bytes it takes. */
  function DecodeFirst(b: seq<byte>): (r: Option<(char, nat)>)
    requires |b| > 0
    ensures r.Some? ==> 1 <= r.value.1 <= |b| && r.value.1 <= 4
    ensures r.Some? ==> (r.value.1 == 1 <==> (r.value.0 as int) < 0x80)
  {
    var b0 := b[0] as int;
    if b0 < 0x80 then
      Some((b0 as char, 1))
    else if 0xC2 <= b0 <= 0xDF then
      if |b| >= 2 && IsContinuation(b[1]) then
        Some((((b0 - 0xC0) * 64 + (b[1] as int - 0x80)) as char, 2))
      else None
    else if 0xE0 <= b0 <= 0xEF then
      if |b| >= 3 && SecondOfThree(b[0], b[1]) && IsContinuation(b[2]) then
        Some((((b0 - 0xE0) * 4096 + (b[1] as int - 0x80) * 64 + (b[2] as int - 0x80)) as char, 3))
      else None
    else if 0xF0 <= b0 <= 0xF4 then
      if |b| >= 4 && SecondOfFour(b[0], b[1]) && IsContinuation(b[2]) && IsContinuation(b[3]) then
        Some((((b0 - 0xF0) * 262144 + (b[1] as int - 0x80) * 4096
               + (b[2] as int - 0x80) * 64 + (b[3] as int - 0x80)) as char, 4))
      else None
    else
      None
  }

  /** Decodes a whole byte string; `None` when any part of it is not UTF-8. */
  function Decode(b: seq<byte>): (r: Option<string>)
    decreases |b|
  {
    if b == [] then Some([])
    else
      match DecodeFirst(b)
      case None => None
      case Some((c, n)) =>
        match Decode(b[n..])
        case None => None
        case Some(rest) => Some([c] + rest)
  }

  /** The UTF-8 encoding of one character (the reference the decoder is checked against). */
  function EncodeChar(c: char): (r: seq<byte>)
  {
    var v := c as int;
    if v < 0x80 then [v as byte]
    else if v < 0x800 then [(0xC0 + v / 64) as byte, (0x80 + v % 64) as byte]
    else if v < 0x10000 then
      [(0xE0 + v / 4096) as byte, (0x80 + (v / 64) % 64) as byte, (0x80 + v % 64) as byte]
    else
      [(0xF0 + v / 262144) as byte, (0x80 + (v / 4096) % 64) as byte,
       (0x80 + (v / 64) % 64) as byte, (0x80 + v % 64) as byte]
  }

  function Encode(s: string): (r: seq<byte>)
  {
    if s == [] then [] else EncodeChar(s[0]) + Encode(s[1..])
  }

  lemma DecodeTwoBytes(c: char, rest: seq<byte>)
    requires 0x80 <= c as int < 0x800
    ensures DecodeFirst(EncodeChar(c) + rest) == Some((c, 2))
  {
    var v := c as int;
    assert v == (v / 64) * 64 + v % 64;
  }

  lemma DecodeThreeBytes(c: char, rest: seq<byte>)
    requires 0x800 <= c as int < 0x10000
    ensures DecodeFirst(EncodeChar(c) + rest) == Some((c, 3))
  {
    var v := c as int;
    var b := EncodeChar(c) + rest;
    assert v / 64 == (v / 4096) * 64 + (v / 64) % 64;
    assert v == (v / 64) * 64 + v % 64;
    assert b[0] == 0xE0 ==> (v / 64) % 64 >= 32;
    assert b[0] == 0xED ==> (v / 64) % 64 < 32;
  }

  lemma DecodeFourBytes(c: char, rest: seq<byte>)
    requires 0x10000 <= c as int
    ensures DecodeFirst(EncodeChar(c) + rest) == Some((c, 4))
  {
    var v := c as int;
    var b := EncodeChar(c) + rest;
    assert v / 64 == (v / 4096) * 64 + (v / 64) % 64;
    assert v / 4096 == (v / 262144) * 64 + (v / 4096) % 64;
    assert v == (v / 64) * 64 + v % 64;
    assert b[0] == 0xF0 ==> (v / 4096) % 64 >= 16;
    assert b[0] == 0xF4 ==> (v / 4096) % 64 < 16;
  }

  /** Decoding reads back the first character of any encoding. */
  lemma DecodeFirstEncodeChar(c: char, rest: seq<byte>)
    ensures DecodeFirst(EncodeChar(c) + rest) == Some((c, |EncodeChar(c)|))
  {
    var v := c as int;
    if 0x10000 <= v {
      DecodeFourBytes(c, rest);
    } else if 0x800 <= v {
      DecodeThreeBytes(c, rest);
    } else if 0x80 <= v {
      DecodeTwoBytes(c, rest);
    }
  }

  /** Decoding undoes encoding, for every string. */
  lemma {:induction false} DecodeEncode(s: string)
    ensures Decode(Encode(s)) == Some(s)
  {
    if s != [] {
      var e := EncodeChar(s[0]);
      DecodeFirstEncodeChar(s[0], Encode(s[1..]));
      assert Encode(s) == e + Encode(s[1..]);
      assert (e + Encode(s[1..]))[|e|..] == Encode(s[1..]);
      DecodeEncode(s[1..]);
      assert [s[0]] + s[1..] == s;
    }
  }

  /** Division by 64 splits `q * 64 + r` back into its parts. */
  lemma Split64(q: int, r: int)
    requires 0 <= r < 64
    ensures (q * 64 + r) / 64 == q && (q * 64 + r) % 64 == r
  {
  }

  lemma EncodeTwo(b0: int, b1: int)
    requires 0xC2 <= b0 <= 0xDF && 0x80 <= b1 <= 0xBF
    ensures EncodeChar(((b0 - 0xC0) * 64 + (b1 - 0x80)) as char) == [b0 as byte, b1 as byte]
  {
    Split64(b0 - 0xC0, b1 - 0x80);
  }

  lemma EncodeThree(b0: int, b1: int, b2: int)
    requires 0xE0 <= b0 <= 0xEF && 0 <= b1 < 256 && SecondOfThree(b0 as byte, b1 as byte) && 0x80 <= b2 <= 0xBF
    ensures EncodeChar(((b0 - 0xE0) * 4096 + (b1 - 0x80) * 64 + (b2 - 0x80)) as char)
         == [b0 as byte, b1 as byte, b2 as byte]
  {
    var v := (b0 - 0xE0) * 4096 + (b1 - 0x80) * 64 + (b2 - 0x80);
    var q1 := (b0 - 0xE0) * 64 + (b1 - 0x80);
    assert v == q1 * 64 + (b2 - 0x80);
    Split64(q1, b2 - 0x80);
    Split64(b0 - 0xE0, b1 - 0x80);
    assert v / 4096 == q1 / 64;
  }

  lemma EncodeFour(b0: int, b1: int, b2: int, b3: int)
    requires 0xF0 <= b0 <= 0xF4 && 0 <= b1 < 256 && SecondOfFour(b0 as byte, b1 as byte)
    requires 0x80 <= b2 <= 0xBF && 0x80 <= b3 <= 0xBF
    ensures EncodeChar(((b0 - 0xF0) * 262144 + (b1 - 0x80) * 4096 + (b2 - 0x80) * 64 + (b3 - 0x80)) as char)
         == [b0 as byte, b1 as byte, b2 as byte, b3 as byte]
  {
    var v := (b0 - 0xF0) * 262144 + (b1 - 0x80) * 4096 + (b2 - 0x80) * 64 + (b3 - 0x80);
    var q2 := (b0 - 0xF0) * 64 + (b1 - 0x80);
    var q1 := q2 * 64 + (b2 - 0x80);
    assert v == q1 * 64 + (b3 - 0x80);
    Split64(q1, b3 - 0x80);
    Split64(q2, b2 - 0x80);
    Split64(b0 - 0xF0, b1 - 0x80);
    assert v / 4096 == q1 / 64;
    assert v / 262144 == q2 / 64;
  }

  /** The bytes a decoded character came from are exactly its encoding. */
  lemma EncodeDecodeFirst(b: seq<byte>)
    requires |b| > 0 && DecodeFirst(b).Some?
    ensures EncodeChar(DecodeFirst(b).value.0) == b[..DecodeFirst(b).value.1]
  {
    var n := DecodeFirst(b).value.1;
    if n == 2 {
      EncodeTwo(b[0] as int, b[1] as int);
    } else if n == 3 {
      EncodeThree(b[0] as int, b[1] as int, b[2] as int);
    } else if n == 4 {
      EncodeFour(b[0] as int, b[1] as int, b[2] as int, b[3] as int);
    }
  }

  /** Decoding is injective: a byte string that decodes is the encoding of what it decodes to. */
  lemma {:induction false} EncodeDecode(b: seq<byte>)
    requires Decode(b).Some?
    ensures Encode(Decode(b).value) == b
  {
    if b != [] {
      var n := DecodeFirst(b).value.1;
      EncodeDecodeFirst(b);
      EncodeDecode(b[n..]);
      assert b[..n] + b[n..] == b;
    }
  }
}
