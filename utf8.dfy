/**
 * UTF-8 as `std::str::from_utf8` accepts it: well-formed sequences in the sense of
 * section 3 of RFC 3629 (shortest form only, no surrogate code points, nothing above
 * U+10FFFF). A Dafny `char` is a Unicode scalar value, so a `string` is exactly what a
 * Rust `&str` can hold, and `Encode` is the byte view of a `&str`.
 */
module Utf8 {
  import opened Wrappers

  type Byte = b: int | 0 <= b < 256

  predicate IsContinuation(b: Byte) {
    0x80 <= b < 0xC0
  }

  /** The scalar value at the start of `b` and the number of bytes it takes, if `b` starts well-formed. */
  function DecodeFirst(b: seq<Byte>): (r: Option<(char, nat)>)
    requires |b| > 0
    ensures r.Some? ==> 1 <= r.value.1 <= 4 && r.value.1 <= |b|
  {
    var b0 := b[0] as int;
    var b1 := if |b| >= 2 then b[1] as int else 0;
    var b2 := if |b| >= 3 then b[2] as int else 0;
    var b3 := if |b| >= 4 then b[3] as int else 0;
    if b0 < 0x80 then
      Some((b0 as char, 1))
    else if 0xC2 <= b0 <= 0xDF then
      if |b| >= 2 && IsContinuation(b[1])
      then Some((((b0 - 0xC0) * 64 + (b1 - 0x80)) as char, 2))
      else None
    else if 0xE0 <= b0 <= 0xEF then
      var lo := if b0 == 0xE0 then 0xA0 else 0x80;
      var hi := if b0 == 0xED then 0x9F else 0xBF;
      if |b| >= 3 && lo <= b[1] <= hi && IsContinuation(b[2])
      then Some((((b0 - 0xE0) * 4096 + (b1 - 0x80) * 64 + (b2 - 0x80)) as char, 3))
      else None
    else if 0xF0 <= b0 <= 0xF4 then
      var lo := if b0 == 0xF0 then 0x90 else 0x80;
      var hi := if b0 == 0xF4 then 0x8F else 0xBF;
      if |b| >= 4 && lo <= b[1] <= hi && IsContinuation(b[2]) && IsContinuation(b[3])
      then Some((((b0 - 0xF0) * 262144 + (b1 - 0x80) * 4096 + (b2 - 0x80) * 64 + (b3 - 0x80)) as char, 4))
      else None
    else
      None
  }

  /** `std::str::from_utf8`: the text the bytes spell, or None when they are not well-formed UTF-8. */
  function Decode(b: seq<Byte>): Option<string>
    decreases |b|
  {
    if |b| == 0 then Some("")
    else match DecodeFirst(b)
      case None => None
      case Some((c, k)) =>
        match Decode(b[k..])
        case None => None
        case Some(s) => Some([c] + s)
  }

  /** The UTF-8 bytes of one scalar value. */
  function EncodeChar(c: char): (r: seq<Byte>)
    ensures 1 <= |r| <= 4
  {
    var n := c as int;
    if n < 0x80 then [n]
    else if n < 0x800 then [0xC0 + n / 64, 0x80 + n % 64]
    else if n < 0x10000 then [0xE0 + n / 4096, 0x80 + (n / 64) % 64, 0x80 + n % 64]
    else [0xF0 + n / 262144, 0x80 + (n / 4096) % 64, 0x80 + (n / 64) % 64, 0x80 + n % 64]
  }

  /** The UTF-8 bytes of a text (`str::as_bytes`). */
  function Encode(s: string): seq<Byte>
  {
    if |s| == 0 then [] else EncodeChar(s[0]) + Encode(s[1..])
  }

  lemma DecodeFirstOfEncodeChar(c: char, rest: seq<Byte>)
    ensures DecodeFirst(EncodeChar(c) + rest) == Some((c, |EncodeChar(c)|))
  {
    var n := c as int;
    if n < 0x80 {
    } else if n < 0x800 {
      DecodeFirstOfEncodeTwo(c, rest);
    } else if n < 0x10000 {
      DecodeFirstOfEncodeThree(c, rest);
    } else {
      DecodeFirstOfEncodeFour(c, rest);
    }
  }

  lemma DecodeFirstOfEncodeTwo(c: char, rest: seq<Byte>)
    requires 0x80 <= c as int < 0x800
    ensures DecodeFirst(EncodeChar(c) + rest) == Some((c, 2))
  {
    var n := c as int;
    var b := EncodeChar(c) + rest;
    var q, r := n / 64, n % 64;
    assert n == q * 64 + r;
    assert b[0] == 0xC0 + q && b[1] == 0x80 + r;
  }

  lemma DecodeFirstOfEncodeThree(c: char, rest: seq<Byte>)
    requires 0x800 <= c as int < 0x10000
    ensures DecodeFirst(EncodeChar(c) + rest) == Some((c, 3))
  {
    var n := c as int;
    var b := EncodeChar(c) + rest;
    var q2, r2 := n / 4096, (n / 64) % 64;
    var r := n % 64;
    assert n / 64 == q2 * 64 + r2;
    assert n == q2 * 4096 + r2 * 64 + r;
    assert b[0] == 0xE0 + q2 && b[1] == 0x80 + r2 && b[2] == 0x80 + r;
    assert q2 == 0 ==> r2 >= 0x20;
    assert q2 == 0xD ==> r2 < 0x20;
  }

  lemma DecodeFirstOfEncodeFour(c: char, rest: seq<Byte>)
    requires 0x10000 <= c as int
    ensures DecodeFirst(EncodeChar(c) + rest) == Some((c, 4))
  {
    var n := c as int;
    var b := EncodeChar(c) + rest;
    var q3, r3 := n / 262144, (n / 4096) % 64;
    var r2, r := (n / 64) % 64, n % 64;
    assert n / 4096 == q3 * 64 + r3;
    assert n / 64 == (n / 4096) * 64 + r2;
    assert n == q3 * 262144 + r3 * 4096 + r2 * 64 + r;
    assert b[0] == 0xF0 + q3 && b[1] == 0x80 + r3 && b[2] == 0x80 + r2 && b[3] == 0x80 + r;
    assert q3 == 0 ==> r3 >= 0x10;
    assert q3 == 4 ==> r3 < 0x10;
  }

  /** Every text reads back from its own UTF-8 bytes. */
  lemma {:induction false} DecodeEncode(s: string)
    ensures Decode(Encode(s)) == Some(s)
  {
    if |s| > 0 {
      var e := EncodeChar(s[0]);
      DecodeFirstOfEncodeChar(s[0], Encode(s[1..]));
      assert (e + Encode(s[1..]))[|e|..] == Encode(s[1..]);
      DecodeEncode(s[1..]);
      assert [s[0]] + s[1..] == s;
    }
  }

  lemma EncodeCharOfDecodeFirst(b: seq<Byte>)
    requires |b| > 0 && DecodeFirst(b).Some?
    ensures EncodeChar(DecodeFirst(b).value.0) == b[..DecodeFirst(b).value.1]
  {
    if b[0] < 0x80 {
    } else if b[0] <= 0xDF {
      EncodeCharOfDecodeTwo(b);
    } else if b[0] <= 0xEF {
      EncodeCharOfDecodeThree(b);
    } else {
      EncodeCharOfDecodeFour(b);
    }
  }

  lemma EncodeCharOfDecodeTwo(b: seq<Byte>)
    requires |b| > 0 && DecodeFirst(b).Some? && 0x80 <= b[0] <= 0xDF
    ensures EncodeChar(DecodeFirst(b).value.0) == b[..2]
  {
    var b0, b1 := b[0] as int, b[1] as int;
    var n := DecodeFirst(b).value.0 as int;
    assert n == (b0 - 0xC0) * 64 + (b1 - 0x80);
    assert n / 64 == b0 - 0xC0 && n % 64 == b1 - 0x80;
  }

  lemma EncodeCharOfDecodeThree(b: seq<Byte>)
    requires |b| > 0 && DecodeFirst(b).Some? && 0xE0 <= b[0] <= 0xEF
    ensures EncodeChar(DecodeFirst(b).value.0) == b[..3]
  {
    var b0, b1, b2 := b[0] as int, b[1] as int, b[2] as int;
    var n := DecodeFirst(b).value.0 as int;
    var m := (b0 - 0xE0) * 64 + (b1 - 0x80);
    assert n == m * 64 + (b2 - 0x80);
    assert n / 64 == m && n % 64 == b2 - 0x80;
    assert m / 64 == b0 - 0xE0 && m % 64 == b1 - 0x80;
    assert n / 4096 == m / 64;
  }

  lemma EncodeCharOfDecodeFour(b: seq<Byte>)
    requires |b| > 0 && DecodeFirst(b).Some? && 0xF0 <= b[0]
    ensures EncodeChar(DecodeFirst(b).value.0) == b[..4]
  {
    var b0, b1, b2, b3 := b[0] as int, b[1] as int, b[2] as int, b[3] as int;
    var n := DecodeFirst(b).value.0 as int;
    var m1 := (b0 - 0xF0) * 64 + (b1 - 0x80);
    var m2 := m1 * 64 + (b2 - 0x80);
    assert n == m2 * 64 + (b3 - 0x80);
    assert n / 64 == m2 && n % 64 == b3 - 0x80;
    assert m2 / 64 == m1 && m2 % 64 == b2 - 0x80;
    assert m1 / 64 == b0 - 0xF0 && m1 % 64 == b1 - 0x80;
    assert n / 4096 == m2 / 64;
    assert n / 262144 == m1 / 64;
  }

  /** Decoding loses nothing: the decoded text's bytes are exactly the input bytes. */
  lemma {:induction false} EncodeDecode(b: seq<Byte>)
    requires Decode(b).Some?
    ensures Encode(Decode(b).value) == b
    decreases |b|
  {
    if |b| > 0 {
      var (c, k) := DecodeFirst(b).value;
      EncodeCharOfDecodeFirst(b);
      EncodeDecode(b[k..]);
      var s := Decode(b).value;
      assert s == [c] + Decode(b[k..]).value;
      assert s[1..] == Decode(b[k..]).value;
      assert b == b[..k] + b[k..];
    }
  }

  /** Bytes below 0x80 are ASCII and decode one character per byte. */
  lemma {:induction false} DecodeAscii(b: seq<Byte>)
    requires forall i :: 0 <= i < |b| ==> b[i] < 0x80
    ensures Decode(b).Some? && |Decode(b).value| == |b|
    ensures forall i :: 0 <= i < |b| ==> Decode(b).value[i] as int == b[i]
    decreases |b|
  {
    if |b| > 0 {
      DecodeAscii(b[1..]);
    }
  }
}
