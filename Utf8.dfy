/**
 * Strict UTF-8, as Python's `bytes.decode('UTF-8')` applies it: overlong
 * forms, surrogate code points and values above U+10FFFF are rejected, and a
 * rejected input raises instead of producing text.
 */
module Utf8 {
  import opened Wrappers

  type byte = b: int | 0 <= b < 256

  /** The failure raised for bytes that are not well-formed UTF-8. */
  datatype DecodeError = UnicodeDecodeError

  predicate IsContinuation(b: byte) { 0x80 <= b < 0xC0 }

  /** A Unicode scalar value: a code point that is not a surrogate. */
  predicate IsScalar(v: int) { 0 <= v < 0xD800 || 0xE000 <= v < 0x11_0000 }

  /** The UTF-8 encoding of one character. */
  function EncodeChar(c: char): (bs: seq<byte>)
    ensures 1 <= |bs| <= 4
  {
    var v := c as int;
    if v < 0x80 then [v]
    else if v < 0x800 then [0xC0 + v / 0x40, 0x80 + v % 0x40]
    else if v < 0x1_0000 then [0xE0 + v / 0x1000, 0x80 + (v / 0x40) % 0x40, 0x80 + v % 0x40]
    else [0xF0 + v / 0x4_0000, 0x80 + (v / 0x1000) % 0x40, 0x80 + (v / 0x40) % 0x40, 0x80 + v % 0x40]
  }

  /** The UTF-8 encoding of a string. */
  function Encode(s: string): (bs: seq<byte>)
    ensures |s| <= |bs| <= 4 * |s|
  {
    if s == [] then [] else EncodeChar(s[0]) + Encode(s[1..])
  }

  /** The scalar value of a well-formed two-byte sequence. */
  function Value2(b0: int, b1: int): int {
    (b0 - 0xC0) * 0x40 + (b1 - 0x80)
  }

  function Value3(b0: int, b1: int, b2: int): int {
    (b0 - 0xE0) * 0x1000 + (b1 - 0x80) * 0x40 + (b2 - 0x80)
  }

  function Value4(b0: int, b1: int, b2: int, b3: int): int {
    (b0 - 0xF0) * 0x4_0000 + (b1 - 0x80) * 0x1000 + (b2 - 0x80) * 0x40 + (b3 - 0x80)
  }

  /**
   * The character that `bs` starts with and the number of bytes it takes,
   * or None when `bs` does not start with a well-formed sequence.
   * The accepted lead/second-byte ranges exclude overlong forms, surrogates
   * and values above U+10FFFF.
   */
  function DecodeFirst(bs: seq<byte>): (r: Option<(char, nat)>)
    requires |bs| > 0
    ensures r.Some? ==> 1 <= r.value.1 <= |bs| && r.value.1 <= 4
  {
    var b0 := bs[0];
    if b0 < 0x80 then Some((b0 as char, 1))
    else if 0xC2 <= b0 <= 0xDF then
      if |bs| >= 2 && IsContinuation(bs[1]) then
        var v := Value2(b0, bs[1]);
        assert 0x80 <= v < 0x800;
        Some((v as char, 2))
      else None
    else if 0xE0 <= b0 <= 0xEF then
      var lo := if b0 == 0xE0 then 0xA0 else 0x80;
      var hi := if b0 == 0xED then 0xA0 else 0xC0;
      if |bs| >= 3 && lo <= bs[1] < hi && IsContinuation(bs[2]) then
        var v := Value3(b0, bs[1], bs[2]);
        assert 0x800 <= v < 0x1_0000 && IsScalar(v);
        Some((v as char, 3))
      else None
    else if 0xF0 <= b0 <= 0xF4 then
      var lo := if b0 == 0xF0 then 0x90 else 0x80;
      var hi := if b0 == 0xF4 then 0x90 else 0xC0;
      if |bs| >= 4 && lo <= bs[1] < hi && IsContinuation(bs[2]) && IsContinuation(bs[3]) then
        var v := Value4(b0, bs[1], bs[2], bs[3]);
        assert 0x1_0000 <= v < 0x11_0000;
        Some((v as char, 4))
      else None
    else None
  }

  /** `bytes.decode('UTF-8')`: the whole input decoded, or the decoding error. */
  function Decode(bs: seq<byte>): (r: Result<string, DecodeError>)
    decreases |bs|
  {
    if bs == [] then Success([])
    else match DecodeFirst(bs)
      case None => Failure(UnicodeDecodeError)
      case Some((c, n)) =>
        match Decode(bs[n..])
        case Success(s) => Success([c] + s)
        case Failure(e) => Failure(e)
  }

  lemma Split2(v: int)
    requires 0x80 <= v < 0x800
    ensures Value2(0xC0 + v / 0x40, 0x80 + v % 0x40) == v
  {
  }

  lemma Split3(v: int)
    requires 0x800 <= v < 0x1_0000
    ensures Value3(0xE0 + v / 0x1000, 0x80 + (v / 0x40) % 0x40, 0x80 + v % 0x40) == v
  {
    var q := v / 0x40;
    assert q / 0x40 == v / 0x1000;
    assert q == (v / 0x1000) * 0x40 + q % 0x40;
  }

  lemma Split4(v: int)
    requires 0x1_0000 <= v < 0x11_0000
    ensures Value4(0xF0 + v / 0x4_0000, 0x80 + (v / 0x1000) % 0x40, 0x80 + (v / 0x40) % 0x40, 0x80 + v % 0x40) == v
  {
    var q := v / 0x40;
    var p := v / 0x1000;
    assert p == q / 0x40 && v / 0x4_0000 == p / 0x40;
    assert q == p * 0x40 + q % 0x40;
    assert p == (v / 0x4_0000) * 0x40 + p % 0x40;
  }

  lemma DecodeFirstEncodeChar2(c: char, rest: seq<byte>)
    requires 0x80 <= c as int < 0x800
    ensures DecodeFirst(EncodeChar(c) + rest) == Some((c, 2))
  {
    Split2(c as int);
  }

  lemma DecodeFirstEncodeChar3(c: char, rest: seq<byte>)
    requires 0x800 <= c as int < 0x1_0000
    ensures DecodeFirst(EncodeChar(c) + rest) == Some((c, 3))
  {
    Split3(c as int);
  }

  lemma DecodeFirstEncodeChar4(c: char, rest: seq<byte>)
    requires 0x1_0000 <= c as int
    ensures DecodeFirst(EncodeChar(c) + rest) == Some((c, 4))
  {
    Split4(c as int);
  }

  /** Decoding the encoding of one character gives that character back. */
  lemma DecodeFirstEncodeChar(c: char, rest: seq<byte>)
    ensures DecodeFirst(EncodeChar(c) + rest) == Some((c, |EncodeChar(c)|))
  {
    var v := c as int;
    if v < 0x80 {
    } else if v < 0x800 {
      DecodeFirstEncodeChar2(c, rest);
    } else if v < 0x1_0000 {
      DecodeFirstEncodeChar3(c, rest);
    } else {
      DecodeFirstEncodeChar4(c, rest);
    }
  }

  /** A two-byte sequence is split back into its lead and continuation bytes. */
  lemma Join2(b0: int, b1: int)
    requires 0xC2 <= b0 <= 0xDF && 0x80 <= b1 < 0xC0
    ensures var v := Value2(b0, b1); v / 0x40 == b0 - 0xC0 && v % 0x40 == b1 - 0x80
  {
  }

  lemma Join3(b0: int, b1: int, b2: int)
    requires 0xE0 <= b0 <= 0xEF && 0x80 <= b1 < 0xC0 && 0x80 <= b2 < 0xC0
    ensures var v := Value3(b0, b1, b2);
      v / 0x1000 == b0 - 0xE0 && (v / 0x40) % 0x40 == b1 - 0x80 && v % 0x40 == b2 - 0x80
  {
    var v := Value3(b0, b1, b2);
    var hi: int := (b0 - 0xE0) * 0x40 + (b1 - 0x80);
    assert v == hi * 0x40 + (b2 - 0x80);
    assert v / 0x40 == hi;
  }

  lemma Join4(b0: int, b1: int, b2: int, b3: int)
    requires 0xF0 <= b0 <= 0xF4 && 0x80 <= b1 < 0xC0 && 0x80 <= b2 < 0xC0 && 0x80 <= b3 < 0xC0
    ensures var v := Value4(b0, b1, b2, b3);
      && v / 0x4_0000 == b0 - 0xF0 && (v / 0x1000) % 0x40 == b1 - 0x80
      && (v / 0x40) % 0x40 == b2 - 0x80 && v % 0x40 == b3 - 0x80
  {
    var v := Value4(b0, b1, b2, b3);
    var top: int := (b0 - 0xF0) * 0x40 + (b1 - 0x80);
    var mid: int := top * 0x40 + (b2 - 0x80);
    assert v == mid * 0x40 + (b3 - 0x80);
    assert v / 0x40 == mid;
    assert v / 0x1000 == mid / 0x40 == top;
    assert v / 0x4_0000 == top / 0x40;
  }

  /** A decoded character re-encodes to exactly the bytes it was decoded from. */
  lemma EncodeCharDecodeFirst(bs: seq<byte>)
    requires |bs| > 0 && DecodeFirst(bs).Some?
    ensures EncodeChar(DecodeFirst(bs).value.0) == bs[..DecodeFirst(bs).value.1]
  {
    var b0 := bs[0];
    if b0 < 0x80 {
    } else if b0 <= 0xDF {
      Join2(b0, bs[1]);
    } else if b0 <= 0xEF {
      Join3(b0, bs[1], bs[2]);
    } else {
      Join4(b0, bs[1], bs[2], bs[3]);
    }
  }

  /** Decoding inverts encoding: every string survives the round trip. */
  lemma {:induction false} DecodeEncode(s: string)
    ensures Decode(Encode(s)) == Success(s)
  {
    if s != [] {
      var head := EncodeChar(s[0]);
      var bs := Encode(s);
      assert bs == head + Encode(s[1..]);
      DecodeFirstEncodeChar(s[0], Encode(s[1..]));
      assert bs[|head|..] == Encode(s[1..]);
      DecodeEncode(s[1..]);
      assert [s[0]] + s[1..] == s;
    }
  }

  /** Encoding a string with a given first character. */
  lemma EncodeCons(c: char, s: string)
    ensures Encode([c] + s) == EncodeChar(c) + Encode(s)
  {
    assert ([c] + s)[0] == c && ([c] + s)[1..] == s;
  }

  /** One step of successful decoding: the first character, then the rest. */
  lemma DecodeStep(bs: seq<byte>)
    requires bs != [] && Decode(bs).Success?
    ensures DecodeFirst(bs).Some? && Decode(bs[DecodeFirst(bs).value.1..]).Success?
    ensures Decode(bs).value == [DecodeFirst(bs).value.0] + Decode(bs[DecodeFirst(bs).value.1..]).value
  {
  }

  /** A first character and the rest, each re-encoded to its own part of `bs`, re-encode to `bs`. */
  lemma Reassemble(bs: seq<byte>, n: nat, c: char, rest: string)
    requires n <= |bs| && EncodeChar(c) == bs[..n] && Encode(rest) == bs[n..]
    ensures Encode([c] + rest) == bs
  {
    EncodeCons(c, rest);
    assert bs[..n] + bs[n..] == bs;
  }

  /** Encoding inverts successful decoding: the decoder accepts only encodings. */
  lemma {:induction false} EncodeDecode(bs: seq<byte>)
    requires Decode(bs).Success?
    ensures Encode(Decode(bs).value) == bs
    decreases |bs|
  {
    if bs != [] {
      DecodeStep(bs);
      var first := DecodeFirst(bs).value;
      EncodeCharDecodeFirst(bs);
      EncodeDecode(bs[first.1..]);
      Reassemble(bs, first.1, first.0, Decode(bs[first.1..]).value);
    }
  }
}
