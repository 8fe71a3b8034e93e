/** Bytes and the UTF-8 encoding (RFC 3629) that the WHATWG `TextEncoder`
    applies to a JavaScript string before it is hashed or base64-encoded.
    Dafny's `char` is a Unicode scalar value, so every string here is
    well-formed and encodes without replacement characters. */
module Bytes {
  import opened Wrappers

  type Byte = b: int | 0 <= b < 256

  /** Continuation byte 10xxxxxx carrying six bits. */
  predicate IsContinuation(b: Byte) {
    0x80 <= b < 0xC0
  }

  /** The one to four bytes of one scalar value. */
  function EncodeChar(c: char): (r: seq<Byte>)
    ensures 1 <= |r| <= 4
    ensures |r| == 1 <==> (c as int) < 0x80
    ensures forall k :: 1 <= k < |r| ==> IsContinuation(r[k])
  {
    var n := c as int;
    if n < 0x80 then [n]
    else if n < 0x800 then [0xC0 + n / 64, 0x80 + n % 64]
    else if n < 0x10000 then [0xE0 + n / 4096, 0x80 + (n / 64) % 64, 0x80 + n % 64]
    else [0xF0 + n / 262144, 0x80 + (n / 4096) % 64, 0x80 + (n / 64) % 64, 0x80 + n % 64]
  }

  /** `new TextEncoder().encode(s)`. */
  function Utf8Encode(s: string): (r: seq<Byte>)
    ensures |s| <= |r| <= 4 * |s|
  {
    if s == [] then [] else EncodeChar(s[0]) + Utf8Encode(s[1..])
  }

  /** The scalar value whose code is n, when n is one (not a surrogate, not above U+10FFFF). */
  function ScalarOf(n: int): Option<char> {
    if 0 <= n < 0xD800 || 0xE000 <= n < 0x110000 then Some(n as char) else None
  }

  /** Strict decoding of the first scalar value of bs: its character and its
      length in bytes. Overlong forms, surrogates and values above U+10FFFF are
      rejected. */
  function DecodeFirst(bs: seq<Byte>): (r: Option<(char, nat)>)
    requires |bs| > 0
    ensures r.Some? ==> 1 <= r.value.1 <= |bs| && r.value.1 <= 4
  {
    var b0: int := bs[0];
    var b1: int := if |bs| >= 2 then bs[1] else 0;
    var b2: int := if |bs| >= 3 then bs[2] else 0;
    var b3: int := if |bs| >= 4 then bs[3] else 0;
    if b0 < 0x80 then Some((b0 as char, 1))
    else if 0xC0 <= b0 < 0xE0 && |bs| >= 2 && IsContinuation(bs[1]) then
      var n := (b0 - 0xC0) * 64 + (b1 - 0x80);
      if n < 0x80 then None else Some((n as char, 2))
    else if 0xE0 <= b0 < 0xF0 && |bs| >= 3 && IsContinuation(bs[1]) && IsContinuation(bs[2]) then
      var n := (b0 - 0xE0) * 4096 + (b1 - 0x80) * 64 + (b2 - 0x80);
      if n < 0x800 then None
      else match ScalarOf(n) { case Some(c) => Some((c, 3)) case None => None }
    else if 0xF0 <= b0 < 0xF8 && |bs| >= 4 && IsContinuation(bs[1]) && IsContinuation(bs[2]) && IsContinuation(bs[3]) then
      var n := (b0 - 0xF0) * 262144 + (b1 - 0x80) * 4096 + (b2 - 0x80) * 64 + (b3 - 0x80);
      if n < 0x10000 then None
      else match ScalarOf(n) { case Some(c) => Some((c, 4)) case None => None }
    else None
  }

  /** Strict UTF-8 decoding: None on any ill-formed sequence. */
  function Utf8Decode(bs: seq<Byte>): Option<string>
    decreases |bs|
  {
    if bs == [] then Some("")
    else match DecodeFirst(bs) {
      case None => None
      case Some(p) =>
        match Utf8Decode(bs[p.1..]) {
          case None => None
          case Some(rest) => Some([p.0] + rest)
        }
    }
  }

  /** The bit fields EncodeChar cuts a code point into recombine to it. */
  lemma ThreeFields(n: int)
    requires 0x800 <= n < 0x10000
    ensures 0 <= n / 4096 < 16 && 0 <= (n / 64) % 64 < 64
    ensures (n / 4096) * 4096 + ((n / 64) % 64) * 64 + n % 64 == n
  {
    var h := n / 64;
    assert n == h * 64 + n % 64;
    assert h == (h / 64) * 64 + h % 64;
    assert h / 64 == n / 4096;
  }

  lemma FourFields(n: int)
    requires 0x10000 <= n < 0x110000
    ensures 0 <= n / 262144 < 5 && 0 <= (n / 4096) % 64 < 64 && 0 <= (n / 64) % 64 < 64
    ensures (n / 262144) * 262144 + ((n / 4096) % 64) * 4096 + ((n / 64) % 64) * 64 + n % 64 == n
  {
    var h := n / 64;
    var g := h / 64;
    assert n == h * 64 + n % 64;
    assert h == g * 64 + h % 64;
    assert g == (g / 64) * 64 + g % 64;
    assert g == n / 4096;
    assert g / 64 == n / 262144;
  }

  lemma DecodeTwo(c: char, bs: seq<Byte>)
    requires 0x80 <= c as int < 0x800
    requires |bs| >= 2 && bs[..2] == EncodeChar(c)
    ensures DecodeFirst(bs) == Some((c, 2))
  {
    var n := c as int;
    var q, r := n / 64, n % 64;
    assert bs[0] == 0xC0 + q && bs[1] == 0x80 + r by { assert bs[..2][0] == bs[0] && bs[..2][1] == bs[1]; }
  }

  lemma DecodeThree(c: char, bs: seq<Byte>)
    requires 0x800 <= c as int < 0x10000
    requires |bs| >= 3 && bs[..3] == EncodeChar(c)
    ensures DecodeFirst(bs) == Some((c, 3))
  {
    var n := c as int;
    var q, m, r := n / 4096, (n / 64) % 64, n % 64;
    ThreeFields(n);
    assert bs[0] == 0xE0 + q && bs[1] == 0x80 + m && bs[2] == 0x80 + r by {
      assert bs[..3][0] == bs[0] && bs[..3][1] == bs[1] && bs[..3][2] == bs[2];
    }
    assert ScalarOf(n) == Some(c);
  }

  lemma DecodeFour(c: char, bs: seq<Byte>)
    requires 0x10000 <= c as int
    requires |bs| >= 4 && bs[..4] == EncodeChar(c)
    ensures DecodeFirst(bs) == Some((c, 4))
  {
    var n := c as int;
    var q, m1, m2, r := n / 262144, (n / 4096) % 64, (n / 64) % 64, n % 64;
    FourFields(n);
    assert bs[0] == 0xF0 + q && bs[1] == 0x80 + m1 && bs[2] == 0x80 + m2 && bs[3] == 0x80 + r by {
      assert bs[..4][0] == bs[0] && bs[..4][1] == bs[1] && bs[..4][2] == bs[2] && bs[..4][3] == bs[3];
    }
    assert ScalarOf(n) == Some(c);
  }

  lemma DecodeEncodeChar(c: char, tail: seq<Byte>)
    ensures DecodeFirst(EncodeChar(c) + tail) == Some((c, |EncodeChar(c)|))
  {
    var e := EncodeChar(c);
    var bs := e + tail;
    assert bs[..|e|] == e;
    if c as int < 0x80 {
    } else if c as int < 0x800 {
      DecodeTwo(c, bs);
    } else if c as int < 0x10000 {
      DecodeThree(c, bs);
    } else {
      DecodeFour(c, bs);
    }
  }

  /** Decoding undoes `TextEncoder`: the bytes of a string decode back to it. */
  lemma {:induction false} Utf8RoundTrip(s: string)
    ensures Utf8Decode(Utf8Encode(s)) == Some(s)
  {
    if s != [] {
      var e := EncodeChar(s[0]);
      var rest := Utf8Encode(s[1..]);
      DecodeEncodeChar(s[0], rest);
      assert (e + rest)[|e|..] == rest;
      Utf8RoundTrip(s[1..]);
      assert [s[0]] + s[1..] == s;
    }
  }

  /** Corollary: on well-formed strings `TextEncoder` is injective, so equal
      bytes mean equal strings. */
  lemma Utf8Injective(s: string, t: string)
    ensures Utf8Encode(s) == Utf8Encode(t) ==> s == t
  {
    Utf8RoundTrip(s);
    Utf8RoundTrip(t);
  }
}
