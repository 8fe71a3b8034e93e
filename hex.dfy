/** Lowercase base16, the byte-to-text step both HMAC users perform with
    `Array.from(bytes).map(b => b.toString(16).padStart(2, '0')).join('')`.
    Section 8 of RFC 4648 defines the same alphabet in upper case. */
module Hex {
  import opened Wrappers
  import opened Bytes

  /** A lowercase hex digit: 0-9 or a-f. */
  predicate IsDigit(c: char) {
    '0' <= c <= '9' || 'a' <= c <= 'f'
  }

  /** The digit `toString(16)` writes for a value below 16. */
  function DigitChar(v: int): (c: char)
    requires 0 <= v < 16
    ensures IsDigit(c)
  {
    if v < 10 then ('0' as int + v) as char else ('a' as int + v - 10) as char
  }

  /** `b.toString(16)`: the shortest lowercase radix-16 numeral of b. */
  function Radix16(b: Byte): (r: string)
    ensures 1 <= |r| <= 2
  {
    if b < 16 then [DigitChar(b)] else [DigitChar(b / 16), DigitChar(b % 16)]
  }

  /** `s.padStart(2, '0')`. */
  function PadStart2(s: string): (r: string)
    ensures |r| == if |s| >= 2 then |s| else 2
  {
    if |s| >= 2 then s else seq(2 - |s|, _ => '0') + s
  }

  /** Each byte becomes exactly two digits, high nibble first. */
  function ByteToHex(b: Byte): (r: string)
    ensures |r| == 2 && r[0] == DigitChar(b / 16) && r[1] == DigitChar(b % 16)
  {
    PadStart2(Radix16(b))
  }

  /** The `map(...).join('')` over the whole byte array. */
  function Encode(bs: seq<Byte>): (r: string)
    ensures |r| == 2 * |bs|
    ensures forall i :: 0 <= i < |r| ==> IsDigit(r[i])
  {
    if bs == [] then "" else ByteToHex(bs[0]) + Encode(bs[1..])
  }

  /** Value of a lowercase hex digit; upper-case letters are not digits here. */
  function DigitValue(c: char): (r: Option<int>)
    ensures r.Some? <==> IsDigit(c)
    ensures r.Some? ==> 0 <= r.value < 16 && DigitChar(r.value) == c
  {
    if '0' <= c <= '9' then Some(c as int - '0' as int)
    else if 'a' <= c <= 'f' then Some(c as int - 'a' as int + 10)
    else None
  }

  /** Inverse of Encode: accepts exactly the strings Encode produces. */
  function Decode(s: string): Option<seq<Byte>>
  {
    if |s| == 0 then Some([])
    else if |s| == 1 then None
    else match (DigitValue(s[0]), DigitValue(s[1]), Decode(s[2..])) {
      case (Some(hi), Some(lo), Some(rest)) => Some([hi * 16 + lo] + rest)
      case _ => None
    }
  }

  lemma DigitValueOfDigit(v: int)
    requires 0 <= v < 16
    ensures DigitValue(DigitChar(v)) == Some(v)
  {
  }

  lemma DecodeByte(b: Byte, rest: string)
    ensures Decode(ByteToHex(b) + rest) ==
      match Decode(rest) { case Some(tail) => Some([b] + tail) case None => None }
  {
    var s := ByteToHex(b) + rest;
    assert s[0] == DigitChar(b / 16) && s[1] == DigitChar(b % 16) && s[2..] == rest;
    DigitValueOfDigit(b / 16);
    DigitValueOfDigit(b % 16);
  }

  lemma {:induction false} DecodeEncode(bs: seq<Byte>)
    ensures Decode(Encode(bs)) == Some(bs)
  {
    if bs != [] {
      DecodeByte(bs[0], Encode(bs[1..]));
      DecodeEncode(bs[1..]);
      assert [bs[0]] + bs[1..] == bs;
    }
  }

  lemma PairByte(hi: int, lo: int) returns (b: Byte)
    requires 0 <= hi < 16 && 0 <= lo < 16
    ensures b == hi * 16 + lo && b / 16 == hi && b % 16 == lo
  {
    b := hi * 16 + lo;
  }

  lemma {:induction false} EncodeDecode(s: string)
    requires Decode(s).Some?
    ensures Encode(Decode(s).value) == s
  {
    if |s| >= 2 {
      var hi, lo := DigitValue(s[0]).value, DigitValue(s[1]).value;
      var tail := Decode(s[2..]).value;
      EncodeDecode(s[2..]);
      var b := PairByte(hi, lo);
      assert Decode(s) == Some([b] + tail);
      assert ([b] + tail)[1..] == tail;
      assert Encode([b] + tail) == ByteToHex(b) + Encode(tail);
      assert ByteToHex(b) == s[..2];
      assert s == s[..2] + s[2..];
    }
  }

  /** Two byte strings with the same hex text are the same byte string. */
  lemma EncodeInjective(a: seq<Byte>, b: seq<Byte>)
    ensures Encode(a) == Encode(b) ==> a == b
  {
    DecodeEncode(a);
    DecodeEncode(b);
  }
}
