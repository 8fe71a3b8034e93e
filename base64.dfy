/** Base64 with the standard alphabet and '=' padding (section 4 of
    RFC 4648), as the `encode` of Deno's standard library produces it. */
module Base64 {
  import opened Wrappers
  import opened Bytes

  type Sextet = v: int | 0 <= v < 64

  /** The alphabet of Table 1 of RFC 4648. */
  function CharOf(v: Sextet): char {
    if v < 26 then ('A' as int + v) as char
    else if v < 52 then ('a' as int + v - 26) as char
    else if v < 62 then ('0' as int + v - 52) as char
    else if v == 62 then '+'
    else '/'
  }

  function ValueOf(c: char): (r: Option<Sextet>)
    ensures r.Some? ==> CharOf(r.value) == c
  {
    if 'A' <= c <= 'Z' then Some(c as int - 'A' as int)
    else if 'a' <= c <= 'z' then Some(c as int - 'a' as int + 26)
    else if '0' <= c <= '9' then Some(c as int - '0' as int + 52)
    else if c == '+' then Some(62)
    else if c == '/' then Some(63)
    else None
  }

  lemma ValueOfCharOf(v: Sextet)
    ensures ValueOf(CharOf(v)) == Some(v)
  {
  }

  /** Three bytes (24 bits) as four characters of six bits each. */
  function Quad(b0: Byte, b1: Byte, b2: Byte): (r: string)
    ensures |r| == 4
  {
    [CharOf(b0 / 4), CharOf((b0 % 4) * 16 + b1 / 16), CharOf((b1 % 16) * 4 + b2 / 64), CharOf(b2 % 64)]
  }

  /** Every three input bytes become four characters; a final group of one
      or two bytes is padded with "==" or "=". */
  function Encode(bs: seq<Byte>): (r: string)
    ensures |r| == 4 * ((|bs| + 2) / 3)
  {
    if |bs| == 0 then ""
    else if |bs| == 1 then
      [CharOf(bs[0] / 4), CharOf((bs[0] % 4) * 16), '=', '=']
    else if |bs| == 2 then
      [CharOf(bs[0] / 4), CharOf((bs[0] % 4) * 16 + bs[1] / 16), CharOf((bs[1] % 16) * 4), '=']
    else
      Quad(bs[0], bs[1], bs[2]) + Encode(bs[3..])
  }

  /** Canonical decoding of one group: '=' only at the end, and the bits that
      padding leaves over must be zero, so exactly the groups Encode writes
      decode. */
  function DecodeBlock(s: string): Option<seq<Byte>>
    requires |s| == 4
  {
    if ValueOf(s[0]).None? || ValueOf(s[1]).None? then None
    else
      var a, b := ValueOf(s[0]).value as int, ValueOf(s[1]).value as int;
      var first: Byte := a * 4 + b / 16;
      if ValueOf(s[2]).Some? && ValueOf(s[3]).Some? then
        var c, d := ValueOf(s[2]).value as int, ValueOf(s[3]).value as int;
        var second: Byte := (b % 16) * 16 + c / 4;
        var third: Byte := (c % 4) * 64 + d;
        Some([first, second, third])
      else if ValueOf(s[2]).Some? && s[3] == '=' then
        var c := ValueOf(s[2]).value as int;
        var second: Byte := (b % 16) * 16 + c / 4;
        if c % 4 == 0 then Some([first, second]) else None
      else if s[2] == '=' && s[3] == '=' && b % 16 == 0 then Some([first])
      else None
  }

  function Decode(s: string): Option<seq<Byte>>
  {
    if |s| == 0 then Some([])
    else if |s| < 4 then None
    else if |s| == 4 then DecodeBlock(s)
    else match (ValueOf(s[3]), DecodeBlock(s[..4]), Decode(s[4..])) {
      case (Some(_), Some(head), Some(tail)) => Some(head + tail)
      case _ => None
    }
  }

  lemma DecodeOne(b0: Byte)
    ensures DecodeBlock(Encode([b0])) == Some([b0])
  {
    ValueOfCharOf(b0 / 4);
    ValueOfCharOf((b0 % 4) * 16);
  }

  lemma DecodeTwo(b0: Byte, b1: Byte)
    ensures DecodeBlock(Encode([b0, b1])) == Some([b0, b1])
  {
    var x, y, z := b0 / 4, (b0 % 4) * 16 + b1 / 16, (b1 % 16) * 4;
    ValueOfCharOf(x);
    ValueOfCharOf(y);
    ValueOfCharOf(z);
    assert x * 4 + y / 16 == b0;
    assert (y % 16) * 16 + z / 4 == b1;
  }

  lemma DecodeQuad(b0: Byte, b1: Byte, b2: Byte)
    ensures DecodeBlock(Quad(b0, b1, b2)) == Some([b0, b1, b2])
    ensures ValueOf(Quad(b0, b1, b2)[3]).Some?
  {
    var x, y, z, w := b0 / 4, (b0 % 4) * 16 + b1 / 16, (b1 % 16) * 4 + b2 / 64, b2 % 64;
    ValueOfCharOf(x);
    ValueOfCharOf(y);
    ValueOfCharOf(z);
    ValueOfCharOf(w);
    assert x * 4 + y / 16 == b0;
    assert (y % 16) * 16 + z / 4 == b1;
    assert (z % 4) * 64 + w == b2;
  }

  lemma DecodeGroups(q: string, rest: string, head: seq<Byte>, tail: seq<Byte>)
    requires |q| == 4 && DecodeBlock(q) == Some(head) && ValueOf(q[3]).Some?
    requires Decode(rest) == Some(tail)
    ensures Decode(q + rest) == Some(head + tail)
  {
    var s := q + rest;
    if rest == [] {
      assert s == q;
      assert head + tail == head;
    } else {
      assert |rest| >= 4;
      assert s[..4] == q && s[4..] == rest && s[3] == q[3];
    }
  }

  /** Decoding undoes encoding. */
  lemma {:induction false} DecodeEncode(bs: seq<Byte>)
    ensures Decode(Encode(bs)) == Some(bs)
  {
    if |bs| == 1 {
      assert [bs[0]] == bs;
      DecodeOne(bs[0]);
    } else if |bs| == 2 {
      assert [bs[0], bs[1]] == bs;
      DecodeTwo(bs[0], bs[1]);
    } else if |bs| >= 3 {
      var head, tail := [bs[0], bs[1], bs[2]], bs[3..];
      assert head + tail == bs;
      assert Encode(bs) == Quad(bs[0], bs[1], bs[2]) + Encode(tail);
      DecodeQuad(bs[0], bs[1], bs[2]);
      DecodeEncode(tail);
      DecodeGroups(Quad(bs[0], bs[1], bs[2]), Encode(tail), head, tail);
    }
  }

  /** Encoding is injective, so distinct byte strings never share a base64 text. */
  lemma EncodeInjective(a: seq<Byte>, b: seq<Byte>)
    ensures Encode(a) == Encode(b) ==> a == b
  {
    DecodeEncode(a);
    DecodeEncode(b);
  }
}
