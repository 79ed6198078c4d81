/** str.encode("utf-8") (section 3 of RFC 3629), needed to say what the hashes are taken of. */
module Utf8 {
  import opened Seqs

  type Byte = x: int | 0 <= x < 256

  function EncodeChar(c: char): (r: seq<Byte>)
    ensures 1 <= |r| <= 4
    ensures (c as int) < 0x80 ==> r == [c as int]
    ensures (c as int) >= 0x80 ==> forall b :: b in r ==> b >= 0x80
  {
    var n := c as int;
    if n < 0x80 then [n]
    else if n < 0x800 then [0xC0 + n / 0x40, 0x80 + n % 0x40]
    else if n < 0x10000 then [0xE0 + n / 0x1000, 0x80 + n / 0x40 % 0x40, 0x80 + n % 0x40]
    else [0xF0 + n / 0x40000, 0x80 + n / 0x1000 % 0x40, 0x80 + n / 0x40 % 0x40, 0x80 + n % 0x40]
  }

  function Encode(s: string): seq<Byte> { FlatMap(EncodeChar, s) }

  function DecodeChar(r: seq<int>): int
    requires 1 <= |r| <= 4
  {
    if |r| == 1 then r[0]
    else if |r| == 2 then (r[0] - 0xC0) * 0x40 + (r[1] - 0x80)
    else if |r| == 3 then ((r[0] - 0xE0) * 0x40 + (r[1] - 0x80)) * 0x40 + (r[2] - 0x80)
    else (((r[0] - 0xF0) * 0x40 + (r[1] - 0x80)) * 0x40 + (r[2] - 0x80)) * 0x40 + (r[3] - 0x80)
  }

  lemma DecodeEncodeChar(c: char)
    ensures DecodeChar(EncodeChar(c)) == c as int
  {
    var n := c as int;
    var a := n / 0x40;
    var b := a / 0x40;
    assert n / 0x1000 == b && n / 0x40000 == b / 0x40;
  }

  /** The first byte fixes how many bytes belong to the character, so no code is a prefix of another. */
  lemma FirstCharDetermined(c: char, d: char, x: seq<Byte>, y: seq<Byte>)
    requires EncodeChar(c) + x == EncodeChar(d) + y
    ensures c == d && x == y
  {
    var p, q := EncodeChar(c), EncodeChar(d);
    assert (p + x)[0] == p[0] && (q + y)[0] == q[0];
    assert |p| == |q|;
    assert p == (p + x)[..|p|] && q == (q + y)[..|q|];
    assert x == (p + x)[|p|..] && y == (q + y)[|q|..];
    DecodeEncodeChar(c);
    DecodeEncodeChar(d);
  }

  lemma {:induction false} EncodeInjective(s: string, t: string)
    requires Encode(s) == Encode(t)
    ensures s == t
  {
    if s == "" || t == "" {
    } else {
      FirstCharDetermined(s[0], t[0], Encode(s[1..]), Encode(t[1..]));
      EncodeInjective(s[1..], t[1..]);
      assert s == [s[0]] + s[1..] && t == [t[0]] + t[1..];
    }
  }

  /** One character of each length. */
  lemma EncodedSamples()
    ensures EncodeChar('A') == [0x41] && EncodeChar('\U{e9}') == [0xc3, 0xa9]
    ensures EncodeChar('\U{20ac}') == [0xe2, 0x82, 0xac] && EncodeChar('\U{1f600}') == [0xf0, 0x9f, 0x98, 0x80]
    ensures EncodeChar('\U{1f}') == [0x1f]
  {}
}
