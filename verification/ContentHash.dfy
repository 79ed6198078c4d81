/** The byte stream that the content hash is taken of, and when it identifies the contents. */
module ContentHash {
  import opened Results
  import opened Seqs
  import opened Utf8

  const UNIT_SEPARATOR: char := '\U{1f}'

  /** The contents as characters: each one followed by the separator. A missing content counts as empty. */
  function Stream(contents: seq<Option<string>>): string {
    if contents == [] then "" else Text(contents[0]) + [UNIT_SEPARATOR] + Stream(contents[1..])
  }

  function Text(content: Option<string>): string {
    match content case None => "" case Some(s) => s
  }

  /** The loop of _compute_content_hash: feeds the hash object item by item. */
  method Preimage(contents: seq<Option<string>>) returns (fed: seq<Byte>)
    ensures fed == Encode(Stream(contents))
  {
    fed := [];
    for i := 0 to |contents|
      invariant fed + Encode(Stream(contents[i..])) == Encode(Stream(contents))
    {
      StreamStep(contents[i..]);
      assert contents[i..][1..] == contents[i + 1..];
      fed := fed + Encode(Text(contents[i]));
      fed := fed + [0x1f];
    }
    assert contents[|contents|..] == [];
  }

  lemma {:induction false} StreamStep(contents: seq<Option<string>>)
    requires contents != []
    ensures Encode(Stream(contents)) == Encode(Text(contents[0])) + [0x1f] + Encode(Stream(contents[1..]))
  {
    var text, rest := Text(contents[0]), Stream(contents[1..]);
    FlatMapConcat(EncodeChar, text + [UNIT_SEPARATOR], rest);
    FlatMapConcat(EncodeChar, text, [UNIT_SEPARATOR]);
    FlatMapOne(EncodeChar, UNIT_SEPARATOR);
  }

  /** Splits at every separator; what follows the last one is dropped (a stream ends with one). */
  function Split(s: string): seq<string> { SplitFrom("", s) }

  function SplitFrom(piece: string, s: string): seq<string>
    decreases s
  {
    if s == "" then []
    else if s[0] == UNIT_SEPARATOR then [piece] + SplitFrom("", s[1..])
    else SplitFrom(piece + [s[0]], s[1..])
  }

  function Texts(contents: seq<Option<string>>): (r: seq<string>)
    ensures |r| == |contents| && forall i :: 0 <= i < |r| ==> r[i] == Text(contents[i])
  {
    seq(|contents|, i requires 0 <= i < |contents| => Text(contents[i]))
  }

  predicate Separated(contents: seq<Option<string>>) {
    forall c :: c in contents ==> UNIT_SEPARATOR !in Text(c)
  }

  function Count(s: string): nat {
    if s == "" then 0 else (if s[0] == UNIT_SEPARATOR then 1 else 0) + Count(s[1..])
  }

  lemma {:induction false} SplitLength(piece: string, s: string)
    ensures |SplitFrom(piece, s)| == Count(s)
    decreases s
  {
    if s != "" {
      SplitLength(if s[0] == UNIT_SEPARATOR then "" else piece + [s[0]], s[1..]);
    }
  }

  lemma {:induction false} CountConcat(s: string, t: string)
    ensures Count(s + t) == Count(s) + Count(t)
    ensures UNIT_SEPARATOR in s <==> Count(s) > 0
  {
    if s == "" {
      assert s + t == t;
    } else {
      CountConcat(s[1..], t);
      assert (s + t)[1..] == s[1..] + t;
    }
  }

  lemma {:induction false} SplitFirst(piece: string, s: string, rest: string)
    requires UNIT_SEPARATOR !in s
    ensures SplitFrom(piece, s + [UNIT_SEPARATOR] + rest) == [piece + s] + SplitFrom("", rest)
    decreases s
  {
    var w := s + [UNIT_SEPARATOR] + rest;
    if s == "" {
      assert w[1..] == rest && piece + s == piece;
    } else {
      SplitFirst(piece + [s[0]], s[1..], rest);
      assert w[1..] == s[1..] + [UNIT_SEPARATOR] + rest;
      assert piece + [s[0]] + s[1..] == piece + s;
    }
  }

  lemma {:induction false} StreamCount(contents: seq<Option<string>>)
    ensures Count(Stream(contents)) >= |contents|
    ensures Count(Stream(contents)) == |contents| <==> Separated(contents)
  {
    if contents != [] {
      var s, rest := Text(contents[0]), Stream(contents[1..]);
      StreamCount(contents[1..]);
      CountConcat(s + [UNIT_SEPARATOR], rest);
      CountConcat(s, [UNIT_SEPARATOR]);
      assert contents == [contents[0]] + contents[1..];
    }
  }

  /** Splitting the stream gives back the contents exactly when no content holds U+001F itself. */
  lemma {:induction false} SplitRecovers(contents: seq<Option<string>>)
    ensures Split(Stream(contents)) == Texts(contents) <==> Separated(contents)
  {
    StreamCount(contents);
    SplitLength("", Stream(contents));
    if Separated(contents) && contents != [] {
      var s, tail := Text(contents[0]), contents[1..];
      assert contents[0] in contents;
      SplitRecovers(tail);
      SplitFirst("", s, Stream(tail));
      assert "" + s == s;
      assert Texts(contents) == [s] + Texts(tail);
    }
  }

  function Rejoin(pieces: seq<string>): string {
    if pieces == [] then "" else pieces[0] + [UNIT_SEPARATOR] + Rejoin(pieces[1..])
  }

  lemma {:induction false} RejoinSplit(piece: string, s: string)
    requires s != "" && s[|s| - 1] == UNIT_SEPARATOR
    ensures Rejoin(SplitFrom(piece, s)) == piece + s
    decreases s
  {
    if s[0] == UNIT_SEPARATOR {
      if |s| > 1 {
        RejoinSplit("", s[1..]);
      }
      assert piece + s == piece + [UNIT_SEPARATOR] + s[1..];
    } else {
      RejoinSplit(piece + [s[0]], s[1..]);
      assert piece + [s[0]] + s[1..] == piece + s;
    }
  }

  /** A content cut at every U+001F inside it. */
  function Pieces(content: string): seq<string> { Split(content + [UNIT_SEPARATOR]) }

  lemma {:induction false} SplitConcat(piece: string, s: string, rest: string)
    requires s != "" && s[|s| - 1] == UNIT_SEPARATOR
    ensures SplitFrom(piece, s + rest) == SplitFrom(piece, s) + Split(rest)
    decreases s
  {
    assert (s + rest)[1..] == s[1..] + rest;
    if |s| == 1 {
      assert s[1..] + rest == rest;
    } else {
      SplitConcat(if s[0] == UNIT_SEPARATOR then "" else piece + [s[0]], s[1..], rest);
    }
  }

  lemma {:induction false} SplitStream(contents: seq<Option<string>>)
    ensures Split(Stream(contents)) == FlatMap(Pieces, Texts(contents))
    ensures contents != [] ==> Stream(contents) != "" && Stream(contents)[|Stream(contents)| - 1] == UNIT_SEPARATOR
  {
    if contents != [] {
      SplitConcat("", Text(contents[0]) + [UNIT_SEPARATOR], Stream(contents[1..]));
      SplitStream(contents[1..]);
      assert Texts(contents)[1..] == Texts(contents[1..]);
    }
  }

  lemma RejoinStream(contents: seq<Option<string>>)
    ensures Rejoin(Split(Stream(contents))) == Stream(contents)
  {
    if contents != [] {
      SplitStream(contents);
      RejoinSplit("", Stream(contents));
      assert "" + Stream(contents) == Stream(contents);
    }
  }

  /**
   * Two uploads feed the hash the same bytes exactly when cutting every content at U+001F gives one and the
   * same list; in particular (SplitRecovers) contents free of U+001F are told apart.
   */
  lemma PreimageExact(a: seq<Option<string>>, b: seq<Option<string>>)
    ensures Encode(Stream(a)) == Encode(Stream(b)) <==> FlatMap(Pieces, Texts(a)) == FlatMap(Pieces, Texts(b))
  {
    SplitStream(a);
    SplitStream(b);
    if Encode(Stream(a)) == Encode(Stream(b)) {
      EncodeInjective(Stream(a), Stream(b));
    }
    RejoinStream(a);
    RejoinStream(b);
  }

  lemma PreimageInjective(a: seq<Option<string>>, b: seq<Option<string>>)
    requires Separated(a) && Separated(b)
    ensures Encode(Stream(a)) == Encode(Stream(b)) ==> Texts(a) == Texts(b)
  {
    PreimageExact(a, b);
    SplitStream(a);
    SplitStream(b);
    SplitRecovers(a);
    SplitRecovers(b);
  }

  /** With U+001F inside a content, different uploads feed the hash the same bytes. */
  lemma PreimageCollision()
    ensures var a, b := [Some("x" + [UNIT_SEPARATOR] + "y")], [Some("x"), Some("y")];
            Texts(a) != Texts(b) && Encode(Stream(a)) == Encode(Stream(b))
  {
    var a: seq<Option<string>> := [Some("x" + [UNIT_SEPARATOR] + "y")];
    var b: seq<Option<string>> := [Some("x"), Some("y")];
    assert |Texts(a)| != |Texts(b)|;
    assert a[1..] == [] && b[1..] == [Some("y")] && b[1..][1..] == [];
    assert Stream(a) == "x" + [UNIT_SEPARATOR] + "y" + [UNIT_SEPARATOR] == Stream(b);
  }

  /** hexdigest(). */
  function Hex(digest: seq<Byte>): string {
    if digest == [] then "" else [HexDigit(digest[0] / 16), HexDigit(digest[0] % 16)] + Hex(digest[1..])
  }

  function HexDigit(n: nat): char
    requires n < 16
  {
    "0123456789abcdef"[n]
  }

  lemma {:induction false} HexInjective(a: seq<Byte>, b: seq<Byte>)
    requires Hex(a) == Hex(b)
    ensures a == b
    decreases |a|
  {
    if a != [] && b != [] {
      assert Hex(a)[0] == HexDigit(a[0] / 16) && Hex(a)[1] == HexDigit(a[0] % 16);
      assert Hex(a)[2..] == Hex(a[1..]) && Hex(b)[2..] == Hex(b[1..]);
      HexDigitInjective(a[0] / 16, b[0] / 16);
      HexDigitInjective(a[0] % 16, b[0] % 16);
      HexInjective(a[1..], b[1..]);
    }
  }

  lemma HexDigitInjective(m: nat, n: nat)
    requires m < 16 && n < 16 && HexDigit(m) == HexDigit(n)
    ensures m == n
  {}

  /** Two lower-case digits a byte, the high one first. */
  lemma HexSample()
    ensures Hex([0x0f, 0xa0, 0xb9]) == "0fa0b9"
  {
    assert Hex([0xb9]) == "b9" && Hex([0xa0, 0xb9]) == "a0b9";
  }
}
