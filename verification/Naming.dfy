/** Slugs, collection names and advisory-lock keys. */
module Naming {
  import opened Results
  import opened Utf8
  import Text

  datatype NameError = InvalidIdentifier | EmptyDocId

  predicate IsAlnum(c: char) { 'a' <= c <= 'z' || '0' <= c <= '9' }

  /** The language of SLUG_PATTERN under fullmatch. */
  predicate IsSlug(s: string) {
    && 3 <= |s| <= 40
    && IsAlnum(s[0])
    && forall c :: c in s ==> IsAlnum(c) || c == '_'
  }

  /** One of a-z and 0-9, then 2 to 39 of these and underscores. */
  lemma SlugPattern(head: char, tail: string)
    ensures IsSlug([head] + tail) <==>
            && ('a' <= head <= 'z' || '0' <= head <= '9') && 2 <= |tail| <= 39
            && forall c :: c in tail ==> 'a' <= c <= 'z' || '0' <= c <= '9' || c == '_'
    ensures !IsSlug("")
  {
    var s := [head] + tail;
    assert forall c :: c in tail ==> c in s;
    assert head in s;
  }

  const SEPARATOR := "__b_"

  function RawName(tenant: string, bot: string): string { "t_" + tenant + SEPARATOR + bot }

  /** collection_name: validates both slugs, then joins them; always fits the 100-character column. */
  function CollectionName(tenant: string, bot: string): (r: Result<string, NameError>)
    ensures r.Success? <==> IsSlug(tenant) && IsSlug(bot)
    ensures r.Success? ==> |r.value| <= 100
  {
    if IsSlug(tenant) && IsSlug(bot) then Success(RawName(tenant, bot)) else Failure(InvalidIdentifier)
  }

  /**
   * Exactly when two bots share a collection name: the longer tenant is the shorter one continued by the
   * separator and some y, and the other bot is that y continued by the separator and the first bot.
   */
  lemma CollisionShape(t: string, b: string, t': string, b': string)
    requires IsSlug(t) && IsSlug(b) && IsSlug(t') && IsSlug(b') && |t| < |t'|
    ensures RawName(t, b) == RawName(t', b')
       <==> exists y :: t' == t + SEPARATOR + y && b == y + SEPARATOR + b'
  {
    if RawName(t, b) == RawName(t', b') {
      StraddleImpossible(t, b, t', b');
      var y := t'[|t| + 4..];
      assert t' == t + SEPARATOR + y && b == y + SEPARATOR + b' by {
        NameAt(t, b, t', b');
        assert t' == t'[..|t|] + t'[|t|..|t| + 4] + y;
        assert b == b[..|y|] + b[|y|..|y| + 4] + b[|y| + 4..];
      }
    }
    forall y | t' == t + SEPARATOR + y && b == y + SEPARATOR + b'
      ensures RawName(t, b) == RawName(t', b')
    {
      assert "t_" + t + SEPARATOR + (y + SEPARATOR + b') == "t_" + (t + SEPARATOR + y) + SEPARATOR + b';
    }
  }

  /** The two separators cannot overlap, because a bot slug starts with an alphanumeric. */
  lemma StraddleImpossible(t: string, b: string, t': string, b': string)
    requires IsSlug(t) && IsSlug(b) && IsSlug(t') && IsSlug(b') && |t| < |t'|
    requires RawName(t, b) == RawName(t', b')
    ensures |t'| >= |t| + 4
  {
    var s := RawName(t, b);
    var p, q := 2 + |t|, 2 + |t'|;
    assert s[p] == '_' && s[p + 1] == '_' && s[p + 2] == 'b' && s[p + 3] == '_' && s[p + 4] == b[0];
    assert s == RawName(t', b');
    assert s[q] == '_' && s[q + 1] == '_' && s[q + 2] == 'b' && s[q + 3] == '_';
  }

  /** The shared name read through either pair of slugs. */
  lemma NameAt(t: string, b: string, t': string, b': string)
    requires RawName(t, b) == RawName(t', b') && |t| + 4 <= |t'|
    ensures t'[..|t|] == t && t'[|t|..|t| + 4] == SEPARATOR
    ensures var n := |t'| - |t| - 4;
            |b| == n + 4 + |b'| && b[..n] == t'[|t| + 4..] && b[n..n + 4] == SEPARATOR && b[n + 4..] == b'
  {
    var s, n := RawName(t, b), |t'| - |t| - 4;
    assert s == RawName(t', b');
    assert t == s[2..2 + |t|] == t'[..|t|];
    assert SEPARATOR == s[2 + |t|..6 + |t|] == t'[|t|..|t| + 4];
    assert b == s[6 + |t|..];
    assert b[..n] == s[6 + |t|..2 + |t'|] == t'[|t| + 4..];
    assert b[n..n + 4] == s[2 + |t'|..6 + |t'|] == SEPARATOR;
    assert b[n + 4..] == s[6 + |t'|..] == b';
  }

  /** Two bots share a name only if the longer tenant and the longer bot both contain the separator. */
  lemma SharedNameContainsSeparator(t: string, b: string, t': string, b': string)
    requires IsSlug(t) && IsSlug(b) && IsSlug(t') && IsSlug(b') && |t| < |t'|
    requires RawName(t, b) == RawName(t', b')
    ensures Text.Contains(t', SEPARATOR) && Text.Contains(b, SEPARATOR)
  {
    CollisionShape(t, b, t', b');
    var y :| t' == t + SEPARATOR + y && b == y + SEPARATOR + b';
    assert SEPARATOR <= t'[|t|..] && SEPARATOR <= b[|y|..];
  }

  /** collection_name is injective on every set of bots whose tenants, or whose bots, avoid "__b_". */
  lemma NameInjective(t: string, b: string, t': string, b': string)
    requires IsSlug(t) && IsSlug(b) && IsSlug(t') && IsSlug(b')
    requires || (!Text.Contains(t, SEPARATOR) && !Text.Contains(t', SEPARATOR))
             || (!Text.Contains(b, SEPARATOR) && !Text.Contains(b', SEPARATOR))
    requires RawName(t, b) == RawName(t', b')
    ensures t == t' && b == b'
  {
    if |t| < |t'| {
      SharedNameContainsSeparator(t, b, t', b');
    } else if |t'| < |t| {
      SharedNameContainsSeparator(t', b', t, b);
    } else {
      NameParts(t, b);
      NameParts(t', b');
    }
  }

  lemma NameParts(t: string, b: string)
    ensures RawName(t, b)[2..2 + |t|] == t && RawName(t, b)[6 + |t|..] == b
  {
    assert RawName(t, b) == "t_" + t + (SEPARATOR + b);
    assert RawName(t, b) == ("t_" + t + SEPARATOR) + b;
  }

  /** The name alone is not injective: these two bots share one. */
  lemma NameCollision()
    ensures IsSlug("acme") && IsSlug("faq__b_old") && IsSlug("acme__b_faq") && IsSlug("old")
    ensures CollectionName("acme", "faq__b_old") == CollectionName("acme__b_faq", "old")
            == Success("t_acme__b_faq__b_old")
  {
    assert RawName("acme", "faq__b_old") == "t_acme__b_faq__b_old" == RawName("acme__b_faq", "old");
  }

  // ---- advisory-lock keys

  type Digest = d: seq<Byte> | |d| == 32 witness seq(32, _ => 0)
  type Int32 = k: int | -0x8000_0000 <= k < 0x8000_0000

  /** Big-endian two's-complement reading of four bytes, as struct.unpack(">i"). */
  function Int32At(d: Digest, i: nat): Int32
    requires i + 4 <= 32
  {
    var u: int := ((d[i] as int * 256 + d[i + 1]) * 256 + d[i + 2]) * 256 + d[i + 3];
    if u < 0x8000_0000 then u else u - 0x1_0000_0000
  }

  function LockText(tenant: string, bot: string, doc: string): string { tenant + "|" + bot + "|" + doc }

  function LockKey(sha256: seq<Byte> -> Digest, tenant: string, bot: string, doc: string)
    : (r: Result<(Int32, Int32), NameError>)
    ensures r.Success? <==> IsSlug(tenant) && IsSlug(bot) && doc != ""
  {
    if !IsSlug(tenant) || !IsSlug(bot) then Failure(InvalidIdentifier)
    else if doc == "" then Failure(EmptyDocId)
    else
      var d := sha256(Encode(LockText(tenant, bot, doc)));
      Success((Int32At(d, 0), Int32At(d, 4)))
  }

  /** The integer loses nothing of its four bytes. */
  lemma Int32Exact(d: Digest, e: Digest, i: nat)
    requires i + 4 <= 32
    ensures Int32At(d, i) == Int32At(e, i) <==> d[i..i + 4] == e[i..i + 4]
  {
    var x, y := d[i..i + 4], e[i..i + 4];
    assert x == [d[i], d[i + 1], d[i + 2], d[i + 3]] && y == [e[i], e[i + 1], e[i + 2], e[i + 3]];
    assert x == y <==> x[0] == y[0] && x[1] == y[1] && x[2] == y[2] && x[3] == y[3];
  }

  /** Big end first, and with a sign. */
  lemma Int32Values(d: Digest)
    ensures d[0..4] == [0x01, 0x02, 0x03, 0x04] ==> Int32At(d, 0) == 0x01020304
    ensures d[4..8] == [0xff, 0xff, 0xff, 0xfe] ==> Int32At(d, 4) == -2
    ensures d[0..4] == [0x80, 0, 0, 0] ==> Int32At(d, 0) == -0x8000_0000
  {
    assert d[0..4] == [d[0], d[1], d[2], d[3]] && d[4..8] == [d[4], d[5], d[6], d[7]];
  }

  /** Two documents share a lock exactly when the first eight bytes of their digests agree. */
  lemma SharedLockKey(sha256: seq<Byte> -> Digest, t: string, b: string, d: string, t': string, b': string, d': string)
    requires LockKey(sha256, t, b, d).Success? && LockKey(sha256, t', b', d').Success?
    ensures LockKey(sha256, t, b, d) == LockKey(sha256, t', b', d') <==>
            sha256(Encode(LockText(t, b, d)))[..8] == sha256(Encode(LockText(t', b', d')))[..8]
  {
    var x, y := sha256(Encode(LockText(t, b, d))), sha256(Encode(LockText(t', b', d')));
    Int32Exact(x, y, 0);
    Int32Exact(x, y, 4);
    assert x[..8] == x[0..4] + x[4..8] && y[..8] == y[0..4] + y[4..8];
  }

  /** What is hashed identifies the document: '|' occurs in no slug, and nothing is lost by the encoding. */
  lemma LockTextInjective(t: string, b: string, d: string, t': string, b': string, d': string)
    requires IsSlug(t) && IsSlug(b) && IsSlug(t') && IsSlug(b')
    requires Encode(LockText(t, b, d)) == Encode(LockText(t', b', d'))
    ensures t == t' && b == b' && d == d'
  {
    EncodeInjective(LockText(t, b, d), LockText(t', b', d'));
    var x, x' := b + "|" + d, b' + "|" + d';
    assert LockText(t, b, d) == t + "|" + x && LockText(t', b', d') == t' + "|" + x';
    FirstBar(t, x, t', x');
    FirstBar(b, d, b', d');
  }

  lemma FirstBar(s: string, x: string, s': string, x': string)
    requires IsSlug(s) && IsSlug(s')
    requires s + "|" + x == s' + "|" + x'
    ensures s == s' && x == x'
  {
    var w, w' := s + "|" + x, s' + "|" + x';
    assert w[|s|] == '|' && w'[|s'|] == '|';
    assert forall k :: 0 <= k < |s| ==> w[k] == s[k] && s[k] in s;
    assert forall k :: 0 <= k < |s'| ==> w'[k] == s'[k] && s'[k] in s';
    assert s == w[..|s|] && s' == w'[..|s'|];
    assert x == w[|s| + 1..] && x' == w'[|s'| + 1..];
  }
}
