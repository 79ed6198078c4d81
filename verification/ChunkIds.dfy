/** Chunk identity: build_chunk_id and the parser that undoes it. */
module ChunkIds {
  import opened Results

  predicate IsDigit(c: char) { '0' <= c <= '9' }

  predicate AllDigits(s: string) { forall i :: 0 <= i < |s| ==> IsDigit(s[i]) }

  /** A Python int in an f-string. */
  function Decimal(n: nat): (r: string)
    ensures r != "" && AllDigits(r)
  {
    var last := ('0' as int + n % 10) as char;
    if n < 10 then [last] else Decimal(n / 10) + [last]
  }

  function Value(s: string): nat
    requires AllDigits(s)
  {
    if s == "" then 0 else 10 * Value(s[..|s| - 1]) + (s[|s| - 1] as int - '0' as int)
  }

  lemma {:induction false} DecimalRoundTrip(n: nat)
    ensures Value(Decimal(n)) == n
  {
    var r := Decimal(n);
    if n < 10 {
      assert r[..|r| - 1] == "";
    } else {
      DecimalRoundTrip(n / 10);
      assert r[..|r| - 1] == Decimal(n / 10);
    }
  }

  function BuildChunkId(doc: string, item: nat, chunk: nat): string {
    doc + "__i" + Decimal(item) + "__c" + Decimal(chunk)
  }

  /** The length of the longest all-digit suffix. */
  function DigitTail(s: string): (k: nat)
    ensures k <= |s| && AllDigits(s[|s| - k..])
  {
    if s == "" || !IsDigit(s[|s| - 1]) then 0
    else
      var k := DigitTail(s[..|s| - 1]);
      assert s[|s| - 1 - k..] == s[..|s| - 1][|s| - 1 - k..] + [s[|s| - 1]];
      k + 1
  }

  lemma {:induction false} DigitTailOf(head: string, digits: string)
    requires head != "" && !IsDigit(head[|head| - 1]) && AllDigits(digits)
    ensures DigitTail(head + digits) == |digits|
  {
    if digits == "" {
      assert head + digits == head;
    } else {
      var shorter := digits[..|digits| - 1];
      DigitTailOf(head, shorter);
      assert (head + digits)[..|head + digits| - 1] == head + shorter;
    }
  }

  /** Removes a numeric suffix and the three-character mark in front of it. */
  function SplitMarked(s: string, mark: string): Option<(string, nat)>
    requires |mark| == 3
  {
    var k := DigitTail(s);
    if k == 0 || |s| - k < 3 || s[|s| - k - 3..|s| - k] != mark then None
    else Some((s[..|s| - k - 3], Value(s[|s| - k..])))
  }

  lemma SplitMarkedOf(head: string, mark: string, n: nat)
    requires |mark| == 3 && !IsDigit(mark[2])
    ensures SplitMarked(head + mark + Decimal(n), mark) == Some((head, n))
  {
    var s, digits := head + mark + Decimal(n), Decimal(n);
    DigitTailOf(head + mark, digits);
    DecimalRoundTrip(n);
    assert s[|s| - |digits|..] == digits;
    assert s[|s| - |digits| - 3..|s| - |digits|] == mark;
    assert s[..|s| - |digits| - 3] == head;
  }

  function ParseChunkId(s: string): Option<(string, nat, nat)> {
    match SplitMarked(s, "__c")
    case None => None
    case Some((front, chunk)) =>
      match SplitMarked(front, "__i")
      case None => None
      case Some((doc, item)) => Some((doc, item, chunk))
  }

  /** Parsing undoes printing, whatever characters the document id holds. */
  lemma ChunkIdRoundTrip(doc: string, item: nat, chunk: nat)
    ensures ParseChunkId(BuildChunkId(doc, item, chunk)) == Some((doc, item, chunk))
  {
    SplitMarkedOf(doc + "__i" + Decimal(item), "__c", chunk);
    SplitMarkedOf(doc, "__i", item);
  }

  /** Equal chunk ids mean the same document, item and chunk. */
  lemma ChunkIdInjective(doc: string, item: nat, chunk: nat, doc': string, item': nat, chunk': nat)
    requires BuildChunkId(doc, item, chunk) == BuildChunkId(doc', item', chunk')
    ensures doc == doc' && item == item' && chunk == chunk'
  {
    ChunkIdRoundTrip(doc, item, chunk);
    ChunkIdRoundTrip(doc', item', chunk');
  }

  /** A chunk id as it is printed. */
  lemma PrintedChunkId()
    ensures BuildChunkId("d", 0, 120) == "d__i0__c120"
  {
    assert Decimal(0) == "0" && Decimal(1) == "1" && Decimal(12) == "12" && Decimal(120) == "120";
  }
}
