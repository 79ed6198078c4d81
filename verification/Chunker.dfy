/**
 * The per-item chunker: a token cap with a shrink loop, and a greedy merge of short pieces.
 * The tokenizer and the text splitter are arbitrary functions.
 */
module Chunker {
  import opened Seqs
  import opened Text

  const MIN_CHUNK_CHARS := 50
  const MAX_CHUNK_TOKENS := 600
  const CHARS_PER_TOKEN := 4

  datatype Chunk = Chunk(text: string, chunkIndex: nat, charCount: nat, tokenCount: nat)

  /** encode: the number of tokens of a non-empty text; split(content, size, overlap): the raw pieces. */
  datatype Tools = Tools(encode: string -> nat, split: (string, nat, nat) -> seq<string>)
  {
    function Count(s: string): nat { if s == "" then 0 else encode(s) }

    predicate Fits(s: string) { Count(s) <= MAX_CHUNK_TOKENS }

    function Keep(raw: string): seq<string> {
      if Truncated(this, raw) == "" then [] else [Truncated(this, raw)]
    }
  }

  /** Target tokens and overlap in percent for a source type. */
  function Config(sourceType: string): (nat, nat) {
    match sourceType
    case "pdf" => (500, 15)
    case "docx" => (500, 15)
    case "url" => (400, 10)
    case "html" => (400, 10)
    case "csv" => (200, 10)
    case "faq" => (200, 10)
    case "image" => (300, 10)
    case "text" => (200, 15)
    case _ => (400, 10)
  }

  // ---- truncation

  function Shrink(s: string): (r: string)
    ensures r <= s && (s != "" ==> |r| < |s|)
    ensures 20 * |r| <= 19 * |s|
  {
    RStrip(s[..19 * |s| / 20])
  }

  function Shrinks(s: string, times: nat): string
    decreases times
  {
    if times == 0 then s else Shrinks(Shrink(s), times - 1)
  }

  /** How often the loop shrinks before the text fits. */
  function ShrinkCount(t: Tools, s: string): nat
    decreases |s|
  {
    if s == "" || t.Fits(s) then 0 else 1 + ShrinkCount(t, Shrink(s))
  }

  /** The first cut: as many characters as the token cap allows at the text's average token length. */
  function FirstCut(t: Tools, text: string): (r: string)
    requires !t.Fits(text)
    ensures r <= text
  {
    var chars := |text| * MAX_CHUNK_TOKENS / t.Count(text);
    CutShortens(|text|, t.Count(text));
    RStrip(text[..chars])
  }

  lemma CutShortens(length: nat, tokens: nat)
    requires tokens > MAX_CHUNK_TOKENS
    ensures 0 <= length * MAX_CHUNK_TOKENS / tokens <= length
    ensures length * MAX_CHUNK_TOKENS / tokens > 0 <==> tokens <= length * MAX_CHUNK_TOKENS
  {
    var total := length * MAX_CHUNK_TOKENS;
    var q := total / tokens;
    assert tokens * q + total % tokens == total;
    MulMono(length, MAX_CHUNK_TOKENS, tokens);
    MulCancel(tokens, q, length);
    if q > 0 {
      MulMono(tokens, 1, q);
    }
  }

  lemma MulMono(a: nat, x: int, y: int)
    requires x <= y
    ensures a * x <= a * y
  {}

  lemma MulCancel(a: nat, x: int, y: int)
    requires a > 0 && a * x <= a * y
    ensures x <= y
  {
    if x > y {
      MulMono(a, y + 1, x);
    }
  }

  function Truncated(t: Tools, text: string): string {
    if t.Fits(text) then text
    else var cut := FirstCut(t, text); Shrinks(cut, ShrinkCount(t, cut))
  }

  method Truncate(t: Tools, text: string) returns (truncated: string)
    ensures truncated == Truncated(t, text)
  {
    if text == "" {
      return text;
    }
    var n := t.Count(text);
    if n <= MAX_CHUNK_TOKENS {
      return text;
    }
    CutShortens(|text|, n);
    var targetChars := |text| * MAX_CHUNK_TOKENS / n;
    truncated := RStrip(text[..targetChars]);
    while t.Count(truncated) > MAX_CHUNK_TOKENS && truncated != ""
      invariant Shrinks(truncated, ShrinkCount(t, truncated)) == Truncated(t, text)
      decreases |truncated|
    {
      truncated := RStrip(truncated[..19 * |truncated| / 20]);
    }
  }

  /** A chain of cuts: each a prefix of the one before, j of them at most 0.95^j of the start. */
  lemma {:induction false} ShrinksPrefix(s: string, times: nat)
    ensures Shrinks(s, times) <= s
    ensures Power(20, times) * |Shrinks(s, times)| <= Power(19, times) * |s|
    decreases times
  {
    if times > 0 {
      ShrinksPrefix(Shrink(s), times - 1);
      Scale(Power(20, times - 1), Power(19, times - 1), |Shrinks(s, times)|, |Shrink(s)|, |s|);
    }
  }

  function Power(b: nat, e: nat): nat { if e == 0 then 1 else b * Power(b, e - 1) }

  lemma Scale(p: nat, q: nat, last: nat, r: nat, s: nat)
    requires p * last <= q * r && 20 * r <= 19 * s
    ensures (20 * p) * last <= (19 * q) * s
  {
    MulMono(q, 20 * r, 19 * s);
  }

  /** The loop stops at the first cut that fits, and not earlier. */
  lemma {:induction false} ShrinkCountLeast(t: Tools, s: string)
    ensures t.Fits(Shrinks(s, ShrinkCount(t, s)))
    ensures forall j :: 0 <= j < ShrinkCount(t, s) ==> !t.Fits(Shrinks(s, j))
    decreases |s|
  {
    if s != "" && !t.Fits(s) {
      ShrinkCountLeast(t, Shrink(s));
      forall j | 0 <= j < ShrinkCount(t, s)
        ensures !t.Fits(Shrinks(s, j))
      {
        if j > 0 {
          assert Shrinks(s, j) == Shrinks(Shrink(s), j - 1);
        }
      }
    }
  }

  /** For every tokenizer: a prefix of the text, within the cap, and untouched when the text fits already. */
  lemma TruncatedFits(t: Tools, text: string)
    ensures t.Fits(Truncated(t, text)) && Truncated(t, text) <= text
    ensures t.Fits(text) ==> Truncated(t, text) == text
  {
    if !t.Fits(text) {
      var cut := FirstCut(t, text);
      ShrinkCountLeast(t, cut);
      ShrinksPrefix(cut, ShrinkCount(t, cut));
    }
  }

  // ---- truncation, said without its functions

  /** What stays of the first cut characters: all but the whitespace at their end. */
  ghost predicate TrimmedAt(text: string, cut: int, end: int) {
    && 0 <= end <= cut <= |text|
    && (end > 0 ==> !IsSpace(text[end - 1]))
    && forall i :: end <= i < cut ==> IsSpace(text[i])
  }

  lemma TrimmedOnce(text: string, cut: int, a: int, b: int)
    requires TrimmedAt(text, cut, a) && TrimmedAt(text, cut, b)
    ensures a == b
  {}

  /** Cutting goes on from end, by 5 percent at a time, until 600 tokens suffice, and then ends at last. */
  ghost predicate CutFrom(t: Tools, text: string, end: nat, last: nat)
    requires end <= |text|
    decreases end
  {
    if t.Count(text[..end]) <= 600 then last == end
    else exists next: nat :: next < end && TrimmedAt(text, 19 * end / 20, next) && CutFrom(t, text, next, last)
  }

  lemma {:induction false} ShrinksFrom(t: Tools, text: string, end: nat) returns (last: nat)
    requires end <= |text|
    ensures last <= end && CutFrom(t, text, end, last)
    ensures Shrinks(text[..end], ShrinkCount(t, text[..end])) == text[..last]
    decreases end
  {
    if end == 0 || t.Fits(text[..end]) {
      last := end;
    } else {
      var next := ShrunkEnd(text, end);
      last := ShrinksFrom(t, text, next);
    }
  }

  lemma ShrunkEnd(text: string, end: nat) returns (next: nat)
    requires 0 < end <= |text|
    ensures next < end && Shrink(text[..end]) == text[..next] && TrimmedAt(text, 19 * end / 20, next)
  {
    var kept := 19 * end / 20;
    assert text[..end][..kept] == text[..kept];
    next := TrimmedEnd(text, kept);
  }

  lemma TrimmedEnd(text: string, cut: nat) returns (end: nat)
    requires cut <= |text|
    ensures end <= cut && RStrip(text[..cut]) == text[..end] && TrimmedAt(text, cut, end)
  {
    var r := RStrip(text[..cut]);
    end := |r|;
    assert r == text[..end];
    forall i | end <= i < cut
      ensures IsSpace(text[i])
    {
      assert text[..cut][i] == text[i];
    }
    assert end > 0 ==> r[end - 1] == text[end - 1];
  }

  /**
   * How much truncation keeps: a text of at most 600 tokens stays whole. Of a longer one, what 600 tokens allow at its
   * average is kept but for whitespace at its end, and as long as that takes more than 600 tokens 95 percent of it are,
   * again but for whitespace.
   */
  ghost predicate TruncatesTo(t: Tools, text: string, r: string) {
    if t.Count(text) <= 600 then r == text else CutsTo(t, text, 600 * |text| / t.Count(text), r)
  }

  ghost predicate CutsTo(t: Tools, text: string, cut: int, r: string) {
    exists first: nat, last: nat ::
      && first <= |text| && TrimmedAt(text, cut, first) && CutFrom(t, text, first, last)
      && last <= first && r == text[..last]
  }

  lemma TruncatedKeeps(t: Tools, text: string)
    ensures TruncatesTo(t, text, Truncated(t, text))
  {
    if t.Count(text) > 600 {
      CutShortens(|text|, t.Count(text));
      var cut := |text| * MAX_CHUNK_TOKENS / t.Count(text);
      var first := TrimmedEnd(text, cut);
      var last := ShrinksFrom(t, text, first);
      assert CutsTo(t, text, cut, Truncated(t, text));
    }
  }

  lemma {:induction false} CutFromOnce(t: Tools, text: string, end: nat, a: nat, b: nat)
    requires end <= |text| && CutFrom(t, text, end, a) && CutFrom(t, text, end, b)
    ensures a == b
    decreases end
  {
    if t.Count(text[..end]) > 600 {
      var x: nat :| x < end && TrimmedAt(text, 19 * end / 20, x) && CutFrom(t, text, x, a);
      var y: nat :| y < end && TrimmedAt(text, 19 * end / 20, y) && CutFrom(t, text, y, b);
      TrimmedOnce(text, 19 * end / 20, x, y);
      CutFromOnce(t, text, x, a, b);
    }
  }

  lemma CutsOnce(t: Tools, text: string, cut: int, r: string, r': string)
    requires CutsTo(t, text, cut, r) && CutsTo(t, text, cut, r')
    ensures r == r'
  {
    var f: nat, l: nat :| f <= |text| && TrimmedAt(text, cut, f) && CutFrom(t, text, f, l) && l <= f && r == text[..l];
    var g: nat, m: nat :| g <= |text| && TrimmedAt(text, cut, g) && CutFrom(t, text, g, m) && m <= g && r' == text[..m];
    TrimmedOnce(text, cut, f, g);
    CutFromOnce(t, text, f, l, m);
  }

  /** This determines the result. */
  lemma TruncatesOnce(t: Tools, text: string, r: string, r': string)
    requires TruncatesTo(t, text, r) && TruncatesTo(t, text, r')
    ensures r == r'
  {
    if t.Count(text) > 600 {
      CutsOnce(t, text, 600 * |text| / t.Count(text), r, r');
    }
  }

  /** When the first cut fits, the result is that cut, and without whitespace in the text it has all its characters. */
  lemma FirstCutKept(t: Tools, text: string, first: nat)
    requires t.Count(text) > 600 && TrimmedAt(text, 600 * |text| / t.Count(text), first)
    requires t.Count(text[..first]) <= 600
    ensures Truncated(t, text) == text[..first]
    ensures (forall i :: 0 <= i < |text| ==> !IsSpace(text[i])) ==> |Truncated(t, text)| == 600 * |text| / t.Count(text)
  {
    TruncatedKeeps(t, text);
    assert CutsTo(t, text, 600 * |text| / t.Count(text), text[..first]);
    TruncatesOnce(t, text, Truncated(t, text), text[..first]);
  }

  /**
   * When something is left of a stripped text: the one-character prefix must fit, and then truncation is
   * empty exactly for texts of more than 600 tokens per character.
   */
  lemma TruncatedVisible(t: Tools, text: string)
    requires text != "" && !IsSpace(text[0]) && t.Fits(text[..1])
    ensures Truncated(t, text) != "" <==> t.Count(text) <= MAX_CHUNK_TOKENS * |text|
    ensures Truncated(t, text) != "" ==> Truncated(t, text)[0] == text[0]
  {
    TruncatedFits(t, text);
    if !t.Fits(text) {
      CutShortens(|text|, t.Count(text));
      var chars := |text| * MAX_CHUNK_TOKENS / t.Count(text);
      var cut := FirstCut(t, text);
      if chars > 0 {
        assert text[..chars][0] == text[0];
        assert cut != "" && cut[..1] == text[..1];
        ShrinksVisible(t, cut);
      } else {
        assert cut == "" && ShrinkCount(t, cut) == 0;
      }
    }
  }

  lemma {:induction false} ShrinksVisible(t: Tools, s: string)
    requires s != "" && !IsSpace(s[0]) && t.Fits(s[..1])
    ensures Shrinks(s, ShrinkCount(t, s)) != ""
    decreases |s|
  {
    if !t.Fits(s) {
      assert s[..1] != s;
      var kept := 19 * |s| / 20;
      assert s[..kept][0] == s[0];
      assert Shrink(s)[..1] == s[..1];
      ShrinksVisible(t, Shrink(s));
    }
  }

  // ---- greedy merge

  /** " ".join(group). */
  function Join(group: seq<string>): string {
    if group == [] then ""
    else if |group| == 1 then group[0]
    else Join(group[..|group| - 1]) + " " + group[|group| - 1]
  }

  /** A piece goes into the group before it when it is short and the merged text fits. */
  predicate Absorbs(t: Tools, group: seq<string>, piece: string) {
    |piece| < MIN_CHUNK_CHARS && t.Fits(Join(group + [piece]))
  }

  function Extend(t: Tools, groups: seq<seq<string>>, piece: string): seq<seq<string>> {
    var n := |groups|;
    if n > 0 && Absorbs(t, groups[n - 1], piece) then groups[n - 1 := groups[n - 1] + [piece]]
    else groups + [[piece]]
  }

  function Groups(t: Tools, pieces: seq<string>): seq<seq<string>> {
    if pieces == [] then []
    else Extend(t, Groups(t, pieces[..|pieces| - 1]), pieces[|pieces| - 1])
  }

  function Self(group: seq<string>): seq<string> { group }

  ghost predicate Grown(t: Tools, group: seq<string>) {
    && group != []
    && forall j :: 1 <= j < |group| ==> Absorbs(t, group[..j], group[j])
  }

  ghost predicate Apart(t: Tools, group: seq<string>, next: seq<string>) {
    next != [] && !Absorbs(t, group, next[0])
  }

  /** What a greedy grouping is, without reference to how it is computed. */
  ghost predicate Greedy(t: Tools, pieces: seq<string>, groups: seq<seq<string>>) {
    && FlatMap(Self, groups) == pieces
    && (forall i :: 0 <= i < |groups| ==> Grown(t, groups[i]))
    && (forall i :: 1 <= i < |groups| ==> Apart(t, groups[i - 1], groups[i]))
  }

  lemma GrowOne(t: Tools, group: seq<string>, piece: string)
    requires group != []
    ensures Grown(t, group + [piece]) <==> Grown(t, group) && Absorbs(t, group, piece)
  {
    var g := group + [piece];
    assert g[..|group|] == group && g[|group|] == piece;
    assert forall j {:trigger g[..j]} {:trigger group[..j]} :: 1 <= j < |group| ==> g[..j] == group[..j];
  }

  /** Absorbing a piece into the last group, or opening a group for it, keeps the grouping greedy. */
  lemma ExtendGreedy(t: Tools, pieces: seq<string>, groups: seq<seq<string>>, piece: string)
    requires Greedy(t, pieces, groups)
    ensures Greedy(t, pieces + [piece], Extend(t, groups, piece))
  {
    var n, longer := |groups|, Extend(t, groups, piece);
    if n > 0 && Absorbs(t, groups[n - 1], piece) {
      var front, last := groups[..n - 1], groups[n - 1];
      assert groups == front + [last] && longer == front + [last + [piece]];
      FlattenLast(front, last);
      FlattenLast(front, last + [piece]);
      GrowOne(t, last, piece);
    } else {
      FlattenLast(groups, [piece]);
    }
  }

  /** The groups partition the pieces in order, only short pieces are merged, and no merge is missed. */
  lemma {:induction false} GroupsGreedy(t: Tools, pieces: seq<string>)
    ensures Greedy(t, pieces, Groups(t, pieces))
  {
    if pieces != [] {
      var before, piece := pieces[..|pieces| - 1], pieces[|pieces| - 1];
      GroupsGreedy(t, before);
      ExtendGreedy(t, before, Groups(t, before), piece);
      assert pieces == before + [piece];
    }
  }

  lemma FlattenLast(groups: seq<seq<string>>, last: seq<string>)
    ensures FlatMap(Self, groups + [last]) == FlatMap(Self, groups) + last
  {
    FlatMapConcat(Self, groups, [last]);
    FlatMapOne(Self, last);
  }

  /** Every greedy grouping extends a greedy grouping of all pieces but the last. */
  lemma GreedyPeel(t: Tools, pieces: seq<string>, groups: seq<seq<string>>) returns (shorter: seq<seq<string>>)
    requires Greedy(t, pieces, groups) && groups != []
    ensures pieces != [] && Greedy(t, pieces[..|pieces| - 1], shorter)
    ensures groups == Extend(t, shorter, pieces[|pieces| - 1])
  {
    var front, last := groups[..|groups| - 1], groups[|groups| - 1];
    assert Grown(t, last);
    var rest, piece := last[..|last| - 1], last[|last| - 1];
    assert last == rest + [piece];
    PiecesEnd(groups, front, rest, piece);
    if rest == [] {
      shorter := front;
      PeelSingle(t, groups, front, piece);
      assert FlatMap(Self, front) + rest == FlatMap(Self, front);
    } else {
      shorter := front + [rest];
      PeelGrown(t, groups, front, rest, piece);
    }
  }

  lemma PiecesEnd(groups: seq<seq<string>>, front: seq<seq<string>>, rest: seq<string>, piece: string)
    requires groups != [] && front == groups[..|groups| - 1] && groups[|groups| - 1] == rest + [piece]
    ensures groups == front + [rest + [piece]]
    ensures var pieces := FlatMap(Self, groups);
            pieces != [] && pieces[..|pieces| - 1] == FlatMap(Self, front) + rest && pieces[|pieces| - 1] == piece
  {
    assert groups == front + [rest + [piece]];
    FlattenLast(front, rest + [piece]);
    assert FlatMap(Self, groups) == FlatMap(Self, front) + rest + [piece];
  }

  lemma PeelSingle(t: Tools, groups: seq<seq<string>>, front: seq<seq<string>>, piece: string)
    requires groups == front + [[piece]] && Greedy(t, FlatMap(Self, groups), groups)
    ensures Greedy(t, FlatMap(Self, front), front) && groups == Extend(t, front, piece)
  {
    var n := |front|;
    assert n > 0 ==> Apart(t, groups[n - 1], groups[n]);
    forall i | 0 <= i < n
      ensures Grown(t, front[i])
    {
      assert Grown(t, groups[i]);
    }
    forall i | 1 <= i < n
      ensures Apart(t, front[i - 1], front[i])
    {
      assert Apart(t, groups[i - 1], groups[i]);
    }
  }

  lemma PeelGrown(t: Tools, groups: seq<seq<string>>, front: seq<seq<string>>, rest: seq<string>, piece: string)
    requires rest != [] && groups == front + [rest + [piece]] && Greedy(t, FlatMap(Self, groups), groups)
    ensures Greedy(t, FlatMap(Self, front) + rest, front + [rest])
    ensures groups == Extend(t, front + [rest], piece)
  {
    FlattenLast(front, rest);
    assert Grown(t, groups[|front|]);
    GrowOne(t, rest, piece);
    LastShortened(t, groups, front, rest, piece);
  }

  /** Dropping the last piece of the last group leaves the groups grown and apart. */
  lemma LastShortened(t: Tools, groups: seq<seq<string>>, front: seq<seq<string>>, rest: seq<string>, piece: string)
    requires groups == front + [rest + [piece]] && rest != [] && Grown(t, rest)
    requires forall i :: 0 <= i < |groups| ==> Grown(t, groups[i])
    requires forall i :: 1 <= i < |groups| ==> Apart(t, groups[i - 1], groups[i])
    ensures var shorter := front + [rest];
            && (forall i :: 0 <= i < |shorter| ==> Grown(t, shorter[i]))
            && (forall i :: 1 <= i < |shorter| ==> Apart(t, shorter[i - 1], shorter[i]))
  {
    var shorter := front + [rest];
    forall i | 1 <= i < |shorter|
      ensures Apart(t, shorter[i - 1], shorter[i])
    {
      assert Apart(t, groups[i - 1], groups[i]);
      assert shorter[i][0] == groups[i][0];
    }
    forall i | 0 <= i < |shorter|
      ensures Grown(t, shorter[i])
    {
      assert Grown(t, groups[i]);
    }
  }

  /** There is no other greedy grouping. */
  lemma {:induction false} GreedyUnique(t: Tools, pieces: seq<string>, groups: seq<seq<string>>)
    requires Greedy(t, pieces, groups)
    ensures groups == Groups(t, pieces)
    decreases |pieces|
  {
    if groups != [] {
      var shorter := GreedyPeel(t, pieces, groups);
      GreedyUnique(t, pieces[..|pieces| - 1], shorter);
    }
  }

  // ---- chunk_item

  function MakeChunk(t: Tools, text: string, index: nat): Chunk {
    Chunk(text, index, |text|, t.Count(text))
  }

  function StripOne(raw: string): seq<string> { if Strip(raw) == "" then [] else [Strip(raw)] }

  /** The raw pieces of an item: split, stripped, blanks dropped. */
  function RawPieces(t: Tools, content: string, sourceType: string): seq<string> {
    FlatMap(StripOne, RawSplit(t, content, sourceType))
  }

  function RawSplit(t: Tools, content: string, sourceType: string): seq<string> {
    var (size, percent) := Config(sourceType);
    t.split(content, size * CHARS_PER_TOKEN, size * percent / 100 * CHARS_PER_TOKEN)
  }

  /** The truncated pieces that survive. */
  function Kept(t: Tools, raws: seq<string>): seq<string> { FlatMap(t.Keep, raws) }

  function GroupChunks(t: Tools, groups: seq<seq<string>>): (r: seq<Chunk>)
    ensures |r| == |groups|
    ensures forall k :: 0 <= k < |r| ==> r[k] == MakeChunk(t, Join(groups[k]), k)
  {
    seq(|groups|, k requires 0 <= k < |groups| => MakeChunk(t, Join(groups[k]), k))
  }

  /** The chunks of one item. When no piece survives, the whole stripped content is truncated instead. */
  function Chunks(t: Tools, content: string, sourceType: string): seq<Chunk> {
    if Strip(content) == "" then [] else ChunksFrom(t, Strip(content), RawPieces(t, content, sourceType))
  }

  function ChunksFrom(t: Tools, stripped: string, raws: seq<string>): seq<Chunk> {
    var groups := Groups(t, Kept(t, raws));
    if groups == [] then [MakeChunk(t, Truncated(t, stripped), 0)] else GroupChunks(t, groups)
  }

  method ChunkItem(t: Tools, content: string, sourceType: string) returns (chunks: seq<Chunk>)
    ensures chunks == Chunks(t, content, sourceType)
  {
    if content == "" || Strip(content) == "" {
      return [];
    }
    chunks := MergePieces(t, RawPieces(t, content, sourceType));
    if |chunks| == 0 {
      var text := Truncate(t, Strip(content));
      chunks := chunks + [Chunk(text, 0, |text|, t.Count(text))];
    }
  }

  /** The loop of chunk_item. */
  method MergePieces(t: Tools, raws: seq<string>) returns (chunks: seq<Chunk>)
    ensures chunks == GroupChunks(t, Groups(t, Kept(t, raws)))
  {
    chunks := [];
    for i := 0 to |raws|
      invariant chunks == Merged(t, raws, i)
    {
      MergedStep(t, raws, i);
      var text := Truncate(t, raws[i]);
      if text == "" {
        continue;
      }
      chunks := AddText(t, chunks, text);
    }
    assert raws[..|raws|] == raws;
  }

  /** One more text: the last chunk is overwritten or a new one is appended. */
  method AddText(t: Tools, chunks: seq<Chunk>, text: string) returns (next: seq<Chunk>)
    ensures next == Append(t, chunks, text)
  {
    var tokens := t.Count(text);
    if |text| < MIN_CHUNK_CHARS && |chunks| > 0 {
      var prev := chunks[|chunks| - 1];
      var merged := prev.text + " " + text;
      var mergedTokens := t.Count(merged);
      if mergedTokens <= MAX_CHUNK_TOKENS {
        return chunks[|chunks| - 1 := Chunk(merged, prev.chunkIndex, |merged|, mergedTokens)];
      }
    }
    next := chunks + [Chunk(text, |chunks|, |text|, tokens)];
  }

  /** The chunks after the first i raw pieces. */
  function Merged(t: Tools, raws: seq<string>, i: nat): seq<Chunk>
    requires i <= |raws|
  {
    GroupChunks(t, Groups(t, Kept(t, raws[..i])))
  }

  lemma MergedStep(t: Tools, raws: seq<string>, i: nat)
    requires i < |raws|
    ensures var chunks, next, text := Merged(t, raws, i), Merged(t, raws, i + 1), Truncated(t, raws[i]);
            next == if text == "" then chunks else Append(t, chunks, text)
  {
    var kept, text := Kept(t, raws[..i]), Truncated(t, raws[i]);
    assert Kept(t, raws[..i + 1]) == kept + t.Keep(raws[i]) by {
      assert raws[..i + 1] == raws[..i] + [raws[i]];
      FlatMapConcat(t.Keep, raws[..i], [raws[i]]);
      FlatMapOne(t.Keep, raws[i]);
    }
    if text != "" {
      GroupsStep(t, kept, text);
    } else {
      assert kept + [] == kept;
    }
  }

  /** One more text, seen on the chunks: the last one is overwritten or a new one is appended. */
  function Append(t: Tools, chunks: seq<Chunk>, text: string): seq<Chunk> {
    var n := |chunks|;
    if n > 0 && |text| < MIN_CHUNK_CHARS && t.Fits(chunks[n - 1].text + " " + text)
    then chunks[n - 1 := MakeChunk(t, chunks[n - 1].text + " " + text, chunks[n - 1].chunkIndex)]
    else chunks + [MakeChunk(t, text, n)]
  }

  lemma {:induction false} GroupsStep(t: Tools, kept: seq<string>, text: string)
    ensures GroupChunks(t, Groups(t, kept + [text])) == Append(t, GroupChunks(t, Groups(t, kept)), text)
  {
    assert (kept + [text])[..|kept|] == kept;
    LastGroup(t, kept);
    ExtendChunks(t, Groups(t, kept), text);
  }

  lemma ExtendChunks(t: Tools, groups: seq<seq<string>>, text: string)
    requires groups != [] ==> groups[|groups| - 1] != []
    ensures GroupChunks(t, Extend(t, groups, text)) == Append(t, GroupChunks(t, groups), text)
  {
    if groups != [] {
      JoinLast(groups[|groups| - 1], text);
    }
    assert Join([text]) == text;
  }

  lemma JoinLast(group: seq<string>, text: string)
    requires group != []
    ensures Join(group + [text]) == Join(group) + " " + text
  {
    assert (group + [text])[..|group|] == group;
  }

  lemma LastGroup(t: Tools, kept: seq<string>)
    ensures Groups(t, kept) != [] ==> Groups(t, kept)[|Groups(t, kept)| - 1] != []
  {
    GroupsGreedy(t, kept);
    if Groups(t, kept) != [] {
      assert Grown(t, Groups(t, kept)[|Groups(t, kept)| - 1]);
    }
  }

  // ---- what every list of chunks satisfies

  /** Index, character count and token count tell the truth, and no chunk exceeds the cap. */
  ghost predicate Described(t: Tools, chunks: seq<Chunk>) {
    forall k :: 0 <= k < |chunks| ==>
      && chunks[k].chunkIndex == k && chunks[k].charCount == |chunks[k].text|
      && chunks[k].tokenCount == t.Count(chunks[k].text) <= MAX_CHUNK_TOKENS
  }

  lemma ChunksDescribed(t: Tools, content: string, sourceType: string)
    ensures Described(t, Chunks(t, content, sourceType))
  {
    ChunksFromDescribed(t, Strip(content), RawPieces(t, content, sourceType));
  }

  lemma ChunksFromDescribed(t: Tools, stripped: string, raws: seq<string>)
    ensures Described(t, ChunksFrom(t, stripped, raws))
  {
    TruncatedFits(t, stripped);
    forall k | 0 <= k < |Groups(t, Kept(t, raws))|
      ensures t.Fits(Join(Groups(t, Kept(t, raws))[k]))
    {
      GroupFits(t, raws, k);
    }
  }

  /** The first piece of a group is the non-empty truncation of some raw piece. */
  lemma GroupHead(t: Tools, raws: seq<string>, k: nat) returns (raw: string)
    requires k < |Groups(t, Kept(t, raws))|
    ensures Grown(t, Groups(t, Kept(t, raws))[k])
    ensures raw in raws && Groups(t, Kept(t, raws))[k][0] == Truncated(t, raw) != ""
  {
    var kept := Kept(t, raws);
    var groups := Groups(t, kept);
    GroupsGreedy(t, kept);
    assert Grown(t, groups[k]);
    FlatMapMember(Self, groups, groups[k], groups[k][0]);
    raw := FlatMapSource(t.Keep, raws, groups[k][0]);
  }

  lemma {:induction false} GroupFits(t: Tools, raws: seq<string>, k: nat)
    requires k < |Groups(t, Kept(t, raws))|
    ensures t.Fits(Join(Groups(t, Kept(t, raws))[k]))
  {
    var g := Groups(t, Kept(t, raws))[k];
    var raw := GroupHead(t, raws, k);
    TruncatedFits(t, raw);
    if |g| > 1 {
      assert Absorbs(t, g[..|g| - 1], g[|g| - 1]);
      assert g[..|g| - 1] + [g[|g| - 1]] == g;
    }
  }

  /**
   * When a piece survives truncation, the chunk texts are the space-joins of the one greedy grouping of the
   * surviving pieces: in order, none lost, a piece under 50 characters merged whenever the result fits.
   */
  lemma ChunksAreGreedyGroups(t: Tools, content: string, sourceType: string, groups: seq<seq<string>>)
    ensures var chunks, kept := Chunks(t, content, sourceType), Kept(t, RawPieces(t, content, sourceType));
            Strip(content) != "" && kept != [] && Greedy(t, kept, groups) ==>
              |chunks| == |groups| && forall k :: 0 <= k < |chunks| ==> chunks[k].text == Join(groups[k])
  {
    var raws := RawPieces(t, content, sourceType);
    if Kept(t, raws) != [] && Greedy(t, Kept(t, raws), groups) {
      GroupsOf(t, Strip(content), raws, groups);
    }
  }

  lemma GroupsOf(t: Tools, stripped: string, raws: seq<string>, groups: seq<seq<string>>)
    requires Kept(t, raws) != [] && Greedy(t, Kept(t, raws), groups)
    ensures var chunks := ChunksFrom(t, stripped, raws);
            |chunks| == |groups| && forall k :: 0 <= k < |chunks| ==> chunks[k].text == Join(groups[k])
  {
    GreedyUnique(t, Kept(t, raws), groups);
    assert groups != [];
  }

  /** No text takes more than 600 tokens a character. */
  ghost predicate Reasonable(t: Tools) { forall s :: t.Count(s) <= MAX_CHUNK_TOKENS * |s| }

  /** With a reasonable tokenizer no chunk is blank, so embed_passages accepts every text it is given. */
  lemma ChunksVisible(t: Tools, content: string, sourceType: string)
    requires Reasonable(t)
    ensures AllVisible(Chunks(t, content, sourceType))
  {
    RawPiecesVisible(t, content, sourceType);
    if Strip(content) != "" {
      ChunksFromVisible(t, Strip(content), RawPieces(t, content, sourceType));
    }
  }

  lemma ChunksFromVisible(t: Tools, stripped: string, raws: seq<string>)
    requires Reasonable(t) && forall raw :: raw in raws ==> Shows(raw)
    requires Shows(stripped)
    ensures AllVisible(ChunksFrom(t, stripped, raws))
  {
    var groups := Groups(t, Kept(t, raws));
    TruncatedVisibleStart(t, stripped);
    forall k | 0 <= k < |groups|
      ensures Shows(Join(groups[k]))
    {
      GroupVisible(t, raws, k);
    }
    FromVisible(t, groups, Truncated(t, stripped));
  }

  ghost predicate AllVisible(chunks: seq<Chunk>) { forall k :: 0 <= k < |chunks| ==> !Blank(chunks[k].text) }

  predicate Shows(s: string) { s != "" && !IsSpace(s[0]) }

  lemma FromVisible(t: Tools, groups: seq<seq<string>>, only: string)
    requires Shows(only) && forall k :: 0 <= k < |groups| ==> Shows(Join(groups[k]))
    ensures AllVisible(if groups == [] then [MakeChunk(t, only, 0)] else GroupChunks(t, groups))
  {
  }

  lemma GroupVisible(t: Tools, raws: seq<string>, k: nat)
    requires Reasonable(t) && forall raw :: raw in raws ==> Shows(raw)
    requires k < |Groups(t, Kept(t, raws))|
    ensures Shows(Join(Groups(t, Kept(t, raws))[k]))
  {
    var raw := GroupHead(t, raws, k);
    TruncatedVisibleStart(t, raw);
    JoinStart(Groups(t, Kept(t, raws))[k]);
  }

  lemma TruncatedVisibleStart(t: Tools, text: string)
    requires Reasonable(t) && Shows(text)
    ensures Truncated(t, text) != "" && Truncated(t, text)[0] == text[0]
  {
    assert t.Count(text[..1]) <= MAX_CHUNK_TOKENS * 1;
    assert t.Count(text) <= MAX_CHUNK_TOKENS * |text|;
    TruncatedVisible(t, text);
  }

  lemma RawPiecesVisible(t: Tools, content: string, sourceType: string)
    ensures forall raw :: raw in RawPieces(t, content, sourceType) ==> Shows(raw)
  {
    var split := RawSplit(t, content, sourceType);
    forall raw | raw in FlatMap(StripOne, split)
      ensures Shows(raw)
    {
      var piece := FlatMapSource(StripOne, split, raw);
    }
  }

  lemma {:induction false} JoinStart(g: seq<string>)
    requires g != [] && g[0] != ""
    ensures Join(g) != "" && Join(g)[0] == g[0][0]
  {
    if |g| > 1 {
      JoinStart(g[..|g| - 1]);
    }
  }

  // ---- chunks as parts of the content

  /** The splitter returns parts of what it splits. */
  ghost predicate Splits(t: Tools) {
    forall content, size, overlap, raw :: raw in t.split(content, size, overlap) ==> Contains(content, raw)
  }

  /**
   * A chunk is a part of the content when it is the whole of a surviving piece, or of the truncated content: merging
   * is what takes a chunk out of the content.
   */
  lemma UnmergedContained(t: Tools, content: string, sourceType: string, k: nat)
    requires Splits(t)
    ensures var chunks, groups := Chunks(t, content, sourceType), Groups(t, Kept(t, RawPieces(t, content, sourceType)));
            k < |chunks| && (k < |groups| ==> |groups[k]| == 1) ==> Contains(content, chunks[k].text)
  {
    var raws := RawPieces(t, content, sourceType);
    var groups := Groups(t, Kept(t, raws));
    TruncatedContained(t, content);
    if k < |groups| && |groups[k]| == 1 {
      var raw := GroupHead(t, raws, k);
      RawContained(t, content, sourceType, raw);
      TruncatedPiece(t, content, raw);
    }
    if k < |ChunksFrom(t, Strip(content), raws)| {
      ChunkText(t, Strip(content), raws, k);
    }
  }

  lemma ChunkText(t: Tools, stripped: string, raws: seq<string>, k: nat)
    requires k < |ChunksFrom(t, stripped, raws)|
    ensures var groups := Groups(t, Kept(t, raws));
            ChunksFrom(t, stripped, raws)[k].text ==
              if groups == [] then Truncated(t, stripped) else Join(groups[k])
  {}

  lemma TruncatedPiece(t: Tools, content: string, raw: string)
    requires Contains(content, raw)
    ensures Contains(content, Truncated(t, raw))
  {
    TruncatedFits(t, raw);
    PrefixContained(content, raw, Truncated(t, raw));
  }

  lemma TruncatedContained(t: Tools, content: string)
    ensures Contains(content, Truncated(t, Strip(content)))
  {
    StripContained(content);
    TruncatedPiece(t, content, Strip(content));
  }

  lemma RawContained(t: Tools, content: string, sourceType: string, raw: string)
    requires Splits(t)
    ensures raw in RawPieces(t, content, sourceType) ==> Contains(content, raw)
  {
    var split := RawSplit(t, content, sourceType);
    if raw in FlatMap(StripOne, split) {
      var piece := FlatMapSource(StripOne, split, raw);
      SplitContained(t, content, sourceType, piece);
      StripOneContained(piece, raw);
      ContainedTwice(content, piece, raw);
    }
  }

  lemma SplitContained(t: Tools, content: string, sourceType: string, piece: string)
    requires Splits(t) && piece in RawSplit(t, content, sourceType)
    ensures Contains(content, piece)
  {}

  lemma StripOneContained(piece: string, raw: string)
    requires raw in StripOne(piece)
    ensures Contains(piece, raw)
  {
    StripContained(piece);
  }

  lemma ContainedTwice(s: string, part: string, piece: string)
    requires Contains(s, part) && Contains(part, piece)
    ensures Contains(s, piece)
  {
    var i: nat :| i <= |s| && part <= s[i..];
    var j: nat :| j <= |part| && piece <= part[j..];
    assert piece <= s[i + j..];
  }

  lemma PrefixContained(s: string, part: string, prefix: string)
    requires Contains(s, part) && prefix <= part
    ensures Contains(s, prefix)
  {
    assert prefix <= part[0..];
    ContainedTwice(s, part, prefix);
  }

  lemma StripContained(s: string)
    ensures Contains(s, Strip(s))
  {
    assert Strip(s) <= s[|s| - |LStrip(s)|..];
  }

  /** A splitter that cuts one text at its empty line. */
  function Cut(content: string, size: nat, overlap: nat): seq<string> {
    if content == "x\n\ny" then ["x", "y"] else [content]
  }

  /** The merged chunk of two short pieces, joined with a space, occurs nowhere in the content. */
  lemma MergedNotContained(t: Tools)
    requires t.split == Cut && forall s :: t.Count(s) == 0
    ensures Splits(t) && !Contains("x\n\ny", "x y")
    ensures Chunks(t, "x\n\ny", "text") == [Chunk("x y", 0, 3, 0)]
  {
    CutContained(t);
    NotThere();
    CutVisible();
    PairMap(StripOne, "x", "y");
    ChunksOf(t, "x\n\ny", "text", ["x", "y"]);
    CutChunks(t, Strip("x\n\ny"), ["x", "y"]);
  }

  lemma ChunksOf(t: Tools, content: string, sourceType: string, raws: seq<string>)
    requires Strip(content) != "" && FlatMap(StripOne, RawSplit(t, content, sourceType)) == raws
    ensures Chunks(t, content, sourceType) == ChunksFrom(t, Strip(content), raws)
  {}

  lemma CutContained(t: Tools)
    requires t.split == Cut
    ensures Splits(t)
  {
    forall c, size, overlap, raw | raw in t.split(c, size, overlap)
      ensures Contains(c, raw)
    {
      assert raw <= c[0..] || raw <= c[3..];
    }
  }

  lemma CutVisible()
    ensures Strip("x\n\ny") != "" && StripOne("x") == ["x"] && StripOne("y") == ["y"]
  {
    assert LStrip("x\n\ny") == "x\n\ny";
    assert Strip("x") == "x" && Strip("y") == "y";
  }

  lemma PairMap(f: string -> seq<string>, a: string, b: string)
    requires f(a) == [a] && f(b) == [b]
    ensures FlatMap(f, [a, b]) == [a, b]
  {
    assert [a, b] == [a] + [b];
    FlatMapConcat(f, [a], [b]);
    FlatMapOne(f, a);
    FlatMapOne(f, b);
  }

  lemma CutChunks(t: Tools, stripped: string, raws: seq<string>)
    requires raws == ["x", "y"] && forall s :: t.Count(s) == 0
    ensures ChunksFrom(t, stripped, raws) == [Chunk("x y", 0, 3, 0)]
  {
    TwoPieces(t);
  }

  lemma NotThere()
    ensures !Contains("x\n\ny", "x y")
  {
    var s, part := "x\n\ny", "x y";
    forall i: nat | i <= |s|
      ensures !(part <= s[i..])
    {
      if |s| - i >= 3 {
        assert s[i..][1] == '\n';
      }
    }
  }

  lemma TwoPieces(t: Tools)
    requires forall s :: t.Count(s) == 0
    ensures Kept(t, ["x", "y"]) == ["x", "y"] && Groups(t, ["x", "y"]) == [["x", "y"]] && Join(["x", "y"]) == "x y"
  {
    assert Truncated(t, "x") == "x" && Truncated(t, "y") == "y";
    assert ["x", "y"][1..] == ["y"] && ["x", "y"][..1] == ["x"] && ["x"][..0] == [];
    assert Groups(t, ["x"]) == [["x"]];
    assert Join(["x"]) == "x";
  }

  // ---- chunk_item, said without its functions

  /** The tokenizer counts every text but the empty one. */
  lemma TokensOf(t: Tools, s: string)
    ensures t.Count(s) == if s == "" then 0 else t.encode(s)
  {}

  /** The chunk size and the overlap that the splitter is given, in characters. */
  lemma SplitterArguments(t: Tools, content: string, sourceType: string)
    ensures RawSplit(t, content, sourceType) ==
            if sourceType == "pdf" || sourceType == "docx" then t.split(content, 2000, 300)
            else if sourceType == "csv" || sourceType == "faq" then t.split(content, 800, 80)
            else if sourceType == "image" then t.split(content, 1200, 120)
            else if sourceType == "text" then t.split(content, 800, 120)
            else t.split(content, 1600, 160)
  {}

  /**
   * The groups partition the pieces in order; a piece that is not the first of its group has less than 50 characters
   * and takes the group to 600 tokens at most; one that is, but not of the first group, would not.
   */
  ghost predicate GroupedGreedily(t: Tools, pieces: seq<string>, groups: seq<seq<string>>) {
    && FlatMap(Self, groups) == pieces
    && (forall i :: 0 <= i < |groups| ==> groups[i] != [])
    && (forall i, j :: 0 <= i < |groups| && 1 <= j < |groups[i]| ==>
          |groups[i][j]| < 50 && t.Count(Join(groups[i][..j] + [groups[i][j]])) <= 600)
    && (forall i :: 1 <= i < |groups| ==>
          |groups[i][0]| >= 50 || t.Count(Join(groups[i - 1] + [groups[i][0]])) > 600)
  }

  lemma GreedyMeans(t: Tools, pieces: seq<string>, groups: seq<seq<string>>)
    ensures GroupedGreedily(t, pieces, groups) <==> Greedy(t, pieces, groups)
  {
    if GroupedGreedily(t, pieces, groups) {
      forall i | 0 <= i < |groups|
        ensures Grown(t, groups[i])
      {}
    }
    if Greedy(t, pieces, groups) {
      forall i | 0 <= i < |groups|
        ensures groups[i] != []
        ensures forall j :: 1 <= j < |groups[i]| ==> Absorbs(t, groups[i][..j], groups[i][j])
      {
        assert Grown(t, groups[i]);
      }
      assert forall i :: 1 <= i < |groups| ==> Apart(t, groups[i - 1], groups[i]);
    }
  }

  /** A group is joined with one space between its pieces. */
  lemma JoinedBySpaces(group: seq<string>, piece: string)
    ensures Join([piece]) == piece
    ensures group != [] ==> Join(group + [piece]) == Join(group) + " " + piece
  {
    if group != [] {
      JoinLast(group, piece);
    }
  }

  /** The split pieces that are not blank, without the whitespace around them. */
  function Visible(split: seq<string>): seq<string> {
    if split == [] then []
    else (if Blank(split[0]) then [] else [Strip(split[0])]) + Visible(split[1..])
  }

  lemma {:induction false} VisibleIsStripped(split: seq<string>)
    ensures FlatMap(StripOne, split) == Visible(split)
  {
    if split != [] {
      BlankIffStripped(split[0]);
      VisibleIsStripped(split[1..]);
    }
  }

  /** Those survive, in order, that truncation leaves something of. */
  ghost predicate Survive(t: Tools, raws: seq<string>, kept: seq<string>)
    decreases |raws|, 0
  {
    if raws == [] then kept == []
    else exists cut :: TruncatesTo(t, raws[0], cut) && SurviveAs(t, raws[1..], kept, cut)
  }

  ghost predicate SurviveAs(t: Tools, rest: seq<string>, kept: seq<string>, cut: string)
    decreases |rest|, 1
  {
    if cut == "" then Survive(t, rest, kept) else kept != [] && kept[0] == cut && Survive(t, rest, kept[1..])
  }

  lemma {:induction false} KeptSurvives(t: Tools, raws: seq<string>)
    ensures Survive(t, raws, Kept(t, raws))
  {
    if raws != [] {
      var cut := Truncated(t, raws[0]);
      KeptSurvives(t, raws[1..]);
      TruncatedKeeps(t, raws[0]);
      KeepMeans(t, raws);
      assert SurviveAs(t, raws[1..], Kept(t, raws), cut);
    }
  }

  lemma KeepMeans(t: Tools, raws: seq<string>)
    requires raws != []
    ensures var cut, rest := Truncated(t, raws[0]), Kept(t, raws[1..]);
            Kept(t, raws) == if cut == "" then rest else [cut] + rest
  {}

  lemma {:induction false} SurviveOnce(t: Tools, raws: seq<string>, a: seq<string>, b: seq<string>)
    requires Survive(t, raws, a) && Survive(t, raws, b)
    ensures a == b
    decreases |raws|
  {
    if raws != [] {
      var x :| TruncatesTo(t, raws[0], x) && SurviveAs(t, raws[1..], a, x);
      var y :| TruncatesTo(t, raws[0], y) && SurviveAs(t, raws[1..], b, y);
      TruncatesOnce(t, raws[0], x, y);
      if x == "" {
        SurviveOnce(t, raws[1..], a, b);
      } else {
        SurviveOnce(t, raws[1..], a[1..], b[1..]);
      }
    }
  }

  /**
   * The chunks of an item that is not blank: the joined greedy groups of the pieces that survive, or, if none does,
   * the truncated content.
   */
  lemma ChunkTexts(t: Tools, content: string, sourceType: string, kept: seq<string>, groups: seq<seq<string>>)
    ensures Blank(content) ==> Chunks(t, content, sourceType) == []
    ensures var raws, chunks := Visible(RawSplit(t, content, sourceType)), Chunks(t, content, sourceType);
            !Blank(content) && Survive(t, raws, kept) && GroupedGreedily(t, kept, groups) ==>
              TextsAre(t, Strip(content), chunks, kept, groups)
  {
    var raws := RawPieces(t, content, sourceType);
    VisibleIsStripped(RawSplit(t, content, sourceType));
    BlankIffStripped(content);
    if Survive(t, raws, kept) && GroupedGreedily(t, kept, groups) {
      KeptSurvives(t, raws);
      SurviveOnce(t, raws, kept, Kept(t, raws));
      GreedyMeans(t, kept, groups);
      TextsFrom(t, Strip(content), raws, kept, groups);
    }
  }

  ghost predicate TextsAre(t: Tools, stripped: string, chunks: seq<Chunk>, kept: seq<string>,
                           groups: seq<seq<string>>) {
    if kept == [] then |chunks| == 1 && TruncatesTo(t, stripped, chunks[0].text)
    else |chunks| == |groups| && forall k :: 0 <= k < |chunks| ==> chunks[k].text == Join(groups[k])
  }

  lemma TextsFrom(t: Tools, stripped: string, raws: seq<string>, kept: seq<string>, groups: seq<seq<string>>)
    requires kept == Kept(t, raws) && Greedy(t, kept, groups)
    ensures TextsAre(t, stripped, ChunksFrom(t, stripped, raws), kept, groups)
  {
    TruncatedKeeps(t, stripped);
    if kept != [] {
      GroupsOf(t, stripped, raws, groups);
    }
  }
}
