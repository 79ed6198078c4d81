/** What an upload stores and hashes, said of the items of its body. */
module Items {
  import opened Chunker
  import opened ChunkIds
  import opened Effects
  import opened Naming
  import opened Protocol
  import opened Recovery
  import opened Results
  import opened Seqs
  import opened Serial
  import opened Stores
  import opened Utf8
  import ContentHash
  import Text

  /** The chunker at work on the items of one body. */
  type Chunking = string -> seq<Chunk>

  ghost predicate ChunksAs(env: Env, body: Body, of: Chunking) {
    forall s :: of(s) == Chunks(env.tools, s, body.sourceType)
  }

  /** The point of chunk k of item i, in full. */
  function Expected(env: Env, key: BotKey, doc: string, body: Body, hash: string, of: Chunking, i: nat, k: nat): Point
    requires i < |body.items| && k < |of(body.items[i].content)|
  {
    var item := body.items[i];
    var chunkId := doc + "__i" + Decimal(i) + "__c" + Decimal(k);
    Point(env.uuid5(chunkId),
          Payload(key, doc, chunkId, 1, true, body.sourceType, body.filename, body.url, i, hash, item.sectionPath,
                  item.page, of(item.content)[k]))
  }

  // ---- the list that is upserted

  lemma {:induction false} PlanHolds(env: Env, key: BotKey, doc: string, body: Body, hash: string,
                                     plan: seq<seq<Chunk>>, n: nat, i: nat, k: nat)
    requires i < n <= |plan| == |body.items| && k < |plan[i]|
    ensures PointFor(env, plan[i][k], key, doc, i, body, hash) in PlanPoints(env, key, doc, body, hash, plan, n)
  {
    if i < n - 1 {
      PlanHolds(env, key, doc, body, hash, plan, n - 1, i, k);
    } else {
      assert ItemPoints(env, key, doc, i, body, hash, plan[i])[k] == PointFor(env, plan[i][k], key, doc, i, body, hash);
    }
  }

  lemma {:induction false} PlanSource(env: Env, key: BotKey, doc: string, body: Body, hash: string,
                                      plan: seq<seq<Chunk>>, n: nat, p: Point) returns (i: nat, k: nat)
    requires n <= |plan| == |body.items| && p in PlanPoints(env, key, doc, body, hash, plan, n)
    ensures i < n && k < |plan[i]| && p == PointFor(env, plan[i][k], key, doc, i, body, hash)
  {
    if p in PlanPoints(env, key, doc, body, hash, plan, n - 1) {
      i, k := PlanSource(env, key, doc, body, hash, plan, n - 1, p);
    } else {
      var last := ItemPoints(env, key, doc, n - 1, body, hash, plan[n - 1]);
      i := n - 1;
      k :| 0 <= k < |last| && last[k] == p;
    }
  }

  /** Every item has its own chunks in the plan. */
  lemma PlanIsChunks(env: Env, body: Body, of: Chunking, i: nat)
    requires ChunksAs(env, body, of) && i < |body.items|
    ensures |Plan(env, body)| == |body.items| && Plan(env, body)[i] == of(body.items[i].content)
  {}

  lemma ChunkNumber(env: Env, body: Body, of: Chunking, i: nat, k: nat)
    requires ChunksAs(env, body, of) && i < |body.items| && k < |of(body.items[i].content)|
    ensures of(body.items[i].content)[k].chunkIndex == k
  {
    ChunksDescribed(env.tools, body.items[i].content, body.sourceType);
  }

  lemma PointIsExpected(env: Env, key: BotKey, doc: string, body: Body, hash: string, of: Chunking, chunks: seq<Chunk>,
                        i: nat, k: nat)
    requires i < |body.items| && chunks == of(body.items[i].content) && k < |chunks| && chunks[k].chunkIndex == k
    ensures PointFor(env, chunks[k], key, doc, i, body, hash) == Expected(env, key, doc, body, hash, of, i, k)
  {}

  /** The upserted list holds the point of every chunk of every item, and no others. */
  lemma ContentHolds(env: Env, key: BotKey, doc: string, body: Body, of: Chunking, i: nat, k: nat)
    requires ChunksAs(env, body, of) && i < |body.items| && k < |of(body.items[i].content)|
    ensures var c := ContentOf(env, key, doc, body);
            Expected(env, key, doc, body, c.hash, of, i, k) in c.points
  {
    var hash, plan := IncomingHash(env, body), Plan(env, body);
    PlanIsChunks(env, body, of, i);
    ChunkNumber(env, body, of, i, k);
    PlanHolds(env, key, doc, body, hash, plan, |plan|, i, k);
    PointIsExpected(env, key, doc, body, hash, of, plan[i], i, k);
  }

  lemma ContentSource(env: Env, key: BotKey, doc: string, body: Body, of: Chunking, p: Point) returns (i: nat, k: nat)
    requires ChunksAs(env, body, of) && p in ContentOf(env, key, doc, body).points
    ensures i < |body.items| && k < |of(body.items[i].content)|
    ensures p == Expected(env, key, doc, body, ContentOf(env, key, doc, body).hash, of, i, k)
  {
    var hash, plan := IncomingHash(env, body), Plan(env, body);
    i, k := PlanSource(env, key, doc, body, hash, plan, |plan|, p);
    PlanIsChunks(env, body, of, i);
    ChunkNumber(env, body, of, i, k);
    PointIsExpected(env, key, doc, body, hash, of, plan[i], i, k);
  }

  // ---- the points that are stored

  /** Chunk k of item i is stored in full under its own id, for every i and k, and nothing else is. */
  ghost predicate StoresItems(env: Env, key: BotKey, doc: string, body: Body, hash: string, of: Chunking,
                              points: Collection) {
    && (forall i: nat, k: nat :: i < |body.items| && k < |of(body.items[i].content)| ==>
          var p := Expected(env, key, doc, body, hash, of, i, k); p.id in points && points[p.id] == p.payload)
    && (forall id :: id in points ==> IsOfItem(env, key, doc, body, hash, of, id, points[id]))
  }

  ghost predicate IsOfItem(env: Env, key: BotKey, doc: string, body: Body, hash: string, of: Chunking, id: PointId,
                           payload: Payload) {
    exists i: nat, k: nat :: i < |body.items| && k < |of(body.items[i].content)|
                             && Point(id, payload) == Expected(env, key, doc, body, hash, of, i, k)
  }

  /** The same of the list that is upserted. */
  ghost predicate ListsItems(env: Env, key: BotKey, doc: string, body: Body, hash: string, of: Chunking,
                             points: seq<Point>) {
    && (forall i: nat, k: nat :: i < |body.items| && k < |of(body.items[i].content)| ==>
          Expected(env, key, doc, body, hash, of, i, k) in points)
    && (forall p :: p in points ==> IsOfItem(env, key, doc, body, hash, of, p.id, p.payload))
  }

  lemma ContentLists(env: Env, key: BotKey, doc: string, body: Body, of: Chunking)
    requires ChunksAs(env, body, of)
    ensures var c := ContentOf(env, key, doc, body); ListsItems(env, key, doc, body, c.hash, of, c.points)
  {
    var c := ContentOf(env, key, doc, body);
    forall i: nat, k: nat | i < |body.items| && k < |of(body.items[i].content)|
      ensures Expected(env, key, doc, body, c.hash, of, i, k) in c.points
    {
      ContentHolds(env, key, doc, body, of, i, k);
    }
    forall p | p in c.points
      ensures IsOfItem(env, key, doc, body, c.hash, of, p.id, p.payload)
    {
      var i, k := ContentSource(env, key, doc, body, of, p);
      assert Point(p.id, p.payload) == Expected(env, key, doc, body, c.hash, of, i, k);
    }
  }

  lemma ExactlyStoresItems(env: Env, key: BotKey, doc: string, body: Body, of: Chunking, c: Content, w: View)
    requires ListsItems(env, key, doc, body, c.hash, of, c.points) && HoldsExactly(w, key, c)
    ensures StoresItems(env, key, doc, body, c.hash, of, w.points)
  {
    forall i: nat, k: nat | i < |body.items| && k < |of(body.items[i].content)|
      ensures var p := Expected(env, key, doc, body, c.hash, of, i, k); p.id in w.points && w.points[p.id] == p.payload
    {
      assert Expected(env, key, doc, body, c.hash, of, i, k) in c.points;
    }
    forall id | id in w.points
      ensures IsOfItem(env, key, doc, body, c.hash, of, id, w.points[id])
    {
      var p :| p in c.points && p.id == id;
    }
  }

  /**
   * Every item keeps its own text: after a replace, and after a create of a document that had no points, the document's
   * points are those of the chunks of each item's own content, with that item's path and page, each under its id.
   */
  lemma UploadStoresItems(env: Env, st: Stores, req: Request, luck: Luck, of: Chunking)
    requires Call(env, st, req, luck) && req.Upload? && ChunksAs(env, req.content.body, of)
    ensures var (end, o) := Perform(st, req, luck);
            var v, w := ViewOf(st, req.key, req.doc), ViewOf(end, req.key, req.doc);
            o.Replaced? || (o.Created? && v.points == map[]) ==>
              StoresItems(env, req.key, req.doc, req.content.body, req.content.hash, of, w.points)
  {
    var (end, o) := Perform(st, req, luck);
    var v, w := ViewOf(st, req.key, req.doc), ViewOf(end, req.key, req.doc);
    assert req.content == ContentOf(env, req.key, req.doc, req.content.body);
    ReplaceRecovers(env, st, req, luck);
    CreateRecoversIff(env, st, req, luck);
    ContentLists(env, req.key, req.doc, req.content.body, of);
    if o.Replaced? || (o.Created? && v.points == map[]) {
      ExactlyStoresItems(env, req.key, req.doc, req.content.body, of, req.content, w);
    }
  }

  /** What happens to one item does not depend on the others: neither its number of chunks nor any of them. */
  lemma ItemsApart(env: Env, key: BotKey, doc: string, a: Body, b: Body, of: Chunking, i: nat, k: nat)
    requires ChunksAs(env, a, of) && a.sourceType == b.sourceType && a.filename == b.filename && a.url == b.url
    requires i < |a.items| && i < |b.items| && a.items[i] == b.items[i]
    ensures k < |of(a.items[i].content)| ==>
              var p := Expected(env, key, doc, a, ContentOf(env, key, doc, a).hash, of, i, k);
              && p in ContentOf(env, key, doc, a).points
              && Point(p.id, p.payload.(hash := ContentOf(env, key, doc, b).hash)) in ContentOf(env, key, doc, b).points
  {
    if k < |of(a.items[i].content)| {
      ContentHolds(env, key, doc, a, of, i, k);
      ContentHolds(env, key, doc, b, of, i, k);
    }
  }

  // ---- the content hash

  /** What is hashed: the items' contents in UTF-8, each ended by the byte 0x1f. */
  function Fed(items: seq<Item>): seq<Byte> {
    if items == [] then [] else Encode(items[0].content) + [0x1f] + Fed(items[1..])
  }

  /** The items' contents, each cut at every U+001F inside it. */
  function CutContents(items: seq<Item>): seq<string> {
    if items == [] then [] else ContentHash.Split(items[0].content + "\U{1f}") + CutContents(items[1..])
  }

  predicate Unhashed(body: Body) { body.contentHash.None? || Text.Blank(body.contentHash.value) }

  lemma {:induction false} FedIsStream(items: seq<Item>)
    ensures Fed(items) == Encode(ContentHash.Stream(Contents(items)))
  {
    if items != [] {
      FedIsStream(items[1..]);
      ContentHash.StreamStep(Contents(items));
      assert Contents(items)[1..] == Contents(items[1..]);
    }
  }

  lemma {:induction false} CutIsPieces(items: seq<Item>)
    ensures CutContents(items) == FlatMap(ContentHash.Pieces, ContentHash.Texts(Contents(items)))
  {
    if items != [] {
      CutIsPieces(items[1..]);
      assert Contents(items)[1..] == Contents(items[1..]);
      assert ContentHash.Texts(Contents(items))[1..] == ContentHash.Texts(Contents(items[1..]));
    }
  }

  /** The client's hash, stripped, unless it is missing or blank; then that of what is fed. */
  lemma HashOfItems(env: Env, body: Body)
    ensures Unhashed(body) ==> IncomingHash(env, body) == ContentHash.Hex(env.sha256(Fed(body.items)))
    ensures !Unhashed(body) ==> IncomingHash(env, body) == Text.Strip(body.contentHash.value)
  {
    FedIsStream(body.items);
    Text.BlankIffStripped(if body.contentHash.Some? then body.contentHash.value else "");
  }

  /** SHA-256 tells these two streams apart, if they differ. */
  ghost predicate NoCollision(env: Env, a: Body, b: Body) {
    env.sha256(Fed(a.items)) == env.sha256(Fed(b.items)) ==> Fed(a.items) == Fed(b.items)
  }

  lemma SameFedIff(a: seq<Item>, b: seq<Item>)
    ensures Fed(a) == Fed(b) <==> CutContents(a) == CutContents(b)
  {
    FedIsStream(a);
    FedIsStream(b);
    CutIsPieces(a);
    CutIsPieces(b);
    ContentHash.PreimageExact(Contents(a), Contents(b));
  }

  lemma SameDigestIff(env: Env, x: seq<Byte>, y: seq<Byte>)
    requires env.sha256(x) == env.sha256(y) ==> x == y
    ensures ContentHash.Hex(env.sha256(x)) == ContentHash.Hex(env.sha256(y)) <==> x == y
  {
    if ContentHash.Hex(env.sha256(x)) == ContentHash.Hex(env.sha256(y)) {
      ContentHash.HexInjective(env.sha256(x), env.sha256(y));
    }
  }

  /**
   * Two bodies that bring no hash of their own have one hash exactly if cutting their items' contents at U+001F gives
   * the same list.
   */
  lemma SameHashIff(env: Env, a: Body, b: Body)
    requires Unhashed(a) && Unhashed(b) && NoCollision(env, a, b)
    ensures IncomingHash(env, a) == IncomingHash(env, b) <==> CutContents(a.items) == CutContents(b.items)
  {
    SameDigestIff(env, Fed(a.items), Fed(b.items));
    SameFedIff(a.items, b.items);
    HashOfItems(env, a);
    HashOfItems(env, b);
  }

  ghost predicate FreeOfSeparator(body: Body) {
    forall i :: 0 <= i < |body.items| ==> '\U{1f}' !in body.items[i].content
  }

  predicate SameContents(a: seq<Item>, b: seq<Item>) {
    |a| == |b| && forall i :: 0 <= i < |a| ==> a[i].content == b[i].content
  }

  lemma Chained(hash: bool, cut: bool, same: bool)
    requires (hash <==> cut) && (cut <==> same)
    ensures hash <==> same
  {}

  /** For contents free of U+001F: exactly if they agree item by item. */
  lemma SameHashIffSameItems(env: Env, a: Body, b: Body)
    requires Unhashed(a) && Unhashed(b) && NoCollision(env, a, b) && FreeOfSeparator(a) && FreeOfSeparator(b)
    ensures IncomingHash(env, a) == IncomingHash(env, b) <==>
            SameContents(a.items, b.items)
  {
    WholeIff(a.items, b.items);
    SameHashIff(env, a, b);
    Chained(IncomingHash(env, a) == IncomingHash(env, b), CutContents(a.items) == CutContents(b.items),
            SameContents(a.items, b.items));
  }

  lemma WholeIff(a: seq<Item>, b: seq<Item>)
    requires forall i :: 0 <= i < |a| ==> '\U{1f}' !in a[i].content
    requires forall i :: 0 <= i < |b| ==> '\U{1f}' !in b[i].content
    ensures CutContents(a) == CutContents(b) <==> SameContents(a, b)
  {
    CutWhole(a);
    CutWhole(b);
    if SameContents(a, b) {
      assert CutContents(a) == CutContents(b);
    }
  }

  lemma {:induction false} CutWhole(items: seq<Item>)
    requires forall i :: 0 <= i < |items| ==> '\U{1f}' !in items[i].content
    ensures |CutContents(items)| == |items|
    ensures forall i :: 0 <= i < |items| ==> CutContents(items)[i] == items[i].content
  {
    if items != [] {
      var s := items[0].content;
      CutWhole(items[1..]);
      ContentHash.SplitFirst("", s, "");
      assert s + "\U{1f}" + "" == s + "\U{1f}" && "" + s == s;
    }
  }
}
