/** The two stores, what one upload writes to them, and the store calls as functions. */
module Stores {
  import opened Chunker
  import opened Naming
  import opened Results
  import opened Utf8
  import ChunkIds
  import ContentHash
  import Text

  const MAX_CHUNKS_PER_DOC := 5000

  datatype BotKey = BotKey(tenant: string, bot: string)
  {
    predicate Valid() { IsSlug(tenant) && IsSlug(bot) }

    function Name(): string { RawName(tenant, bot) }
  }

  datatype Item = Item(content: string, sectionPath: seq<string>, page: Option<int>)

  /** An upload's validated body; docId is a UUID object if the client named the document. */
  datatype Body = Body(docId: Option<string>, contentHash: Option<string>, sourceType: string, filename: Option<string>,
                       url: Option<string>, items: seq<Item>)

  datatype Status = Pending | Active | Deleted | Failed

  /** A Document row; rawPayload also holds the source columns, refreshed stands for last_refreshed_at. */
  datatype Row = Row(key: BotKey, rawPayload: Option<Body>, hash: string, chunkCount: int, itemCount: int,
                     status: Status, error: Option<string>, refreshed: nat)

  datatype Payload = Payload(
    key: BotKey, doc: string, chunkId: string, version: int, isActive: bool, sourceType: string,
    filename: Option<string>, url: Option<string>, item: nat, hash: string, sectionPath: seq<string>,
    page: Option<int>, chunk: Chunk)

  type PointId = string

  datatype Point = Point(id: PointId, payload: Payload)

  type Collection = map<PointId, Payload>

  /** Bots by their unique collection name, rows by document id, collections by name. */
  datatype Stores = Stores(tenants: set<string>, bots: map<string, BotKey>, rows: map<string, Row>,
                           collections: map<string, Collection>)

  /** Tokenizer and splitter, UUIDv5 and SHA-256 are whatever they are; so, for the protocol, is the lock key. */
  datatype Env = Env(tools: Tools, uuid5: string -> PointId, sha256: seq<Byte> -> Digest,
                     lockKey: (string, string, string) -> Result<(Int32, Int32), NameError>)

  /** The service's own lock key. */
  function ServiceEnv(tools: Tools, uuid5: string -> PointId, sha256: seq<Byte> -> Digest): Env {
    Env(tools, uuid5, sha256, (tenant, bot, doc) => LockKey(sha256, tenant, bot, doc))
  }

  ghost predicate CollisionFree(env: Env) { forall a, b :: env.uuid5(a) == env.uuid5(b) ==> a == b }

  // ---- what an upload writes

  function Contents(items: seq<Item>): seq<Option<string>> {
    seq(|items|, i requires 0 <= i < |items| => Some(items[i].content))
  }

  /** The client's hash if it sent one, else SHA-256 over the contents. */
  function IncomingHash(env: Env, body: Body): string {
    var given := Text.Strip(ContentHash.Text(body.contentHash));
    if given != "" then given
    else ContentHash.Hex(env.sha256(Encode(ContentHash.Stream(Contents(body.items)))))
  }

  function BuildPayload(chunk: Chunk, key: BotKey, doc: string, item: nat, body: Body, hash: string): Payload
    requires item < |body.items|
  {
    Payload(key, doc, ChunkIds.BuildChunkId(doc, item, chunk.chunkIndex), 1, true, body.sourceType, body.filename,
            body.url, item, hash, body.items[item].sectionPath, body.items[item].page, chunk)
  }

  /** The chunks of every item. */
  function Plan(env: Env, body: Body): seq<seq<Chunk>> {
    seq(|body.items|, i requires 0 <= i < |body.items| => Chunks(env.tools, body.items[i].content, body.sourceType))
  }

  function PointFor(env: Env, chunk: Chunk, key: BotKey, doc: string, item: nat, body: Body, hash: string): Point
    requires item < |body.items|
  {
    var payload := BuildPayload(chunk, key, doc, item, body, hash);
    Point(env.uuid5(payload.chunkId), payload)
  }

  function ItemPoints(env: Env, key: BotKey, doc: string, item: nat, body: Body, hash: string, chunks: seq<Chunk>)
    : (r: seq<Point>)
    requires item < |body.items|
    ensures |r| == |chunks|
    ensures forall k :: 0 <= k < |r| ==> r[k] == PointFor(env, chunks[k], key, doc, item, body, hash)
  {
    seq(|chunks|, k requires 0 <= k < |chunks| => PointFor(env, chunks[k], key, doc, item, body, hash))
  }

  /** The points of the first n items of a plan, in order. */
  function PlanPoints(env: Env, key: BotKey, doc: string, body: Body, hash: string, plan: seq<seq<Chunk>>, n: nat)
    : seq<Point>
    requires n <= |plan| == |body.items|
  {
    if n == 0 then []
    else PlanPoints(env, key, doc, body, hash, plan, n - 1) + ItemPoints(env, key, doc, n - 1, body, hash, plan[n - 1])
  }

  function Points(env: Env, key: BotKey, doc: string, body: Body): seq<Point> {
    PlanPoints(env, key, doc, body, IncomingHash(env, body), Plan(env, body), |body.items|)
  }

  /** What the pipeline and the embedder demand of the points before anything is written. */
  predicate Writable(points: seq<Point>) {
    0 < |points| <= MAX_CHUNKS_PER_DOC && forall p :: p in points ==> !Text.Blank(p.payload.chunk.text)
  }

  /** An upload's body with everything that is computed from it. */
  datatype Content = Content(body: Body, hash: string, points: seq<Point>)

  function ContentOf(env: Env, key: BotKey, doc: string, body: Body): Content {
    Content(body, IncomingHash(env, body), Points(env, key, doc, body))
  }

  const MAX_HASH := 80
  const MAX_FILENAME := 500
  const MAX_SOURCE_TYPE := 20

  /** A varchar(n) column takes n characters, and cuts off spaces beyond them. */
  predicate FitsColumn(s: string, n: nat) { forall i :: n <= i < |s| ==> s[i] == ' ' }

  /** raw_payload has the default JSON encoder, and that one has no form for a UUID. */
  predicate Encodable(body: Body) { body.docId.None? }

  /** The row of an upload is one that the database accepts. */
  predicate Storable(c: Content) {
    && |c.hash| <= MAX_HASH
    && FitsColumn(c.body.sourceType, MAX_SOURCE_TYPE)
    && (c.body.filename.Some? ==> FitsColumn(c.body.filename.value, MAX_FILENAME))
    && Encodable(c.body)
  }

  function NewRow(key: BotKey, c: Content, refreshed: nat): Row {
    Row(key, Some(c.body), c.hash, |c.points|, |c.body.items|, Active, None, refreshed)
  }

  /** A point is keyed by the UUIDv5 of the chunk id made of its own document, item and chunk index. */
  predicate Keyed(env: Env, id: PointId, p: Payload) {
    id == env.uuid5(ChunkIds.BuildChunkId(p.doc, p.item, p.chunk.chunkIndex))
  }

  ghost predicate BelongsTo(env: Env, point: Point, key: BotKey, doc: string, hash: string) {
    point.payload.key == key && point.payload.doc == doc && point.payload.hash == hash
    && Keyed(env, point.id, point.payload)
  }

  ghost predicate DistinctIds(points: seq<Point>) {
    forall i, j :: 0 <= i < j < |points| ==> points[i].id != points[j].id
  }

  lemma {:induction false} PlanDescribed(
    env: Env, key: BotKey, doc: string, body: Body, hash: string, plan: seq<seq<Chunk>>, n: nat)
    requires n <= |plan| == |body.items|
    ensures forall p :: p in PlanPoints(env, key, doc, body, hash, plan, n) ==>
              BelongsTo(env, p, key, doc, hash) && p.payload.item < n
  {
    if n > 0 {
      PlanDescribed(env, key, doc, body, hash, plan, n - 1);
    }
  }

  /** Chunk indices count up from 0 in every item. */
  ghost predicate Numbered(plan: seq<seq<Chunk>>) {
    forall i, k :: 0 <= i < |plan| && 0 <= k < |plan[i]| ==> plan[i][k].chunkIndex == k
  }

  lemma {:induction false} PlanDistinct(
    env: Env, key: BotKey, doc: string, body: Body, hash: string, plan: seq<seq<Chunk>>, n: nat)
    requires n <= |plan| == |body.items| && CollisionFree(env) && Numbered(plan)
    ensures DistinctIds(PlanPoints(env, key, doc, body, hash, plan, n))
  {
    if n > 0 {
      var front := PlanPoints(env, key, doc, body, hash, plan, n - 1);
      var last := ItemPoints(env, key, doc, n - 1, body, hash, plan[n - 1]);
      PlanDistinct(env, key, doc, body, hash, plan, n - 1);
      PlanDescribed(env, key, doc, body, hash, plan, n - 1);
      forall i, j | 0 <= i < |front| && 0 <= j < |last|
        ensures front[i].id != last[j].id
      {
        assert front[i] in front;
        IdsDiffer(env, front[i].payload, last[j].payload);
      }
      forall i, j | 0 <= i < j < |last|
        ensures last[i].id != last[j].id
      {
        IdsDiffer(env, last[i].payload, last[j].payload);
      }
    }
  }

  /** The points carry their bot, document and hash under their own chunk ids, and no two share an id. */
  ghost predicate Identified(env: Env, key: BotKey, doc: string, c: Content) {
    DistinctIds(c.points) && forall p :: p in c.points ==> BelongsTo(env, p, key, doc, c.hash)
  }

  /**
   * Every upload computes such points: chunk indices count up, printing a chunk id loses nothing, and UUIDv5
   * is taken to be collision-free.
   */
  lemma ContentIdentified(env: Env, key: BotKey, doc: string, body: Body)
    requires CollisionFree(env)
    ensures Identified(env, key, doc, ContentOf(env, key, doc, body))
  {
    var hash := IncomingHash(env, body);
    var plan: seq<seq<Chunk>> := Plan(env, body);
    forall i | 0 <= i < |plan|
      ensures forall k :: 0 <= k < |plan[i]| ==> plan[i][k].chunkIndex == k
    {
      ChunksDescribed(env.tools, body.items[i].content, body.sourceType);
    }
    PlanDescribed(env, key, doc, body, hash, plan, |plan|);
    PlanDistinct(env, key, doc, body, hash, plan, |plan|);
  }

  lemma IdsDiffer(env: Env, p: Payload, q: Payload)
    requires CollisionFree(env)
    requires p.doc != q.doc || p.item != q.item || p.chunk.chunkIndex != q.chunk.chunkIndex
    ensures env.uuid5(ChunkIds.BuildChunkId(p.doc, p.item, p.chunk.chunkIndex))
         != env.uuid5(ChunkIds.BuildChunkId(q.doc, q.item, q.chunk.chunkIndex))
  {
    var a := ChunkIds.BuildChunkId(p.doc, p.item, p.chunk.chunkIndex);
    var b := ChunkIds.BuildChunkId(q.doc, q.item, q.chunk.chunkIndex);
    if a == b {
      ChunkIds.ChunkIdInjective(p.doc, p.item, p.chunk.chunkIndex, q.doc, q.item, q.chunk.chunkIndex);
    }
  }

  // ---- collections

  /** client.upsert: points in order, each replacing what its id held. */
  function Upsert(c: Collection, points: seq<Point>): Collection {
    if points == [] then c
    else var p := points[|points| - 1]; Upsert(c, points[..|points| - 1])[p.id := p.payload]
  }

  function DocPoints(c: Collection, doc: string): Collection {
    map id | id in c && c[id].doc == doc :: c[id]
  }

  /** client.delete with the doc_id selector. */
  function Without(c: Collection, doc: string): Collection {
    map id | id in c && c[id].doc != doc :: c[id]
  }

  ghost predicate WellKeyed(env: Env, c: Collection) { forall id :: id in c ==> Keyed(env, id, c[id]) }

  lemma PutLocal(env: Env, c: Collection, p: Point, doc: string, e: string)
    requires CollisionFree(env) && WellKeyed(env, c) && Keyed(env, p.id, p.payload) && p.payload.doc == doc
    ensures WellKeyed(env, c[p.id := p.payload])
    ensures DocPoints(c[p.id := p.payload], e) ==
            if e == doc then DocPoints(c, doc)[p.id := p.payload] else DocPoints(c, e)
  {
    if p.id in c && c[p.id].doc != doc {
      IdsDiffer(env, c[p.id], p.payload);
    }
    if e == doc {
      PutOwn(c, p);
    } else {
      PutElsewhere(c, p, e);
    }
  }

  lemma PutOwn(c: Collection, p: Point)
    requires p.id in c ==> c[p.id].doc == p.payload.doc
    ensures DocPoints(c[p.id := p.payload], p.payload.doc) == DocPoints(c, p.payload.doc)[p.id := p.payload]
  {}

  lemma PutElsewhere(c: Collection, p: Point, e: string)
    requires (p.id in c ==> c[p.id].doc != e) && p.payload.doc != e
    ensures DocPoints(c[p.id := p.payload], e) == DocPoints(c, e)
  {}

  /** An upsert acts on its own document's points only. */
  lemma {:induction false} UpsertLocal(
    env: Env, c: Collection, points: seq<Point>, doc: string, e: string)
    requires CollisionFree(env) && WellKeyed(env, c)
    requires forall p :: p in points ==> Keyed(env, p.id, p.payload) && p.payload.doc == doc
    ensures WellKeyed(env, Upsert(c, points))
    ensures DocPoints(Upsert(c, points), e) ==
            if e == doc then Upsert(DocPoints(c, doc), points) else DocPoints(c, e)
  {
    if points != [] {
      var p, front := points[|points| - 1], points[..|points| - 1];
      assert p in points;
      UpsertLocal(env, c, front, doc, e);
      PutLocal(env, Upsert(c, front), p, doc, e);
    }
  }

  function Ids(points: seq<Point>): set<PointId> { set p | p in points :: p.id }

  lemma {:induction false} UpsertKeys(c: Collection, points: seq<Point>)
    ensures Upsert(c, points).Keys == c.Keys + Ids(points)
  {
    if points != [] {
      var n := |points| - 1;
      UpsertKeys(c, points[..n]);
      assert points == points[..n] + [points[n]];
      assert Ids(points) == Ids(points[..n]) + {points[n].id};
    }
  }

  /** Distinct points into an empty document are stored one for one, none lost. */
  lemma {:induction false} UpsertFresh(points: seq<Point>)
    requires DistinctIds(points)
    ensures |Upsert(map[], points)| == |points|
  {
    if points != [] {
      var n := |points| - 1;
      UpsertFresh(points[..n]);
      UpsertKeys(map[], points[..n]);
      assert forall i :: 0 <= i < n ==> points[..n][i] == points[i];
      assert points[n].id !in Ids(points[..n]);
    }
  }

  lemma {:induction false} UpsertReads(points: seq<Point>, i: nat)
    requires DistinctIds(points) && i < |points|
    ensures points[i].id in Upsert(map[], points) && Upsert(map[], points)[points[i].id] == points[i].payload
  {
    var n := |points| - 1;
    if i < n {
      UpsertReads(points[..n], i);
    }
  }

  /** Every payload an upsert leaves was there before or is one of the points. */
  lemma {:induction false} UpsertSource(c: Collection, points: seq<Point>, id: PointId)
    requires id in Upsert(c, points)
    ensures (id in c && Upsert(c, points)[id] == c[id])
         || exists p :: p in points && p.id == id && p.payload == Upsert(c, points)[id]
  {
    if points != [] {
      var p := points[|points| - 1];
      if p.id == id {
        assert p in points;
      } else {
        UpsertSource(c, points[..|points| - 1], id);
      }
    }
  }

  // ---- the store calls

  function Held(st: Stores, name: string): Collection {
    if name in st.collections then st.collections[name] else map[]
  }

  /** The unique constraint on the collection name: another bot may hold it already. */
  predicate NameFree(st: Stores, key: BotKey) { key.Name() in st.bots ==> st.bots[key.Name()] == key }

  function AddTenant(st: Stores, key: BotKey): Stores { st.(tenants := st.tenants + {key.tenant}) }

  function AddBot(st: Stores, key: BotKey): Stores { st.(bots := st.bots[key.Name() := key]) }

  /** save(update_fields=["last_refreshed_at"]). */
  function Touch(st: Stores, doc: string): Stores {
    if doc in st.rows then st.(rows := st.rows[doc := st.rows[doc].(refreshed := st.rows[doc].refreshed + 1)]) else st
  }

  predicate Duplicate(st: Stores, key: BotKey, doc: string, hash: string, other: string) {
    && other in st.rows && other != doc
    && var row := st.rows[other];
       row.key == key && row.hash == hash && row.status == Active && row.chunkCount > 0
  }

  /** The content-match query. */
  function Duplicates(st: Stores, key: BotKey, doc: string, hash: string): set<string> {
    set other | other in st.rows && Duplicate(st, key, doc, hash, other)
  }

  function EnsureCollection(st: Stores, name: string): Stores {
    st.(collections := st.collections[name := Held(st, name)])
  }

  function ClearDoc(st: Stores, name: string, doc: string): Stores {
    if name !in st.collections then st
    else st.(collections := st.collections[name := Without(st.collections[name], doc)])
  }

  function UpsertInto(st: Stores, name: string, points: seq<Point>): Stores
    requires name in st.collections
  {
    st.(collections := st.collections[name := Upsert(st.collections[name], points)])
  }

  /** update_or_create. */
  function SaveRow(st: Stores, key: BotKey, doc: string, c: Content): Stores {
    var stamp := if doc in st.rows then st.rows[doc].refreshed + 1 else 0;
    st.(rows := st.rows[doc := NewRow(key, c, stamp)])
  }

  /** save(update_fields=["status", "chunk_count", "error_message", "last_refreshed_at"]). */
  function MarkDeleted(st: Stores, doc: string): Stores
    requires doc in st.rows
  {
    var row := st.rows[doc];
    st.(rows := st.rows[doc := row.(status := Deleted, chunkCount := 0, error := None, refreshed := row.refreshed + 1)])
  }
}
