/** The two pipelines, store call by store call, on the stores themselves. */
module Pipeline {
  import opened Chunker
  import opened Effects
  import opened Naming
  import opened Protocol
  import opened Results
  import opened Serial
  import opened Stores
  import ContentHash
  import Text

  /** A call that fails after its effect has taken it all the same. */
  predicate Takes(fault: Fault) { Strikes(fault) ==> fault.effect }

  /** A chunk with the item it comes from. */
  datatype Piece = Piece(item: nat, chunk: Chunk)

  /** The points of an upload: a list that grows chunk by chunk. */
  method BuildPoints(env: Env, key: BotKey, doc: string, body: Body, hash: string, flat: seq<Piece>)
    returns (points: seq<Point>)
    requires forall p :: p in flat ==> p.item < |body.items|
    ensures |points| == |flat|
    ensures forall i :: 0 <= i < |flat| ==>
              points[i] == PointFor(env, flat[i].chunk, key, doc, flat[i].item, body, hash)
  {
    points := [];
    for i := 0 to |flat|
      invariant |points| == i
      invariant forall j :: 0 <= j < i ==> points[j] == PointFor(env, flat[j].chunk, key, doc, flat[j].item, body, hash)
    {
      var payload := BuildPayload(flat[i].chunk, key, doc, flat[i].item, body, hash);
      points := points + [Point(env.uuid5(payload.chunkId), payload)];
    }
  }

  /** The plan of this body. (Quantified, so that proofs unfold Plan only on demand.) */
  ghost predicate Plans(env: Env, body: Body, plan: seq<seq<Chunk>>) {
    forall b :: b == body ==> plan == Plan(env, b)
  }

  /** The chunks of all items, item by item. */
  method Flatten(env: Env, body: Body, ghost plan: seq<seq<Chunk>>) returns (flat: seq<Piece>)
    requires |plan| == |body.items| && Plans(env, body, plan)
    ensures flat == Pieces(plan, |body.items|)
  {
    flat := [];
    for i := 0 to |body.items|
      invariant flat == Pieces(plan, i)
    {
      var chunks := ChunkOne(env, body, i, plan);
      ghost var before := flat;
      for k := 0 to |chunks|
        invariant flat == before + Tagged(i, chunks[..k])
      {
        TaggedPush(before, i, chunks, k);
        flat := flat + [Piece(i, chunks[k])];
      }
      assert chunks[..|chunks|] == chunks;
    }
  }

  method ChunkOne(env: Env, body: Body, item: nat, ghost plan: seq<seq<Chunk>>) returns (chunks: seq<Chunk>)
    requires item < |body.items| == |plan| && Plans(env, body, plan)
    ensures chunks == plan[item]
  {
    assert plan == Plan(env, body);
    chunks := ChunkItem(env.tools, body.items[item].content, body.sourceType);
  }

  function Tagged(item: nat, chunks: seq<Chunk>): (r: seq<Piece>)
    ensures |r| == |chunks| && forall k :: 0 <= k < |r| ==> r[k] == Piece(item, chunks[k])
  {
    seq(|chunks|, k requires 0 <= k < |chunks| => Piece(item, chunks[k]))
  }

  lemma TaggedPush(before: seq<Piece>, item: nat, chunks: seq<Chunk>, k: nat)
    requires k < |chunks|
    ensures before + Tagged(item, chunks[..k + 1]) == before + Tagged(item, chunks[..k]) + [Piece(item, chunks[k])]
  {
    assert Tagged(item, chunks[..k + 1]) == Tagged(item, chunks[..k]) + [Piece(item, chunks[k])];
  }

  function Pieces(plan: seq<seq<Chunk>>, n: nat): (r: seq<Piece>)
    requires n <= |plan|
    ensures forall p :: p in r ==> p.item < n
  {
    if n == 0 then [] else Pieces(plan, n - 1) + Tagged(n - 1, plan[n - 1])
  }

  /** One point per chunk, in order. */
  lemma {:induction false} PiecesArePoints(
    env: Env, key: BotKey, doc: string, body: Body, hash: string, plan: seq<seq<Chunk>>, n: nat)
    requires n <= |plan| == |body.items|
    ensures var flat, points := Pieces(plan, n), PlanPoints(env, key, doc, body, hash, plan, n);
            |points| == |flat| &&
            forall i :: 0 <= i < |flat| ==>
              points[i] == PointFor(env, flat[i].chunk, key, doc, flat[i].item, body, hash)
  {
    if n > 0 {
      PiecesArePoints(env, key, doc, body, hash, plan, n - 1);
    }
  }

  /** The check embed_passages makes of the chunk texts. */
  method NoBlankText(points: seq<Point>) returns (ok: bool)
    requires 0 < |points| <= MAX_CHUNKS_PER_DOC
    ensures ok == Writable(points)
  {
    for i := 0 to |points|
      invariant forall j :: 0 <= j < i ==> !Text.Blank(points[j].payload.chunk.text)
    {
      Text.BlankIffStripped(points[i].payload.chunk.text);
      if Text.Strip(points[i].payload.chunk.text) == "" {
        assert points[i] in points;
        return false;
      }
    }
    ok := true;
  }

  /** What the body computes to. (Quantified, so that proofs unfold ContentOf only on demand.) */
  ghost predicate Computed(env: Env, key: BotKey, doc: string, body: Body, c: Content) {
    c.body == body && forall b :: b == body ==> c == ContentOf(env, key, doc, b)
  }

  lemma Unpack(env: Env, key: BotKey, doc: string, body: Body, c: Content) returns (plan: seq<seq<Chunk>>)
    requires Computed(env, key, doc, body, c)
    ensures |plan| == |body.items| && Plans(env, body, plan)
    ensures c.points == PlanPoints(env, key, doc, body, c.hash, plan, |body.items|)
  {
    plan := Plan(env, body);
    assert c == ContentOf(env, key, doc, body);
  }

  // ---- the service

  /** Both stores and the advisory locks that live sessions hold. */
  class Service {
    const env: Env
    var tenants: set<string>
    var bots: map<string, BotKey>
    var rows: map<string, Row>
    var collections: map<string, Collection>
    var locks: set<(Int32, Int32)>

    constructor (env: Env)
      ensures this.env == env && locks == {} && Value() == Stores({}, map[], map[], map[])
    {
      this.env, tenants, bots, rows, collections, locks := env, {}, map[], map[], map[], {};
    }

    function Value(): Stores
      reads this
    {
      Stores(tenants, bots, rows, collections)
    }

    /** The document's lock is held. */
    predicate Holds(key: BotKey, doc: string)
      reads this`locks
    {
      env.lockKey(key.tenant, key.bot, doc).Success? && env.lockKey(key.tenant, key.bot, doc).value in locks
    }

    method GetOrCreateTenant(key: BotKey, fault: Fault) returns (failed: bool)
      modifies this`tenants
      ensures Value() == if Takes(fault) then AddTenant(old(Value()), key) else old(Value())
      ensures failed == Strikes(fault)
    {
      if Takes(fault) {
        tenants := tenants + {key.tenant};
      }
      failed := Strikes(fault);
    }

    /** Bot.save derives the collection name; another bot may own it. */
    method GetOrCreateBot(key: BotKey, fault: Fault) returns (failed: bool, conflict: bool)
      modifies this`bots
      ensures Value() == if Takes(fault) && NameFree(old(Value()), key) then AddBot(old(Value()), key) else old(Value())
      ensures failed == Strikes(fault) && conflict == !NameFree(old(Value()), key)
    {
      var name := key.Name();
      var found := name in bots && bots[name] == key;
      conflict := !found && name in bots;
      if Takes(fault) && !found && !conflict {
        bots := bots[name := key];
      }
      failed := Strikes(fault);
      assert found ==> old(bots)[name := key] == old(bots);
    }

    method FirstDuplicate(key: BotKey, doc: string, hash: string, luck: Luck) returns (match_: Option<string>)
      requires Chooses(luck)
      ensures var dups := Duplicates(Value(), key, doc, hash);
              match_ == if luck.first(dups) in dups then Some(luck.first(dups)) else None
    {
      var matches := set other | other in rows && Duplicate(Value(), key, doc, hash, other);
      match_ := if matches == {} then None else Some(luck.first(matches));
    }

    method Refresh(doc: string, fault: Fault) returns (failed: bool)
      modifies this`rows
      ensures Value() == if Takes(fault) then Touch(old(Value()), doc) else old(Value())
      ensures failed == Strikes(fault)
    {
      if Takes(fault) && doc in rows {
        rows := rows[doc := rows[doc].(refreshed := rows[doc].refreshed + 1)];
      }
      failed := Strikes(fault);
    }

    method GetOrCreateCollection(name: string, fault: Fault) returns (failed: bool)
      modifies this`collections
      ensures Value() == if Takes(fault) then EnsureCollection(old(Value()), name) else old(Value())
      ensures failed == Strikes(fault)
    {
      if Takes(fault) && name !in collections {
        collections := collections[name := map[]];
      }
      failed := Strikes(fault);
      assert name in old(collections) ==> old(collections)[name := old(collections)[name]] == old(collections);
    }

    method DeleteByDocId(name: string, doc: string, fault: Fault) returns (failed: bool, count: nat)
      modifies this`collections
      ensures Value() == if Takes(fault) then ClearDoc(old(Value()), name, doc) else old(Value())
      ensures failed == Strikes(fault)
      ensures count == if fault.Retried? then 0 else |DocPoints(Held(old(Value()), name), doc)|
    {
      count := 0;
      if name in collections {
        var c := collections[name];
        count := if fault.Retried? then 0 else |DocPoints(c, doc)|;
        if Takes(fault) {
          collections := collections[name := Without(c, doc)];
        }
      }
      failed := Strikes(fault);
    }

    method UpsertPoints(name: string, points: seq<Point>, fault: Fault) returns (failed: bool)
      requires name in collections
      modifies this`collections
      ensures Value() == if Takes(fault) then UpsertInto(old(Value()), name, points) else old(Value())
      ensures failed == Strikes(fault)
    {
      if Takes(fault) {
        var c := collections[name];
        for i := 0 to |points|
          invariant c == Upsert(old(collections)[name], points[..i])
        {
          assert points[..i + 1][..i] == points[..i];
          c := c[points[i].id := points[i].payload];
        }
        assert points[..|points|] == points;
        collections := collections[name := c];
      }
      failed := Strikes(fault);
    }

    /** update_or_create in a transaction; the database may refuse the row. */
    method SaveDocument(key: BotKey, doc: string, c: Content, fault: Fault) returns (failed: bool, refused: bool)
      modifies this`rows
      ensures Value() == if Takes(fault) && Storable(c) then SaveRow(old(Value()), key, doc, c) else old(Value())
      ensures failed == Strikes(fault) && refused == !Storable(c)
    {
      refused := !Storable(c);
      if Takes(fault) && !refused {
        var stamp := if doc in rows then rows[doc].refreshed + 1 else 0;
        rows := rows[doc := Row(key, Some(c.body), c.hash, |c.points|, |c.body.items|, Active, None, stamp)];
      }
      failed := Strikes(fault);
    }

    method SaveDeleted(doc: string, fault: Fault) returns (failed: bool)
      requires doc in rows
      modifies this`rows
      ensures Value() == if Takes(fault) then MarkDeleted(old(Value()), doc) else old(Value())
      ensures failed == Strikes(fault)
    {
      if Takes(fault) {
        var row := rows[doc];
        rows := rows[doc := row.(status := Deleted, chunkCount := 0, error := None, refreshed := row.refreshed + 1)];
      }
      failed := Strikes(fault);
    }

    /** The caller's content hash if it sent one, else the hash of the contents. */
    method HashOf(key: BotKey, doc: string, body: Body, ghost c: Content) returns (hash: string)
      requires Computed(env, key, doc, body, c)
      ensures hash == c.hash
    {
      hash := Text.Strip(ContentHash.Text(body.contentHash));
      if hash == "" {
        var fed := ContentHash.Preimage(Contents(body.items));
        hash := ContentHash.Hex(env.sha256(fed));
      }
      assert c == ContentOf(env, key, doc, body);
    }

    method Prepare(key: BotKey, doc: string, body: Body, hash: string, flat: seq<Piece>,
                   ghost plan: seq<seq<Chunk>>, ghost c: Content) returns (points: seq<Point>)
      requires |plan| == |body.items| && flat == Pieces(plan, |body.items|)
      requires c.points == PlanPoints(env, key, doc, body, hash, plan, |body.items|)
      ensures points == c.points
    {
      points := BuildPoints(env, key, doc, body, hash, flat);
      PiecesArePoints(env, key, doc, body, hash, plan, |plan|);
    }

    method UploadLocked(key: BotKey, doc: string, body: Body, luck: Luck, ghost c: Content)
      returns (o: Outcome)
      requires Computed(env, key, doc, body, c)
      requires Chooses(luck) && Holds(key, doc)
      modifies this`tenants, this`bots, this`rows, this`collections
      ensures (Value(), o) == Perform(old(Value()), Request.Upload(key, doc, c), luck)
    {
      ghost var req := Request.Upload(key, doc, c);
      UploadStep(Value(), req, AddingTenant, luck);
      var failed := GetOrCreateTenant(key, luck.fault(AddingTenant));
      if failed {
        return Broken(luck.fault(AddingTenant));
      }
      UploadStep(Value(), req, AddingBot, luck);
      var conflict;
      failed, conflict := GetOrCreateBot(key, luck.fault(AddingBot));
      if failed {
        return Broken(luck.fault(AddingBot));
      }
      if conflict {
        return Raised(BotConflict);
      }

      o := Decide(key, doc, body, luck, c);
    }

    /** What the row or another row with the same content already settles. */
    method Decide(key: BotKey, doc: string, body: Body, luck: Luck, ghost c: Content)
      returns (o: Outcome)
      requires Computed(env, key, doc, body, c)
      requires Chooses(luck)
      modifies this`rows, this`collections
      ensures (Value(), o) == Alone(old(Value()), Request.Upload(key, doc, c), Looking, luck)
    {
      ghost var req := Request.Upload(key, doc, c);
      UploadStep(Value(), req, Looking, luck);
      if Strikes(luck.fault(Looking)) {
        return Broken(luck.fault(Looking));
      }
      var existing := if doc in rows then Some(rows[doc]) else None;
      var isReplace := existing.Some?;
      if isReplace && existing.value.key != key {
        return Raised(Collision);
      }
      var hash := HashOf(key, doc, body, c);
      if isReplace && existing.value.chunkCount > 0 && existing.value.hash == hash {
        var pc := Refreshing(doc, existing.value.chunkCount, existing.value.itemCount);
        UploadStep(Value(), req, pc, luck);
        var failed := Refresh(doc, luck.fault(pc));
        return if failed then Broken(luck.fault(pc))
               else NoChange(doc, existing.value.chunkCount, existing.value.itemCount);
      }

      o := Match(key, doc, body, hash, isReplace, luck, c);
    }

    /** The content-match query, and the rest of the upload if it finds nothing. */
    method Match(key: BotKey, doc: string, body: Body, hash: string, isReplace: bool, luck: Luck,
                 ghost c: Content) returns (o: Outcome)
      requires Computed(env, key, doc, body, c) && c.hash == hash
      requires Chooses(luck)
      modifies this`rows, this`collections
      ensures (Value(), o) == Alone(old(Value()), Request.Upload(key, doc, c), Matching(isReplace), luck)
    {
      ghost var req := Request.Upload(key, doc, c);
      UploadStep(Value(), req, Matching(isReplace), luck);
      if Strikes(luck.fault(Matching(isReplace))) {
        return Broken(luck.fault(Matching(isReplace)));
      }
      var contentMatch := FirstDuplicate(key, doc, hash, luck);
      if contentMatch.Some? {
        var row := rows[contentMatch.value];
        var pc := Refreshing(contentMatch.value, row.chunkCount, row.itemCount);
        UploadStep(Value(), req, pc, luck);
        var failed := Refresh(contentMatch.value, luck.fault(pc));
        return if failed then Broken(luck.fault(pc)) else NoChange(contentMatch.value, row.chunkCount, row.itemCount);
      }
      o := Write(key, doc, body, hash, isReplace, luck, c);
    }

    /** From get_or_create_collection to the row save. */
    method Write(key: BotKey, doc: string, body: Body, hash: string, isReplace: bool, luck: Luck,
                 ghost c: Content) returns (o: Outcome)
      requires Computed(env, key, doc, body, c) && c.hash == hash
      modifies this`rows, this`collections
      ensures (Value(), o) == Alone(old(Value()), Request.Upload(key, doc, c), Collecting(isReplace), luck)
    {
      ghost var req := Request.Upload(key, doc, c);
      var name := key.Name();
      UploadStep(Value(), req, Collecting(isReplace), luck);
      var failed := GetOrCreateCollection(name, luck.fault(Collecting(isReplace)));
      if failed {
        return Broken(luck.fault(Collecting(isReplace)));
      }

      UploadStep(Value(), req, Chunking(isReplace), luck);
      ghost var plan := Unpack(env, key, doc, body, c);
      PiecesArePoints(env, key, doc, body, hash, plan, |plan|);
      if Strikes(luck.fault(Chunking(isReplace))) {
        return Broken(luck.fault(Chunking(isReplace)));
      }
      var flat := Flatten(env, body, plan);
      if flat == [] {
        return Raised(NoContent);
      }
      if |flat| > MAX_CHUNKS_PER_DOC {
        return Raised(TooLarge);
      }
      var points := Prepare(key, doc, body, hash, flat, plan, c);
      o := Embed(key, doc, Content(body, hash, points), isReplace, luck);
    }

    /** The embedder's answer, then the writes. */
    method Embed(key: BotKey, doc: string, c: Content, isReplace: bool, luck: Luck) returns (o: Outcome)
      requires key.Name() in collections && 0 < |c.points| <= MAX_CHUNKS_PER_DOC
      modifies this`rows, this`collections
      ensures (Value(), o) == Alone(old(Value()), Request.Upload(key, doc, c), Embedding(isReplace), luck)
    {
      UploadStep(Value(), Request.Upload(key, doc, c), Embedding(isReplace), luck);
      if Strikes(luck.fault(Embedding(isReplace))) {
        return Broken(luck.fault(Embedding(isReplace)));
      }
      var embeddable := NoBlankText(c.points);
      if !embeddable {
        return Raised(Unembeddable);
      }
      o := Store(key, doc, c, isReplace, luck);
    }

    /** The three writes. */
    method Store(key: BotKey, doc: string, c: Content, isReplace: bool, luck: Luck) returns (o: Outcome)
      requires key.Name() in collections
      modifies this`rows, this`collections
      ensures (Value(), o) == Alone(old(Value()), Request.Upload(key, doc, c),
                                    if isReplace then Clearing else Upserting(false), luck)
    {
      ghost var req := Request.Upload(key, doc, c);
      var name := key.Name();
      var failed;
      if isReplace {
        UploadStep(Value(), req, Clearing, luck);
        var count;
        failed, count := DeleteByDocId(name, doc, luck.fault(Clearing));
        if failed {
          return Broken(luck.fault(Clearing));
        }
      }
      UploadStep(Value(), req, Upserting(isReplace), luck);
      failed := UpsertPoints(name, c.points, luck.fault(Upserting(isReplace)));
      if failed {
        return Broken(luck.fault(Upserting(isReplace)));
      }
      UploadStep(Value(), req, Saving(isReplace), luck);
      var refused;
      failed, refused := SaveDocument(key, doc, c, luck.fault(Saving(isReplace)));
      if failed {
        return Broken(luck.fault(Saving(isReplace)));
      }
      if refused {
        return Raised(RowRefused);
      }
      o := if isReplace then Replaced(|c.points|, |c.body.items|) else Created(|c.points|, |c.body.items|);
    }

    /** The upload pipeline: the lock is taken, and given back on every exit. */
    method Upload(key: BotKey, doc: string, body: Body, luck: Luck) returns (o: Outcome)
      requires Chooses(luck)
      modifies this
      ensures locks == old(locks)
      ensures var req := Request.Upload(key, doc, ContentOf(env, key, doc, body));
              (Value(), o) == Serve(env, old(Value()), old(locks), req, luck)
    {
      o := UploadContent(key, doc, body, luck, ContentOf(env, key, doc, body));
    }

    method UploadContent(key: BotKey, doc: string, body: Body, luck: Luck, ghost c: Content) returns (o: Outcome)
      requires Computed(env, key, doc, body, c) && Chooses(luck)
      modifies this
      ensures locks == old(locks)
      ensures (Value(), o) == Serve(env, old(Value()), old(locks), Request.Upload(key, doc, c), luck)
    {
      var lock := env.lockKey(key.tenant, key.bot, doc);
      if lock.Failure? {
        return Raised(InvalidName);
      }
      if lock.value in locks {
        return Raised(Busy);
      }
      locks := locks + {lock.value};
      o := UploadLocked(key, doc, body, luck, c);
      locks := locks - {lock.value};
    }

    method DeleteLocked(key: BotKey, doc: string, luck: Luck) returns (o: Outcome)
      requires Holds(key, doc)
      modifies this`rows, this`collections
      ensures (Value(), o) == Perform(old(Value()), Request.Delete(key, doc), luck)
    {
      DeleteStep(Value(), Request.Delete(key, doc), Looking, luck);
      if Strikes(luck.fault(Looking)) {
        return Broken(luck.fault(Looking));
      }
      if doc !in rows || rows[doc].key != key {
        return Raised(NotFound);
      }
      o := Remove(key, doc, rows[doc].status == Deleted, luck);
    }

    /** The two writes of a delete. */
    method Remove(key: BotKey, doc: string, already: bool, luck: Luck) returns (o: Outcome)
      requires doc in rows
      modifies this`rows, this`collections
      ensures (Value(), o) == Alone(old(Value()), Request.Delete(key, doc), Removing(already), luck)
    {
      DeleteStep(Value(), Request.Delete(key, doc), Removing(already), luck);
      var failed, count := DeleteByDocId(key.Name(), doc, luck.fault(Removing(already)));
      if failed {
        return Broken(luck.fault(Removing(already)));
      }
      o := Mark(key, doc, already, count, luck);
    }

    method Mark(key: BotKey, doc: string, already: bool, count: nat, luck: Luck) returns (o: Outcome)
      requires doc in rows
      modifies this`rows
      ensures (Value(), o) == Alone(old(Value()), Request.Delete(key, doc), Marking(already, count), luck)
    {
      DeleteStep(Value(), Request.Delete(key, doc), Marking(already, count), luck);
      var failed := SaveDeleted(doc, luck.fault(Marking(already, count)));
      o := if failed then Broken(luck.fault(Marking(already, count))) else Removed(count, already);
    }

    /** The delete pipeline. */
    method Delete(key: BotKey, doc: string, luck: Luck) returns (o: Outcome)
      modifies this
      ensures locks == old(locks)
      ensures (Value(), o) == Serve(env, old(Value()), old(locks), Request.Delete(key, doc), luck)
    {
      var lock := env.lockKey(key.tenant, key.bot, doc);
      if lock.Failure? {
        return Raised(InvalidName);
      }
      if lock.value in locks {
        return Raised(Busy);
      }
      locks := locks + {lock.value};
      o := DeleteLocked(key, doc, luck);
      locks := locks - {lock.value};
    }
  }
}
