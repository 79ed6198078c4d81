/** What a request that meets no failure is answered, and what it changes, written out in full. */
module Answers {
  import opened Effects
  import opened Protocol
  import opened Recovery
  import opened Results
  import opened Serial
  import opened Stores
  import Text

  // ---- the specification

  /** last_refreshed_at of one row moves, and nothing else. */
  predicate OnlyRefreshed(st: Stores, end: Stores, doc: string) {
    && doc in st.rows && end.rows.Keys == st.rows.Keys
    && (forall e :: e in st.rows && e != doc ==> end.rows[e] == st.rows[e])
    && var row := st.rows[doc];
       && end.rows[doc] == Row(row.key, row.rawPayload, row.hash, row.chunkCount, row.itemCount, row.status, row.error,
                               row.refreshed + 1)
       && end.tenants == st.tenants && end.bots == st.bots && end.collections == st.collections
  }

  /** Another document of the bot is active with this content. */
  predicate Carried(st: Stores, key: BotKey, doc: string, hash: string, e: string) {
    && e in st.rows && e != doc && st.rows[e].key == key && st.rows[e].hash == hash
    && st.rows[e].status == Active && st.rows[e].chunkCount >= 1
  }

  /** The column limits, and the JSON encoder, which has no form for a UUID. */
  predicate RowAccepted(c: Content) {
    && |c.hash| <= 80
    && (forall i :: 20 <= i < |c.body.sourceType| ==> c.body.sourceType[i] == ' ')
    && (c.body.filename.Some? ==> forall i :: 500 <= i < |c.body.filename.value| ==> c.body.filename.value[i] == ' ')
    && c.body.docId.None?
  }

  /** Each point is stored, over what its id held; of the rest, a replaced document's points are gone. */
  ghost predicate Written(before: Collection, after: Collection, doc: string, replace: bool, points: seq<Point>) {
    && (forall i :: 0 <= i < |points| ==> points[i].id in after && after[points[i].id] == points[i].payload)
    && (forall id :: (forall i :: 0 <= i < |points| ==> points[i].id != id) ==>
          (id in after <==> id in before && !(replace && before[id].doc == doc))
          && (id in after ==> after[id] == before[id]))
  }

  /** The stores with the tenant and the bot registered. */
  function Enrolled(st: Stores, key: BotKey): Stores {
    Stores(st.tenants + {key.tenant}, st.bots[("t_" + key.tenant + "__b_" + key.bot) := key], st.rows, st.collections)
  }

  /** From there on: the bot owns its name. */
  ghost predicate Answered(st: Stores, key: BotKey, doc: string, c: Content, end: Stores, o: Outcome) {
    if doc in st.rows && st.rows[doc].key != key then o == Raised(Collision) && end == st
    else if doc in st.rows && st.rows[doc].chunkCount >= 1 && st.rows[doc].hash == c.hash then
      OnlyRefreshed(st, end, doc) && o == NoChange(doc, st.rows[doc].chunkCount, st.rows[doc].itemCount)
    else if exists e :: Carried(st, key, doc, c.hash, e) then
      exists e :: Carried(st, key, doc, c.hash, e) && OnlyRefreshed(st, end, e)
                  && o == NoChange(e, st.rows[e].chunkCount, st.rows[e].itemCount)
    else
      && end.tenants == st.tenants && end.bots == st.bots
      && Stored(st, key, doc, c, end, o)
  }

  /** No row settles it: the collection is there, and the points are written unless something is wrong with them. */
  ghost predicate Stored(st: Stores, key: BotKey, doc: string, c: Content, end: Stores, o: Outcome) {
    var name := "t_" + key.tenant + "__b_" + key.bot;
    var before := if name in st.collections then st.collections[name] else map[];
    && name in end.collections
    && (forall n :: n != name ==> (n in end.collections <==> n in st.collections)
                                  && (n in st.collections ==> end.collections[n] == st.collections[n]))
    && if |c.points| == 0 then end.collections[name] == before && end.rows == st.rows && o == Raised(NoContent)
       else if |c.points| > 5000 then end.collections[name] == before && end.rows == st.rows && o == Raised(TooLarge)
       else if exists p :: p in c.points && Text.Blank(p.payload.chunk.text) then
         end.collections[name] == before && end.rows == st.rows && o == Raised(Unembeddable)
       else
         && Written(before, end.collections[name], doc, doc in st.rows, c.points)
         && if !RowAccepted(c) then end.rows == st.rows && o == Raised(RowRefused)
            else
              && end.rows.Keys == st.rows.Keys + {doc}
              && (forall e :: e in st.rows && e != doc ==> end.rows[e] == st.rows[e])
              && end.rows[doc] == Row(key, Some(c.body), c.hash, |c.points|, |c.body.items|, Active, None,
                                      if doc in st.rows then st.rows[doc].refreshed + 1 else 0)
              && o == if doc in st.rows then Replaced(|c.points|, |c.body.items|)
                      else Created(|c.points|, |c.body.items|)
  }

  ghost predicate UploadAnswered(st: Stores, key: BotKey, doc: string, c: Content, end: Stores, o: Outcome) {
    var name := "t_" + key.tenant + "__b_" + key.bot;
    if name in st.bots && st.bots[name] != key then
      o == Raised(BotConflict) && end == Stores(st.tenants + {key.tenant}, st.bots, st.rows, st.collections)
    else Answered(Enrolled(st, key), key, doc, c, end, o)
  }

  // ---- the steps

  /** Without failures a step is what its program point does. */
  lemma CalmUpload(st: Stores, req: Request, pc: Pc, luck: Luck)
    requires Running(pc) && req.Upload? && Calm(luck)
    ensures var (next, pc') := AdvanceUpload(st, req, pc, Pick(st, req, luck));
            Holding(pc') && Alone(st, req, pc, luck) == Alone(next, req, pc', luck)
  {
    UploadStep(st, req, pc, luck);
    assert !Strikes(luck.fault(pc));
  }

  lemma AnsweredAtRegistration(st: Stores, req: Request, luck: Luck)
    requires req.Upload? && Calm(luck)
    ensures var name := "t_" + req.key.tenant + "__b_" + req.key.bot;
            Perform(st, req, luck) ==
              if name in st.bots && st.bots[name] != req.key then
                (Stores(st.tenants + {req.key.tenant}, st.bots, st.rows, st.collections), Raised(BotConflict))
              else Alone(Enrolled(st, req.key), req, Looking, luck)
  {
    CalmUpload(st, req, AddingTenant, luck);
    var st1 := AddTenant(st, req.key);
    CalmUpload(st1, req, AddingBot, luck);
  }

  lemma RefreshAnswers(st: Stores, req: Request, luck: Luck, e: string, n: int, m: int)
    requires req.Upload? && Calm(luck) && e in st.rows
    ensures var (end, o) := Alone(st, req, Refreshing(e, n, m), luck);
            OnlyRefreshed(st, end, e) && o == NoChange(e, n, m)
  {
    CalmUpload(st, req, Refreshing(e, n, m), luck);
  }

  /** Reading the row settles it, or the content-match query comes next. */
  lemma AnsweredAtRow(st: Stores, req: Request, luck: Luck)
    requires req.Upload? && Calm(luck) && req.doc in st.rows
    requires st.rows[req.doc].key != req.key
             || (st.rows[req.doc].chunkCount >= 1 && st.rows[req.doc].hash == req.content.hash)
    ensures var (end, o) := Alone(st, req, Looking, luck); Answered(st, req.key, req.doc, req.content, end, o)
  {
    CalmUpload(st, req, Looking, luck);
    if st.rows[req.doc].key == req.key {
      RefreshAnswers(st, req, luck, req.doc, st.rows[req.doc].chunkCount, st.rows[req.doc].itemCount);
    }
  }

  /** The row does not settle it. */
  predicate RowOpen(st: Stores, key: BotKey, doc: string, hash: string) {
    doc in st.rows ==> st.rows[doc].key == key && !(st.rows[doc].chunkCount >= 1 && st.rows[doc].hash == hash)
  }

  lemma RowLeadsOn(st: Stores, req: Request, luck: Luck)
    requires req.Upload? && Calm(luck) && RowOpen(st, req.key, req.doc, req.content.hash)
    ensures Alone(st, req, Looking, luck) == Alone(st, req, Matching(req.doc in st.rows), luck)
  {
    CalmUpload(st, req, Looking, luck);
  }

  lemma AnsweredAtMatch(st: Stores, req: Request, luck: Luck)
    requires req.Upload? && Calm(luck) && Chooses(luck) && RowOpen(st, req.key, req.doc, req.content.hash)
    requires exists e :: Carried(st, req.key, req.doc, req.content.hash, e)
    ensures var (end, o) := Alone(st, req, Looking, luck); Answered(st, req.key, req.doc, req.content, end, o)
  {
    var e0 :| Carried(st, req.key, req.doc, req.content.hash, e0);
    assert e0 in Duplicates(st, req.key, req.doc, req.content.hash);
    var e := luck.first(Duplicates(st, req.key, req.doc, req.content.hash));
    assert Carried(st, req.key, req.doc, req.content.hash, e);
    RowLeadsOn(st, req, luck);
    CalmUpload(st, req, Matching(req.doc in st.rows), luck);
    RefreshAnswers(st, req, luck, e, st.rows[e].chunkCount, st.rows[e].itemCount);
  }

  lemma LeadsToChunking(st: Stores, req: Request, luck: Luck)
    requires req.Upload? && Calm(luck) && RowOpen(st, req.key, req.doc, req.content.hash)
    requires !exists e :: Carried(st, req.key, req.doc, req.content.hash, e)
    ensures Alone(st, req, Looking, luck) ==
            Alone(EnsureCollection(st, req.key.Name()), req, Chunking(req.doc in st.rows), luck)
  {
    var dups := Duplicates(st, req.key, req.doc, req.content.hash);
    assert forall e :: e in dups ==> Carried(st, req.key, req.doc, req.content.hash, e);
    assert dups == {};
    RowLeadsOn(st, req, luck);
    CalmUpload(st, req, Matching(req.doc in st.rows), luck);
    CalmUpload(st, req, Collecting(req.doc in st.rows), luck);
  }

  /** Something is wrong with the points. */
  lemma AnsweredBeforeWrite(st: Stores, req: Request, luck: Luck, replace: bool)
    requires req.Upload? && Calm(luck) && !Writable(req.content.points)
    ensures Alone(st, req, Chunking(replace), luck) ==
            (st, if |req.content.points| == 0 then Raised(NoContent)
                 else if |req.content.points| > 5000 then Raised(TooLarge)
                 else Raised(Unembeddable))
  {
    CalmUpload(st, req, Chunking(replace), luck);
    if 0 < |req.content.points| <= 5000 {
      CalmUpload(st, req, Embedding(replace), luck);
    }
  }

  /** What is left of the collection when the upsert comes. */
  function Ground(st: Stores, name: string, doc: string, replace: bool): Collection
    requires name in st.collections
  {
    if replace then Without(st.collections[name], doc) else st.collections[name]
  }

  lemma AnsweredByWrite(st: Stores, req: Request, luck: Luck, replace: bool)
    requires req.Upload? && Calm(luck) && Writable(req.content.points) && req.key.Name() in st.collections
    ensures var name, c := req.key.Name(), req.content;
            var st1 := st.(collections := st.collections[name := Upsert(Ground(st, name, req.doc, replace), c.points)]);
            Alone(st, req, Chunking(replace), luck) ==
              if !Storable(c) then (st1, Raised(RowRefused))
              else (SaveRow(st1, req.key, req.doc, c),
                    if replace then Replaced(|c.points|, |c.body.items|) else Created(|c.points|, |c.body.items|))
  {
    CalmUpload(st, req, Chunking(replace), luck);
    CalmUpload(st, req, Embedding(replace), luck);
    if replace {
      CalmUpload(st, req, Clearing, luck);
      var name := req.key.Name();
      var st1 := ClearDoc(st, name, req.doc);
      WriteOn(st1, req, luck, true);
      var c := Upsert(Ground(st, name, req.doc, true), req.content.points);
      assert st1.collections[name := c] == st.collections[name := c];
    } else {
      WriteOn(st, req, luck, false);
    }
  }

  lemma WriteOn(st: Stores, req: Request, luck: Luck, replace: bool)
    requires req.Upload? && Calm(luck) && req.key.Name() in st.collections
    ensures var name, c := req.key.Name(), req.content;
            var st1 := st.(collections := st.collections[name := Upsert(st.collections[name], c.points)]);
            Alone(st, req, Upserting(replace), luck) ==
              if !Storable(c) then (st1, Raised(RowRefused))
              else (SaveRow(st1, req.key, req.doc, c),
                    if replace then Replaced(|c.points|, |c.body.items|) else Created(|c.points|, |c.body.items|))
  {
    CalmUpload(st, req, Upserting(replace), luck);
    CalmUpload(UpsertInto(st, req.key.Name(), req.content.points), req, Saving(replace), luck);
  }

  // ---- what an upsert leaves

  lemma {:induction false} Untouched(c: Collection, points: seq<Point>, id: PointId)
    requires forall i :: 0 <= i < |points| ==> points[i].id != id
    ensures id in Upsert(c, points) <==> id in c
    ensures id in c ==> Upsert(c, points)[id] == c[id]
  {
    if points != [] {
      Untouched(c, points[..|points| - 1], id);
    }
  }

  lemma UpsertWrites(before: Collection, doc: string, replace: bool, points: seq<Point>)
    requires DistinctIds(points)
    ensures Written(before, Upsert(if replace then Without(before, doc) else before, points), doc, replace, points)
  {
    var ground := if replace then Without(before, doc) else before;
    forall i | 0 <= i < |points|
      ensures points[i].id in Upsert(ground, points) && Upsert(ground, points)[points[i].id] == points[i].payload
    {
      UpsertReads(points, i);
      assert points[i] in points;
      Unmoved(ground, points, points[i].id);
    }
    forall id | forall i :: 0 <= i < |points| ==> points[i].id != id
      ensures id in Upsert(ground, points) <==> id in before && !(replace && before[id].doc == doc)
      ensures id in Upsert(ground, points) ==> Upsert(ground, points)[id] == before[id]
    {
      Untouched(ground, points, id);
    }
  }

  lemma RowAcceptedIff(c: Content)
    ensures Storable(c) <==> RowAccepted(c)
  {}

  lemma WritableIff(points: seq<Point>)
    ensures Writable(points) <==>
            0 < |points| <= 5000 && !exists p :: p in points && Text.Blank(p.payload.chunk.text)
  {}

  // ---- the whole answer

  lemma AnsweredBeforeStore(st: Stores, req: Request, luck: Luck)
    requires req.Upload? && Calm(luck) && !Writable(req.content.points)
    requires RowOpen(st, req.key, req.doc, req.content.hash)
    requires !exists e :: Carried(st, req.key, req.doc, req.content.hash, e)
    ensures var (end, o) := Alone(st, req, Looking, luck);
            && end == EnsureCollection(st, req.key.Name())
            && Stored(st, req.key, req.doc, req.content, end, o)
  {
    LeadsToChunking(st, req, luck);
    AnsweredBeforeWrite(EnsureCollection(st, req.key.Name()), req, luck, req.doc in st.rows);
    WritableIff(req.content.points);
  }

  lemma AnsweredByStore(st: Stores, req: Request, luck: Luck)
    requires req.Upload? && Calm(luck) && Writable(req.content.points) && DistinctIds(req.content.points)
    requires RowOpen(st, req.key, req.doc, req.content.hash)
    requires !exists e :: Carried(st, req.key, req.doc, req.content.hash, e)
    ensures var (end, o) := Alone(st, req, Looking, luck);
            && end.tenants == st.tenants && end.bots == st.bots
            && Stored(st, req.key, req.doc, req.content, end, o)
  {
    var name, replace, c := req.key.Name(), req.doc in st.rows, req.content;
    var st1 := EnsureCollection(st, name);
    var after := Upsert(Ground(st1, name, req.doc, replace), c.points);
    LeadsToChunking(st, req, luck);
    AnsweredByWrite(st1, req, luck, replace);
    WritableIff(c.points);
    RowAcceptedIff(c);
    UpsertWrites(Held(st, name), req.doc, replace, c.points);
    assert st1.collections[name := after] == st.collections[name := after];
    StoredWhole(st, req, Held(st, name), after);
  }

  /** Two components: the collection as written, and the row as saved or not. */
  lemma StoredWhole(st: Stores, req: Request, before: Collection, after: Collection)
    requires req.Upload? && Written(before, after, req.doc, req.doc in st.rows, req.content.points)
    requires before == Held(st, req.key.Name())
    requires 0 < |req.content.points| <= 5000
             && !exists p :: p in req.content.points && Text.Blank(p.payload.chunk.text)
    ensures var name, c, replace := req.key.Name(), req.content, req.doc in st.rows;
            var st1 := st.(collections := st.collections[name := after]);
            && (!RowAccepted(c) ==> Stored(st, req.key, req.doc, c, st1, Raised(RowRefused)))
            && (RowAccepted(c) ==>
                  Stored(st, req.key, req.doc, c, SaveRow(st1, req.key, req.doc, c),
                         if replace then Replaced(|c.points|, |c.body.items|) else Created(|c.points|, |c.body.items|)))
  {}

  lemma AnsweredFromRow(st: Stores, req: Request, luck: Luck)
    requires req.Upload? && Calm(luck) && Chooses(luck) && DistinctIds(req.content.points)
    ensures var (end, o) := Alone(st, req, Looking, luck); Answered(st, req.key, req.doc, req.content, end, o)
  {
    if !RowOpen(st, req.key, req.doc, req.content.hash) {
      AnsweredAtRow(st, req, luck);
    } else if exists e :: Carried(st, req.key, req.doc, req.content.hash, e) {
      AnsweredAtMatch(st, req, luck);
    } else if Writable(req.content.points) {
      AnsweredByStore(st, req, luck);
    } else {
      AnsweredBeforeStore(st, req, luck);
    }
  }

  /**
   * Every answer that an upload without failures can get, when it gets it, and all that it then changes in both
   * stores.
   */
  lemma UploadIsAnswered(env: Env, st: Stores, req: Request, luck: Luck)
    requires Call(env, st, req, luck) && Calm(luck) && req.Upload?
    ensures var (end, o) := Perform(st, req, luck); UploadAnswered(st, req.key, req.doc, req.content, end, o)
  {
    GenuineWellFormed(env, req);
    AnsweredAtRegistration(st, req, luck);
    AnsweredFromRow(Enrolled(st, req.key), req, luck);
  }

  // ---- deletes

  /**
   * Whatever fails around it, a delete that is answered with a count tells how many points the document had, unless
   * the removal was answered only on a retry: then it tells 0. It says whether the row was deleted already.
   */
  lemma DeleteCounts(st: Stores, req: Request, luck: Luck)
    requires req.Delete?
    ensures var o := Perform(st, req, luck).1;
            o.Removed? ==>
              && req.doc in st.rows && o.already == (st.rows[req.doc].status == Deleted)
              && o.chunks == if luck.fault(Removing(o.already)).Retried? then 0
                             else |ViewOf(st, req.key, req.doc).points|
  {
    DeleteStep(st, req, Looking, luck);
    if req.doc in st.rows && st.rows[req.doc].key == req.key && !Strikes(luck.fault(Looking)) {
      RemovalCounts(st, req, luck, st.rows[req.doc].status == Deleted);
    }
  }

  lemma RemovalCounts(st: Stores, req: Request, luck: Luck, already: bool)
    requires req.Delete? && req.doc in st.rows
    ensures var o := Alone(st, req, Removing(already), luck).1;
            o.Removed? ==>
              && o.already == already
              && o.chunks == if luck.fault(Removing(already)).Retried? then 0 else |ViewOf(st, req.key, req.doc).points|
  {
    var f, n := luck.fault(Removing(already)), |ViewOf(st, req.key, req.doc).points|;
    DeleteStep(st, req, Removing(already), luck);
    if !Strikes(f) {
      MarkCounts(ClearDoc(st, req.key.Name(), req.doc), req, luck, already, if f.Retried? then 0 else n);
    }
  }

  lemma MarkCounts(st: Stores, req: Request, luck: Luck, already: bool, n: nat)
    requires req.Delete? && req.doc in st.rows
    ensures var o := Alone(st, req, Marking(already, n), luck).1; o.Removed? ==> o == Removed(n, already)
  {
    DeleteStep(st, req, Marking(already, n), luck);
  }

  ghost predicate DeleteAnswered(st: Stores, key: BotKey, doc: string, end: Stores, o: Outcome) {
    if doc !in st.rows || st.rows[doc].key != key then o == Raised(NotFound) && end == st
    else
      var name, row := "t_" + key.tenant + "__b_" + key.bot, st.rows[doc];
      && end.tenants == st.tenants && end.bots == st.bots
      && end.collections.Keys == st.collections.Keys
      && (forall n :: n in st.collections && n != name ==> end.collections[n] == st.collections[n])
      && (name in st.collections ==>
            (forall id :: id in end.collections[name] <==>
                            id in st.collections[name] && st.collections[name][id].doc != doc)
            && (forall id :: id in end.collections[name] ==>
                               end.collections[name][id] == st.collections[name][id]))
      && end.rows.Keys == st.rows.Keys
      && (forall e :: e in st.rows && e != doc ==> end.rows[e] == st.rows[e])
      && end.rows[doc] == Row(row.key, row.rawPayload, row.hash, 0, row.itemCount, Deleted, None, row.refreshed + 1)
      && o.Removed? && o.already == (row.status == Deleted)
  }

  /** The same of a delete without failures; its count is that of DeleteCounts. */
  lemma DeleteIsAnswered(st: Stores, req: Request, luck: Luck)
    requires req.Delete? && Calm(luck)
    ensures var (end, o) := Perform(st, req, luck); DeleteAnswered(st, req.key, req.doc, end, o)
  {
    assert !Strikes(luck.fault(Looking));
    DeleteStep(st, req, Looking, luck);
    if req.doc in st.rows && st.rows[req.doc].key == req.key {
      RemovalAnswered(st, req, luck, st.rows[req.doc].status == Deleted);
      RemovalWritten(st, req.key, req.doc, Perform(st, req, luck).1);
    }
  }

  lemma RemovalAnswered(st: Stores, req: Request, luck: Luck, already: bool)
    requires req.Delete? && Calm(luck) && req.doc in st.rows
    ensures var (end, o) := Alone(st, req, Removing(already), luck);
            end == MarkDeleted(ClearDoc(st, req.key.Name(), req.doc), req.doc) && o.Removed? && o.already == already
  {
    var f, n := luck.fault(Removing(already)), |ViewOf(st, req.key, req.doc).points|;
    var pc := Marking(already, if f.Retried? then 0 else n);
    DeleteStep(st, req, Removing(already), luck);
    assert !Strikes(f) && !Strikes(luck.fault(pc));
    DeleteStep(ClearDoc(st, req.key.Name(), req.doc), req, pc, luck);
  }

  lemma RemovalWritten(st: Stores, key: BotKey, doc: string, o: Outcome)
    requires doc in st.rows && st.rows[doc].key == key && o.Removed? && o.already == (st.rows[doc].status == Deleted)
    ensures DeleteAnswered(st, key, doc, MarkDeleted(ClearDoc(st, key.Name(), doc), doc), o)
  {}
}
