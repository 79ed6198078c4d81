/** What one request may do to its document: the specification shared by the pipelines and the protocol. */
module Effects {
  import opened Results
  import opened Stores

  /** A document as both stores hold it, last_refreshed_at aside. */
  datatype View = View(row: Option<Row>, points: Collection)

  function RowOf(st: Stores, doc: string): Option<Row> {
    if doc in st.rows then Some(st.rows[doc].(refreshed := 0)) else None
  }

  function ViewOf(st: Stores, key: BotKey, doc: string): View {
    View(RowOf(st, doc), DocPoints(Held(st, key.Name()), doc))
  }

  datatype Request =
    | Upload(key: BotKey, doc: string, content: Content)
    | Delete(key: BotKey, doc: string)

  datatype Error =
    | InvalidName | Busy              // before the lock is held
    | BotConflict                     // another bot owns the collection name
    | Collision                       // the document belongs to another bot
    | NotFound
    | NoContent | TooLarge | Unembeddable
    | RowRefused                      // the database does not accept the row
    | StoreFailure                    // a store call, the tokenizer or the model failed

  datatype Outcome =
    | Created(chunks: int, items: int)
    | Replaced(chunks: int, items: int)
    | NoChange(doc: string, chunks: int, items: int)
    | Removed(chunks: int, already: bool)
    | Raised(error: Error)
    | Died

  /**
   * Arbitrary: any call may fail before or after its effect, and a process may die there.
   * Clean: but a failed upsert has no effect, and the row save of an upload is answered once it is reached: the
   * database saves the row, or refuses it if it is not storable.
   * Lossless: moreover nothing fails between the removal of points and the row save that accounts for it.
   */
  datatype Faults = Arbitrary | Clean | Lossless

  // ---- the stages of a request, seen on its document

  function Cleared(v: View): View { v.(points := map[]) }

  /** Before the upsert: a replace has removed the old points, a create has not. */
  function Base(v: View): View { if v.row.Some? then Cleared(v) else v }

  function Stored(v: View, c: Content): View {
    Base(v).(points := Upsert(Base(v).points, c.points))
  }

  function Saved(v: View, key: BotKey, c: Content): View {
    Stored(v, c).(row := Some(NewRow(key, c, 0)))
  }

  function Marked(v: View): View
    requires v.row.Some?
  {
    View(Some(v.row.value.(status := Deleted, chunkCount := 0, error := None)), map[])
  }

  predicate Mine(v: View, key: BotKey) { v.row.Some? && v.row.value.key == key }

  predicate Usable(v: View, key: BotKey) { v.row.Some? ==> v.row.value.key == key }

  /** The row already carries this content. */
  predicate Unchanged(v: View, hash: string) {
    v.row.Some? && v.row.value.chunkCount > 0 && v.row.value.hash == hash
  }

  /** The row and the points of the request's document, before and after, for every way a request can end. */
  ghost predicate Effect(faults: Faults, req: Request, o: Outcome, v: View, w: View) {
    match req
    case Upload(key, doc, content) => UploadEffect(faults, key, doc, content, o, v, w)
    case Delete(key, doc) => DeleteEffect(faults, key, o, v, w)
  }

  ghost predicate UploadEffect(
    faults: Faults, key: BotKey, doc: string, c: Content, o: Outcome, v: View, w: View)
  {
    match o
    case Created(n, m) => v.row.None? && Writable(c.points) && Storable(c) && n == |c.points| && m == |c.body.items|
                          && w == Saved(v, key, c)
    case Replaced(n, m) => Mine(v, key) && !Unchanged(v, c.hash) && Writable(c.points) && Storable(c)
                           && n == |c.points| && m == |c.body.items| && w == Saved(v, key, c)
    case NoChange(e, n, m) =>
      w == v && n > 0 && Usable(v, key) && (Unchanged(v, c.hash) <==> e == doc)
      && (e == doc ==> n == v.row.value.chunkCount && m == v.row.value.itemCount)
    case Raised(Collision) => w == v && v.row.Some? && v.row.value.key != key
    case Raised(NoContent) => w == v && Usable(v, key) && |c.points| == 0
    case Raised(TooLarge) => w == v && Usable(v, key) && |c.points| > MAX_CHUNKS_PER_DOC
    case Raised(Unembeddable) => w == v && Usable(v, key) && 0 < |c.points| <= MAX_CHUNKS_PER_DOC && !Writable(c.points)
    case Raised(BotConflict) => w == v
    case Raised(RowRefused) => Usable(v, key) && !Unchanged(v, c.hash) && Writable(c.points) && !Storable(c)
                               && w == Stored(v, c)
    case Raised(StoreFailure) => Interrupted(faults, key, c, v, w)
    case Died => Interrupted(faults, key, c, v, w)
    case _ => false
  }

  /** Where a fault can leave an upload's document. */
  ghost predicate Interrupted(faults: Faults, key: BotKey, c: Content, v: View, w: View) {
    || w == v
    || (!faults.Lossless? && Usable(v, key) && !Unchanged(v, c.hash) && Writable(c.points) &&
        (|| w == Base(v)
         || (faults.Arbitrary? && (w == Stored(v, c) || (Storable(c) && w == Saved(v, key, c))))))
  }

  ghost predicate DeleteEffect(faults: Faults, key: BotKey, o: Outcome, v: View, w: View) {
    match o
    case Removed(n, already) => Mine(v, key) && w == Marked(v) && (already <==> v.row.value.status == Deleted)
                                && (n == |v.points| || n == 0)
    case Raised(NotFound) => w == v && !Mine(v, key)
    case Raised(StoreFailure) => DeleteInterrupted(faults, key, v, w)
    case Died => DeleteInterrupted(faults, key, v, w)
    case _ => false
  }

  ghost predicate DeleteInterrupted(faults: Faults, key: BotKey, v: View, w: View) {
    w == v || (!faults.Lossless? && Mine(v, key) && (w == Cleared(v) || w == Marked(v)))
  }

  // ---- the store calls, seen on one document

  /** Calls that no document can see: tenant, bot, collection creation, last_refreshed_at. */
  lemma SilentCalls(st: Stores, key: BotKey, target: string, name: string, k: BotKey, e: string)
    ensures ViewOf(AddTenant(st, key), k, e) == ViewOf(st, k, e)
    ensures ViewOf(AddBot(st, key), k, e) == ViewOf(st, k, e)
    ensures ViewOf(Touch(st, target), k, e) == ViewOf(st, k, e)
    ensures ViewOf(EnsureCollection(st, name), k, e) == ViewOf(st, k, e)
  {}

  lemma ClearSeen(st: Stores, key: BotKey, doc: string, k: BotKey, e: string)
    ensures e != doc ==> ViewOf(ClearDoc(st, key.Name(), doc), k, e) == ViewOf(st, k, e)
    ensures ViewOf(ClearDoc(st, key.Name(), doc), key, doc) == Cleared(ViewOf(st, key, doc))
  {
    var c := Held(st, key.Name());
    assert e != doc ==> DocPoints(Without(c, doc), e) == DocPoints(c, e);
    assert DocPoints(Without(c, doc), doc) == map[];
  }

  lemma UpsertSeen(env: Env, st: Stores, key: BotKey, doc: string, c: Content, k: BotKey, e: string)
    requires CollisionFree(env) && Identified(env, key, doc, c)
    requires key.Name() in st.collections && WellKeyed(env, st.collections[key.Name()])
    ensures WellKeyed(env, UpsertInto(st, key.Name(), c.points).collections[key.Name()])
    ensures e != doc ==> ViewOf(UpsertInto(st, key.Name(), c.points), k, e) == ViewOf(st, k, e)
    ensures var v := ViewOf(st, key, doc);
            ViewOf(UpsertInto(st, key.Name(), c.points), key, doc) == v.(points := Upsert(v.points, c.points))
  {
    UpsertLocal(env, st.collections[key.Name()], c.points, doc, e);
    UpsertLocal(env, st.collections[key.Name()], c.points, doc, doc);
  }

  lemma SaveSeen(st: Stores, key: BotKey, doc: string, c: Content, k: BotKey, e: string)
    ensures e != doc ==> ViewOf(SaveRow(st, key, doc, c), k, e) == ViewOf(st, k, e)
    ensures ViewOf(SaveRow(st, key, doc, c), k, doc) == ViewOf(st, k, doc).(row := Some(NewRow(key, c, 0)))
  {}

  lemma MarkSeen(st: Stores, doc: string, k: BotKey, e: string)
    requires doc in st.rows
    ensures e != doc ==> ViewOf(MarkDeleted(st, doc), k, e) == ViewOf(st, k, e)
    ensures var v := ViewOf(st, k, doc); ViewOf(MarkDeleted(st, doc), k, doc) == View(Marked(v).row, v.points)
  {}

  // ---- agreement of the two stores on one document

  ghost predicate OneHash(points: Collection, hash: string) { forall id :: id in points ==> points[id].hash == hash }

  /** The row accounts for exactly these points. */
  ghost predicate Accounts(row: Row, points: Collection) { |points| == row.chunkCount && OneHash(points, row.hash) }

  /** No row or a deleted row: no points. An active row: no points, or exactly those it accounts for. */
  ghost predicate Agree(v: View) {
    match v.row
    case None => v.points == map[]
    case Some(row) =>
      match row.status
      case Deleted => v.points == map[]
      case Active => v.points == map[] || Accounts(row, v.points)
      case _ => false
  }

  /** Agreement without the way out: an active row has its points. */
  ghost predicate AgreeFully(v: View) {
    Agree(v) && (v.row.Some? && v.row.value.status == Active ==> Accounts(v.row.value, v.points))
    && (v.row.Some? && v.row.value.status == Deleted ==> v.row.value.chunkCount == 0)
  }

  /** From an agreeing document, the upload's points end up alone and the new row accounts for them. */
  lemma SavedAgrees(env: Env, v: View, key: BotKey, doc: string, c: Content)
    requires Identified(env, key, doc, c) && (Agree(v) || v.row.Some?)
    ensures AgreeFully(Saved(v, key, c))
    ensures OneHash(Stored(v, c).points, c.hash)
  {
    UpsertFresh(c.points);
    assert Base(v).points == map[];
    forall id | id in Upsert(map[], c.points)
      ensures Upsert(map[], c.points)[id].hash == c.hash
    {
      UpsertSource(map[], c.points, id);
    }
  }

  ghost predicate WellFormed(env: Env, req: Request) {
    req.Upload? ==> Identified(env, req.key, req.doc, req.content)
  }

  /** An upload got past its upsert, and the database then accepted its row or refused it. */
  predicate PastUpsert(o: Outcome) { o.Created? || o.Replaced? || o == Raised(RowRefused) }

  /** Points that no row accounts for. */
  lemma RefusedDisagrees(env: Env, v: View, key: BotKey, doc: string, c: Content)
    requires Identified(env, key, doc, c) && Writable(c.points) && Agree(v) && !Unchanged(v, c.hash)
    ensures !Agree(Stored(v, c))
  {
    SavedAgrees(env, v, key, doc, c);
    UpsertFresh(c.points);
    var p := c.points[0];
    UpsertReads(c.points, 0);
    assert Base(v).points == map[];
    assert Stored(v, c).points[p.id] == p.payload;
    assert p in c.points;
  }

  /** The upsert of a changed document took effect and no row save accounts for it. */
  ghost predicate Unaccounted(req: Request, v: View, w: View) {
    req.Upload? && Writable(req.content.points) && !Unchanged(v, req.content.hash) && w == Stored(v, req.content)
  }

  /**
   * Whatever fails, a request takes an agreeing document to an agreeing one with exactly one exception: the upsert of
   * an upload took effect and its row save did not.
   */
  lemma AgreementLostIff(env: Env, faults: Faults, req: Request, o: Outcome, v: View, w: View)
    requires WellFormed(env, req) && Effect(faults, req, o, v, w) && Agree(v)
    ensures Agree(w) <==> !Unaccounted(req, v, w)
  {
    if req.Upload? {
      SavedAgrees(env, v, req.key, req.doc, req.content);
      if Unaccounted(req, v, w) {
        RefusedDisagrees(env, v, req.key, req.doc, req.content);
      }
    }
  }

  /**
   * Under clean faults the exception is an upload whose row the database refuses after the upsert. An upload that
   * gets that far leaves agreement behind if and only if its row is storable.
   */
  lemma EffectAgrees(env: Env, faults: Faults, req: Request, o: Outcome, v: View, w: View)
    requires WellFormed(env, req) && !faults.Arbitrary?
    requires Effect(faults, req, o, v, w) && Agree(v)
    ensures Agree(w) <==> o != Raised(RowRefused)
    ensures req.Upload? && PastUpsert(o) ==> (Agree(w) <==> Storable(req.content))
    ensures faults.Lossless? && AgreeFully(v) && Agree(w) ==> AgreeFully(w)
  {
    if req.Upload? {
      SavedAgrees(env, v, req.key, req.doc, req.content);
      if o == Raised(RowRefused) {
        RefusedDisagrees(env, v, req.key, req.doc, req.content);
      }
    }
  }
}
