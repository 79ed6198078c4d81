/** What one call leaves behind, whatever state earlier failures left the two stores in. */
module Recovery {
  import opened Chunker
  import opened Effects
  import opened Guarantees
  import opened Naming
  import opened Ownership
  import opened Protocol
  import opened Results
  import opened Serial
  import opened Stores
  import opened Text
  import opened Utf8

  /** A call that gets the lock, on any stores whose points sit under their own chunk ids. */
  ghost predicate Call(env: Env, st: Stores, req: Request, luck: Luck) {
    CollisionFree(env) && AllKeyed(env, st) && Genuine(env, req) && KeyOf(env, req).Success? && Chooses(luck)
  }

  /** Every call has its request's effect on its document, as the fault model has it. */
  lemma CallHasEffect(env: Env, faults: Faults, st: Stores, req: Request, luck: Luck)
    requires Call(env, st, req, luck) && Allowed(faults, luck)
    ensures var (end, o) := Perform(st, req, luck);
            AllKeyed(env, end) && Effect(faults, req, o, ViewOf(st, req.key, req.doc), ViewOf(end, req.key, req.doc))
  {
    var (end, o) := Perform(st, req, luck);
    var actions := PerformIsRun(env, faults, st, req, luck);
    RunKeepsInv(env, faults, _ => req.key, st, actions);
    HistoryIsSerial(env, faults, _ => req.key, st, actions, req.doc);
    var s := Finish(env, st, req, end, o);
    assert LogOf(s, req.doc)[..0] == [];
  }

  // ---- the frame

  /** Other documents stay as they are; last_refreshed_at moves on a row that carries the uploaded content. */
  ghost predicate OthersStay(st: Stores, req: Request, end: Stores) {
    && (forall k, e :: e != req.doc ==> ViewOf(end, k, e) == ViewOf(st, k, e))
    && (forall name :: name != req.key.Name() ==> Held(end, name) == Held(st, name))
    && (forall e :: e != req.doc && RowIn(end, e) != RowIn(st, e) ==> Matched(st, req, e))
  }

  function RowIn(st: Stores, doc: string): Option<Row> { if doc in st.rows then Some(st.rows[doc]) else None }

  predicate Matched(st: Stores, req: Request, e: string) {
    req.Upload? && Duplicate(st, req.key, req.doc, req.content.hash, e)
  }

  ghost predicate SoFar(st0: Stores, st: Stores, req: Request, pc: Pc) {
    && OthersStay(st0, req, st)
    && (Rank(pc) >= Rank(Matching(true)) ==> st.rows == st0.rows)
    && (req.Upload? && pc.Refreshing? && pc.doc != req.doc ==> Matched(st0, req, pc.doc))
  }

  lemma StepOthers(env: Env, st0: Stores, st: Stores, req: Request, pc: Pc, luck: Luck)
    requires CollisionFree(env) && AllKeyed(env, st) && WellFormed(env, req) && Running(pc)
    requires SoFar(st0, st, req, pc)
    ensures var (next, pc') := Step(st, req, pc, luck); AllKeyed(env, next) && SoFar(st0, next, req, pc')
  {
    var pick := Pick(st, req, luck);
    var (next, pc') := Advance(st, req, pc, pick);
    StepKeyed(env, st, req, pc, pick);
    StepRowsOf(st, req, pc, pick);
    StepRefreshes(st, req, pc, pick);
    forall k, e | e != req.doc
      ensures ViewOf(next, k, e) == ViewOf(st, k, e)
    {
      StepElsewhere(env, st, req, pc, pick, k, e);
    }
    forall name | name != req.key.Name()
      ensures Held(next, name) == Held(st, name)
    {
      StepCollections(st, req, pc, pick, name);
    }
    MoveSoFar(st0, st, req, pc, next, pc');
    DisturbSoFar(st0, st, req, pc, next, pc', luck.fault(pc));
  }

  lemma MoveSoFar(st0: Stores, st: Stores, req: Request, pc: Pc, next: Stores, pc': Pc)
    requires SoFar(st0, st, req, pc)
    requires forall k, e :: e != req.doc ==> ViewOf(next, k, e) == ViewOf(st, k, e)
    requires forall name :: name != req.key.Name() ==> Held(next, name) == Held(st, name)
    requires forall e :: e != req.doc && RowIn(next, e) != RowIn(st, e) ==> req.Upload? && pc.Refreshing? && pc.doc == e
    requires Rank(pc') >= Rank(Matching(true)) ==> next.rows == st.rows && Rank(pc) > Rank(Matching(true))
    requires req.Upload? && pc'.Refreshing? ==>
      Rank(pc) >= Rank(Matching(true)) && (pc'.doc != req.doc ==> Matched(st, req, pc'.doc))
    ensures SoFar(st0, next, req, pc')
  {}

  lemma DisturbSoFar(st0: Stores, st: Stores, req: Request, pc: Pc, next: Stores, pc': Pc, fault: Fault)
    requires SoFar(st0, st, req, pc) && SoFar(st0, next, req, pc')
    ensures var (st', at) := Disturb(st, (next, pc'), fault); SoFar(st0, st', req, at)
  {}

  lemma StepRowsOf(st: Stores, req: Request, pc: Pc, pick: string)
    requires Running(pc)
    ensures var (next, pc') := Advance(st, req, pc, pick);
            forall e :: e != req.doc && RowIn(next, e) != RowIn(st, e) ==> req.Upload? && pc.Refreshing? && pc.doc == e
  {}

  lemma StepRefreshes(st: Stores, req: Request, pc: Pc, pick: string)
    requires Running(pc)
    ensures var (next, pc') := Advance(st, req, pc, pick);
            && (Rank(pc') >= Rank(Matching(true)) ==> next.rows == st.rows && Rank(pc) > Rank(Matching(true)))
            && (req.Upload? && pc'.Refreshing? ==>
                  Rank(pc) >= Rank(Matching(true)) && (pc'.doc != req.doc ==> Matched(st, req, pc'.doc)))
  {}

  lemma {:induction false} AloneOthers(env: Env, st0: Stores, st: Stores, req: Request, pc: Pc, luck: Luck)
    requires CollisionFree(env) && AllKeyed(env, st) && WellFormed(env, req) && Holding(pc)
    requires SoFar(st0, st, req, pc)
    ensures OthersStay(st0, req, Alone(st, req, pc, luck).0)
    decreases Rank(pc)
  {
    if !pc.Releasing? {
      StepOthers(env, st0, st, req, pc, luck);
      StepRanks(st, req, pc, luck);
      var (next, pc') := Step(st, req, pc, luck);
      AloneOthers(env, st0, next, req, pc', luck);
    }
  }

  /**
   * Frame, any stores, any failures: a call leaves every other document's row and points alone, a matched
   * duplicate's last_refreshed_at aside, and every other bot's collection.
   */
  lemma CallFrame(env: Env, st: Stores, req: Request, luck: Luck)
    requires Call(env, st, req, luck)
    ensures OthersStay(st, req, Perform(st, req, luck).0)
  {
    GenuineWellFormed(env, req);
    AloneOthers(env, st, st, req, FirstPc(req), luck);
  }

  // ---- recovery

  /** Exactly these points, each with its payload, and a row that accounts for them. */
  ghost predicate HoldsExactly(v: View, key: BotKey, c: Content) {
    && v.row == Some(NewRow(key, c, 0))
    && v.points.Keys == Ids(c.points) && |v.points| == |c.points| == v.row.value.chunkCount
    && (forall i :: 0 <= i < |c.points| ==> v.points[c.points[i].id] == c.points[i].payload)
    && OneHash(v.points, c.hash)
  }

  lemma UpsertExactly(env: Env, v: View, key: BotKey, doc: string, c: Content)
    requires Identified(env, key, doc, c) && v == View(Some(NewRow(key, c, 0)), Upsert(map[], c.points))
    ensures HoldsExactly(v, key, c)
  {
    UpsertKeys(map[], c.points);
    UpsertFresh(c.points);
    SavedAgrees(env, View(None, map[]), key, doc, c);
    forall i | 0 <= i < |c.points|
      ensures c.points[i].id in v.points && v.points[c.points[i].id] == c.points[i].payload
    {
      UpsertReads(c.points, i);
    }
  }

  /** Whatever the two stores held of the document, a replace leaves exactly its own points and a matching row. */
  lemma ReplaceRecovers(env: Env, st: Stores, req: Request, luck: Luck)
    requires Call(env, st, req, luck)
    ensures var (end, o) := Perform(st, req, luck);
            o.Replaced? ==>
              && req.Upload? && o == Replaced(|req.content.points|, |req.content.body.items|)
              && HoldsExactly(ViewOf(end, req.key, req.doc), req.key, req.content)
  {
    var (end, o) := Perform(st, req, luck);
    CallHasEffect(env, Arbitrary, st, req, luck);
    GenuineWellFormed(env, req);
    if o.Replaced? {
      UpsertExactly(env, ViewOf(end, req.key, req.doc), req.key, req.doc, req.content);
    }
  }

  /** Whatever the two stores held of the document, a delete leaves no points and a deleted, empty row. */
  lemma {:induction false} DeleteRecovers(env: Env, st: Stores, req: Request, luck: Luck)
    requires Call(env, st, req, luck)
    ensures var (end, o) := Perform(st, req, luck);
            var v, w := ViewOf(st, req.key, req.doc), ViewOf(end, req.key, req.doc);
            o.Removed? ==>
              && req.Delete? && v.row.Some? && w.points == map[]
              && w.row == Some(v.row.value.(status := Deleted, chunkCount := 0, error := None))
  {
    CallHasEffect(env, Arbitrary, st, req, luck);
  }

  /**
   * A create does not clear what an earlier lost save left behind: it leaves exactly its points if and only if
   * every point the document already had is overwritten by one of them.
   */
  lemma CreateRecoversIff(env: Env, st: Stores, req: Request, luck: Luck)
    requires Call(env, st, req, luck)
    ensures var (end, o) := Perform(st, req, luck);
            var v, w := ViewOf(st, req.key, req.doc), ViewOf(end, req.key, req.doc);
            o.Created? ==>
              && req.Upload? && w.row == Some(NewRow(req.key, req.content, 0))
              && (HoldsExactly(w, req.key, req.content) <==> v.points.Keys <= Ids(req.content.points))
  {
    var (end, o) := Perform(st, req, luck);
    CallHasEffect(env, Arbitrary, st, req, luck);
    if o.Created? {
      GenuineWellFormed(env, req);
      StoredExactlyIff(env, req.key, req.doc, req.content, ViewOf(st, req.key, req.doc), ViewOf(end, req.key, req.doc));
    }
  }

  lemma StoredExactlyIff(env: Env, key: BotKey, doc: string, c: Content, v: View, w: View)
    requires Identified(env, key, doc, c) && w == View(Some(NewRow(key, c, 0)), Upsert(v.points, c.points))
    ensures HoldsExactly(w, key, c) <==> v.points.Keys <= Ids(c.points)
  {
    UpsertKeys(v.points, c.points);
    if v.points.Keys <= Ids(c.points) {
      Overwritten(v.points, c.points);
      UpsertExactly(env, w, key, doc, c);
    }
  }

  lemma {:induction false} Unmoved(c: Collection, points: seq<Point>, id: PointId)
    ensures id in Ids(points) ==> id in Upsert(map[], points) && id in Upsert(c, points)
                                  && Upsert(c, points)[id] == Upsert(map[], points)[id]
  {
    if points != [] {
      var n := |points| - 1;
      Unmoved(c, points[..n], id);
      assert points == points[..n] + [points[n]];
      assert Ids(points) == Ids(points[..n]) + {points[n].id};
    }
  }

  lemma Overwritten(c: Collection, points: seq<Point>)
    requires c.Keys <= Ids(points)
    ensures Upsert(c, points) == Upsert(map[], points)
  {
    UpsertKeys(c, points);
    UpsertKeys(map[], points);
    forall id | id in Ids(points)
      ensures Upsert(c, points)[id] == Upsert(map[], points)[id]
    {
      Unmoved(c, points, id);
    }
  }

  /**
   * An upload whose body names its document is never answered "created" or "replaced": its row cannot be saved, for the
   * body holds a UUID. Nor is any other upload whose row the database does not accept.
   */
  lemma NamedIsNeverStored(env: Env, st: Stores, req: Request, luck: Luck)
    requires Call(env, st, req, luck) && req.Upload?
    ensures var o := Perform(st, req, luck).1;
            && (o.Created? || o.Replaced? ==> Storable(req.content))
            && (req.content.body.docId.Some? ==> !o.Created? && !o.Replaced?)
  {
    CallHasEffect(env, Arbitrary, st, req, luck);
  }

  /**
   * In serial runs a row stays with its bot for good, and a request about another bot's document changes
   * neither its row nor its points.
   */
  lemma RowKeepsItsBot(env: Env, st: Stores, req: Request, luck: Luck)
    requires Call(env, st, req, luck) && req.doc in st.rows
    ensures var end := Perform(st, req, luck).0;
            && req.doc in end.rows && end.rows[req.doc].key == st.rows[req.doc].key
            && (st.rows[req.doc].key != req.key ==>
                  ViewOf(end, req.key, req.doc) == ViewOf(st, req.key, req.doc) && Refused(Perform(st, req, luck).1))
  {
    var (end, o) := Perform(st, req, luck);
    CallHasEffect(env, Arbitrary, st, req, luck);
    EffectKeepsBot(req, o, ViewOf(st, req.key, req.doc), ViewOf(end, req.key, req.doc));
  }

  predicate Refused(o: Outcome) {
    o.Died? || (o.Raised? && o.error in {Collision, NotFound, BotConflict, StoreFailure})
  }

  lemma EffectKeepsBot(req: Request, o: Outcome, v: View, w: View)
    requires Effect(Arbitrary, req, o, v, w) && v.row.Some?
    ensures w.row.Some? && w.row.value.key == v.row.value.key
    ensures v.row.value.key != req.key ==> w == v && Refused(o)
  {}

  /**
   * Whatever fails, a call that finds its document in agreement leaves it in agreement unless its upsert took effect
   * and its row save did not, and then never.
   */
  lemma CallLosesAgreementIff(env: Env, st: Stores, req: Request, luck: Luck)
    requires Call(env, st, req, luck) && Agree(ViewOf(st, req.key, req.doc))
    ensures var v, w := ViewOf(st, req.key, req.doc), ViewOf(Perform(st, req, luck).0, req.key, req.doc);
            Agree(w) <==> !Unaccounted(req, v, w)
  {
    var (end, o) := Perform(st, req, luck);
    CallHasEffect(env, Arbitrary, st, req, luck);
    GenuineWellFormed(env, req);
    AgreementLostIff(env, Arbitrary, req, o, ViewOf(st, req.key, req.doc), ViewOf(end, req.key, req.doc));
  }

  /**
   * Without lost upserts and row saves, a call leaves an agreeing document agreeing unless the database refused its
   * row; an upload that passes its upsert does so if and only if its row is storable, which its caller can check.
   */
  lemma CallAgreesIff(env: Env, st: Stores, req: Request, luck: Luck)
    requires Call(env, st, req, luck) && Allowed(Clean, luck) && Agree(ViewOf(st, req.key, req.doc))
    ensures var (end, o) := Perform(st, req, luck);
            var agrees := Agree(ViewOf(end, req.key, req.doc));
            && (agrees <==> o != Raised(RowRefused))
            && (req.Upload? && PastUpsert(o) ==> (agrees <==> Storable(req.content)))
  {
    var (end, o) := Perform(st, req, luck);
    CallHasEffect(env, Clean, st, req, luck);
    GenuineWellFormed(env, req);
    EffectAgrees(env, Clean, req, o, ViewOf(st, req.key, req.doc), ViewOf(end, req.key, req.doc));
  }

  // ---- the embedder's precondition

  lemma {:induction false} PlanChunks(
    env: Env, key: BotKey, doc: string, body: Body, hash: string, plan: seq<seq<Chunk>>, n: nat)
    requires n <= |plan| == |body.items| && forall i :: 0 <= i < |plan| ==> AllVisible(plan[i])
    ensures forall p :: p in PlanPoints(env, key, doc, body, hash, plan, n) ==> !Blank(p.payload.chunk.text)
  {
    if n > 0 {
      PlanChunks(env, key, doc, body, hash, plan, n - 1);
      assert AllVisible(plan[n - 1]);
    }
  }

  lemma PointsVisible(env: Env, key: BotKey, doc: string, body: Body)
    requires Reasonable(env.tools)
    ensures forall p :: p in ContentOf(env, key, doc, body).points ==> !Blank(p.payload.chunk.text)
  {
    var plan := Plan(env, body);
    forall i | 0 <= i < |plan|
      ensures AllVisible(plan[i])
    {
      ChunksVisible(env.tools, body.items[i].content, body.sourceType);
    }
    PlanChunks(env, key, doc, body, IncomingHash(env, body), plan, |plan|);
  }

  /** With a tokenizer that is not absurd, no upload ever hands the embedder a text that it refuses. */
  lemma NeverRefusedByEmbedder(env: Env, st: Stores, req: Request, luck: Luck)
    requires Call(env, st, req, luck) && Reasonable(env.tools)
    ensures Perform(st, req, luck).1 != Raised(Unembeddable)
  {
    CallHasEffect(env, Arbitrary, st, req, luck);
    if req.Upload? {
      PointsVisible(env, req.key, req.doc, req.content.body);
    }
  }

  // ---- the service's own lock key

  /**
   * With the service's own lock key a request is turned away for its names, before anything is changed, exactly if
   * a slug is malformed or the document id is empty; and as busy exactly if another session holds its lock throughout.
   */
  lemma TurnedAwayIff(tools: Tools, uuid5: string -> PointId, sha256: seq<Byte> -> Digest, st: Stores,
                      held: set<(Int32, Int32)>, req: Request, luck: Luck)
    requires var env := ServiceEnv(tools, uuid5, sha256);
             CollisionFree(env) && AllKeyed(env, st) && Genuine(env, req) && Chooses(luck)
    ensures var (end, o) := Serve(ServiceEnv(tools, uuid5, sha256), st, held, req, luck);
            && (o == Raised(InvalidName) <==> !req.key.Valid() || req.doc == "")
            && (o == Raised(InvalidName) ==> end == st)
            && (o == Raised(Busy) <==> KeyOf(ServiceEnv(tools, uuid5, sha256), req).Success?
                                       && KeyOf(ServiceEnv(tools, uuid5, sha256), req).value in held)
            && (o == Raised(Busy) ==> end == st)
            && (o != Raised(InvalidName) && o != Raised(Busy) ==> (end, o) == Perform(st, req, luck))
  {
    var env := ServiceEnv(tools, uuid5, sha256);
    if KeyOf(env, req).Success? {
      CallHasEffect(env, Arbitrary, st, req, luck);
    }
  }

  /** Two requests contend for one lock exactly if the first eight bytes of their digests agree. */
  lemma ContendIff(tools: Tools, uuid5: string -> PointId, sha256: seq<Byte> -> Digest, a: Request, b: Request)
    requires a.key.Valid() && a.doc != "" && b.key.Valid() && b.doc != ""
    ensures var env := ServiceEnv(tools, uuid5, sha256);
            KeyOf(env, a) == KeyOf(env, b) <==>
              sha256(Encode(LockText(a.key.tenant, a.key.bot, a.doc)))[..8]
              == sha256(Encode(LockText(b.key.tenant, b.key.bot, b.doc)))[..8]
  {
    SharedLockKey(sha256, a.key.tenant, a.key.bot, a.doc, b.key.tenant, b.key.bot, b.doc);
  }
}
