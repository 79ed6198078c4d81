/** The collection operations, retries and all, are the atomic steps that the protocol takes them for. */
module Refinement {
  import opened Effects
  import opened Protocol
  import opened Retry
  import opened Stores
  import C = Collections

  /** The service's stores with the collections of a Qdrant server. */
  function WithServer(st: Stores, server: C.Server): Stores {
    st.(collections := map name | name in server :: server[name].points)
  }

  lemma SeenOnServer(st: Stores, server: C.Server, key: BotKey, doc: string)
    ensures ViewOf(WithServer(st, server), key, doc) ==
            View(RowOf(st, doc), DocPoints(C.PointsIn(server, key.Name()), doc))
  {}

  /** The fault that a call's end stands for. */
  function FaultOf<T>(r: Reply<T>, early: bool, took: bool): Fault {
    if r.Failure? then Raise(took) else if early then Retried else Ok
  }

  /** delete_by_doc_id in a delete: what DeleteByDocId promises is the step of the protocol under one of its faults. */
  lemma RemovingRefined(st: Stores, before: C.Server, after: C.Server, key: BotKey, doc: string, already: bool,
                        r: Reply<nat>, early: bool) returns (fault: Fault)
    requires C.Removal(before, after, key.Name(), doc, r, early)
    ensures var st0 := WithServer(st, before);
            var (next, pc) := Disturb(st0, AdvanceDelete(st0, Request.Delete(key, doc), Removing(already)), fault);
            && ViewOf(WithServer(st, after), key, doc) == ViewOf(next, key, doc)
            && pc == if r.Success? then Marking(already, r.value) else Releasing(Raised(StoreFailure))
  {
    var st0 := WithServer(st, before);
    fault := FaultOf(r, early, DocPoints(C.PointsIn(after, key.Name()), doc) == map[]);
    SeenOnServer(st, before, key, doc);
    SeenOnServer(st, after, key, doc);
    ClearSeen(st0, key, doc, key, doc);
    assert Held(st0, key.Name()) == C.PointsIn(before, key.Name());
  }

  /** delete_by_doc_id in a replace, whose count nobody reads. */
  lemma ClearingRefined(st: Stores, before: C.Server, after: C.Server, req: Request, r: Reply<nat>, early: bool)
    returns (fault: Fault)
    requires req.Upload? && C.Removal(before, after, req.key.Name(), req.doc, r, early)
    ensures var st0 := WithServer(st, before);
            var (next, pc) := Disturb(st0, AdvanceUpload(st0, req, Clearing, ""), fault);
            && ViewOf(WithServer(st, after), req.key, req.doc) == ViewOf(next, req.key, req.doc)
            && pc == if r.Success? then Upserting(true) else Releasing(Raised(StoreFailure))
  {
    var st0 := WithServer(st, before);
    fault := FaultOf(r, early, DocPoints(C.PointsIn(after, req.key.Name()), req.doc) == map[]);
    SeenOnServer(st, before, req.key, req.doc);
    SeenOnServer(st, after, req.key, req.doc);
    ClearSeen(st0, req.key, req.doc, req.key, req.doc);
  }

  /** get_or_create_collection: no document sees it, and after a success the collection is there for the upsert. */
  lemma CollectingRefined(st: Stores, before: C.Server, after: C.Server, docs: iset<string>, req: Request,
                          replace: bool, r: Reply<()>) returns (fault: Fault)
    requires req.Upload? && req.doc in docs && C.Preserves(docs, before, after)
    requires r.Success? ==> req.key.Name() in after
    ensures var st0 := WithServer(st, before);
            var (next, pc) := Disturb(st0, AdvanceUpload(st0, req, Collecting(replace), ""), fault);
            && ViewOf(WithServer(st, after), req.key, req.doc) == ViewOf(next, req.key, req.doc)
            && pc == (if r.Success? then Chunking(replace) else Releasing(Raised(StoreFailure)))
            && Ready(WithServer(st, after), req, pc)
  {
    var st0 := WithServer(st, before);
    fault := FaultOf(r, false, false);
    SeenOnServer(st, before, req.key, req.doc);
    SeenOnServer(st, after, req.key, req.doc);
    SilentCalls(st0, req.key, "", req.key.Name(), req.key, req.doc);
  }
}
