/**
 * The collection operations under their retry decorators, against a server that fails, and whose answers get
 * lost, and which other processes use at the same time.
 */
module Collections {
  import opened Results
  import opened Retry
  import opened Stores

  // ---- schemas

  datatype Distance = Cosine | OtherDistance

  datatype Vector = Vector(size: int, distance: Distance, hnswM: int, maxSim: bool, multivector: bool)

  datatype Sparse = Sparse(onDisk: bool, idf: bool)

  datatype Schema = Schema(vectors: map<string, Vector>, sparse: map<string, Sparse>)

  const EXPECTED := Schema(
    map["dense" := Vector(1024, Cosine, 16, false, false), "colbert" := Vector(1024, Cosine, 0, true, true)],
    map["bm25" := Sparse(false, true)])

  const INDEXES := ["doc_id", "source_type", "source_url", "language", "tags", "category", "is_active", "tenant_id"]

  /** The eight payload indexes, by name: every key that a search filters by or a delete selects by is among them. */
  lemma IndexesListed(field: string)
    ensures field in INDEXES <==>
            field in {"doc_id", "source_type", "source_url", "language", "tags", "category", "is_active", "tenant_id"}
  {}

  /** What a collection must have to be used. */
  predicate Fits(s: Schema) {
    && "dense" in s.vectors && s.vectors["dense"].size == 1024 && s.vectors["dense"].distance == Cosine
    && "colbert" in s.vectors && s.vectors["colbert"].size == 1024 && s.vectors["colbert"].multivector
    && "bm25" in s.sparse && s.sparse["bm25"].idf
  }

  datatype Complaint = DenseSize | DenseDistance | ColbertSize | ColbertMultivector | SparseMissing | SparseModifier

  function Get<V>(m: map<string, V>, name: string): Option<V> { if name in m then Some(m[name]) else None }

  /** What a complaint says of a schema. */
  predicate Justified(c: Complaint, s: Schema) {
    var dense, colbert, sparse := Get(s.vectors, "dense"), Get(s.vectors, "colbert"), Get(s.sparse, "bm25");
    match c
    case DenseSize => dense.None? || dense.value.size != 1024
    case DenseDistance => dense.Some? && dense.value.distance != Cosine
    case ColbertSize => colbert.None? || colbert.value.size != 1024
    case ColbertMultivector => colbert.Some? && !colbert.value.multivector
    case SparseMissing => sparse.None?
    case SparseModifier => sparse.Some? && !sparse.value.idf
  }

  /** The diff holds exactly the justified complaints, and is empty exactly if the schema fits. */
  method CompareSchema(s: Schema) returns (diff: set<Complaint>)
    ensures forall c :: c in diff <==> Justified(c, s)
    ensures diff == {} <==> Fits(s)
  {
    diff := {};
    var dense := Get(s.vectors, "dense");
    if dense.None? || dense.value.size != 1024 {
      diff := diff + {DenseSize};
    }
    if dense.Some? && dense.value.distance != Cosine {
      diff := diff + {DenseDistance};
    }
    var colbert := Get(s.vectors, "colbert");
    if colbert.None? || colbert.value.size != 1024 {
      diff := diff + {ColbertSize};
    }
    if colbert.Some? && !colbert.value.multivector {
      diff := diff + {ColbertMultivector};
    }
    var sparse := Get(s.sparse, "bm25");
    if sparse.None? {
      diff := diff + {SparseMissing};
    } else if !sparse.value.idf {
      diff := diff + {SparseModifier};
    }
    FitsUnlessComplaint(s);
  }

  lemma FitsUnlessComplaint(s: Schema)
    ensures Fits(s) <==> forall c :: !Justified(c, s)
  {
    if forall c :: !Justified(c, s) {
      assert !Justified(DenseSize, s) && !Justified(DenseDistance, s) && !Justified(ColbertSize, s);
      assert !Justified(ColbertMultivector, s) && !Justified(SparseMissing, s) && !Justified(SparseModifier, s);
    }
  }

  /** The comparison is coarser than equality: it never looks at the ColBERT distance or at any HNSW setting. */
  lemma FittingIsNotExpected()
    ensures Fits(EXPECTED)
    ensures exists s :: Fits(s) && s != EXPECTED && s.vectors["colbert"].distance != Cosine
  {
    var colbert := EXPECTED.vectors["colbert"].(distance := OtherDistance);
    var s := EXPECTED.(vectors := EXPECTED.vectors["colbert" := colbert]);
    assert Fits(s) && s.vectors["colbert"].distance != Cosine;
  }

  // ---- the server

  /** A collection on the server. */
  datatype Kept = Kept(schema: Schema, indexes: set<string>, points: Collection)

  type Server = map<string, Kept>

  /** What happens around one call: others act first; then it may fail, having taken effect or not. */
  datatype Moment = Moment(others: Server -> Server, failure: Option<Exception>, effect: bool)

  function PointsIn(s: Server, name: string): Collection { if name in s then s[name].points else map[] }

  /** Collections are not dropped and keep their schemas; the documents in the set keep their points. */
  ghost predicate Preserves(docs: iset<string>, s: Server, t: Server) {
    && (forall name :: name in s ==>
          name in t && t[name].schema == s[name].schema && s[name].indexes <= t[name].indexes)
    && (forall name, doc :: doc in docs ==> DocPoints(PointsIn(t, name), doc) == DocPoints(PointsIn(s, name), doc))
  }

  lemma PreservesBoth(docs: iset<string>, s: Server, t: Server, u: Server)
    requires Preserves(docs, s, t) && Preserves(docs, t, u)
    ensures Preserves(docs, s, u)
  {}

  function Indexed(s: Server, name: string, field: string): Server
    requires name in s
  {
    s[name := s[name].(indexes := s[name].indexes + {field})]
  }

  lemma IndexPreserves(docs: iset<string>, s: Server, name: string, field: string)
    requires name in s
    ensures Preserves(docs, s, Indexed(s, name, field))
  {}

  lemma NewPreserves(docs: iset<string>, s: Server, name: string)
    requires name !in s
    ensures Preserves(docs, s, s[name := Kept(EXPECTED, {}, map[])])
  {}

  /** The server after the removal of a document from one collection. */
  function Cleared(s: Server, name: string, doc: string): Server
    requires name in s
  {
    s[name := s[name].(points := Without(s[name].points, doc))]
  }

  lemma ClearedElsewhere(docs: iset<string>, s: Server, name: string, doc: string)
    requires name in s
    ensures Preserves(docs - iset{doc}, s, Cleared(s, name, doc))
    ensures forall n :: n != name ==> PointsIn(Cleared(s, name, doc), n) == PointsIn(s, n)
    ensures DocPoints(PointsIn(Cleared(s, name, doc), name), doc) == map[]
  {
    forall n, e | e != doc
      ensures DocPoints(PointsIn(Cleared(s, name, doc), n), e) == DocPoints(PointsIn(s, n), e)
    {
      assert n == name ==> DocPoints(Without(s[n].points, doc), e) == DocPoints(s[n].points, e);
    }
  }

  /** A document lost all its points in a collection or none; success means all, and tells how many unless early. */
  ghost predicate Removal(s: Server, t: Server, name: string, doc: string, r: Reply<nat>, early: bool) {
    var before, after := DocPoints(PointsIn(s, name), doc), DocPoints(PointsIn(t, name), doc);
    && (after == map[] || after == before)
    && (r.Success? ==> after == map[] && r.value == if early then 0 else |before|)
  }

  const CONFLICT := Class("UnexpectedResponse", Some(409))

  /** How gRPC reports the same, among others. */
  const ALREADY_EXISTS := Rpc(Some(OtherCode))

  const MISMATCH := Class("CollectionSchemaMismatchError", None)
  const OPERATION := Class("QdrantOperationError", None)

  /** Only a conflict is reported as one, and the client library knows nothing of the service's own errors. */
  ghost predicate Honest(moments: nat -> Moment) {
    forall k: nat :: moments(k).failure != Some(CONFLICT) && moments(k).failure != Some(MISMATCH)
                     && moments(k).failure != Some(EXHAUSTED)
  }

  /** Other processes drop nothing and leave these documents alone. */
  ghost predicate Considerate(moments: nat -> Moment, docs: iset<string>) {
    forall k: nat, s: Server :: Preserves(docs, s, moments(k).others(s))
  }

  const ATTEMPTS: nat := 3

  class Client {
    const moments: nat -> Moment
    const preferGrpc: bool
    ghost const docs: iset<string>
    var server: Server
    var clock: nat
    var creates: nat

    constructor (server: Server, moments: nat -> Moment, preferGrpc: bool, ghost docs: iset<string>)
      requires Honest(moments) && Considerate(moments, docs)
      ensures Valid() && this.server == server && this.docs == docs && creates == 0
    {
      this.server, this.moments, this.preferGrpc, this.docs, clock, creates := server, moments, preferGrpc, docs, 0, 0;
    }

    ghost predicate Valid() { Honest(moments) && Considerate(moments, docs) }

    /** One of these calls failed. */
    ghost predicate Failed(from: nat, to: nat) { exists k: nat :: from <= k < to && moments(k).failure.Some? }

    /** One of these calls took effect and its answer was lost. */
    ghost predicate Lost(from: nat, to: nat) {
      exists k: nat :: from <= k < to && moments(k).failure.Some? && moments(k).effect
    }

    // ---- calls

    method Tick() returns (m: Moment)
      requires Valid()
      modifies this`server, this`clock
      ensures m == moments(old(clock)) && server == m.others(old(server)) && clock == old(clock) + 1
      ensures m.failure != Some(CONFLICT) && m.failure != Some(MISMATCH) && m.failure != Some(EXHAUSTED)
      ensures Preserves(docs, old(server), server)
    {
      m := moments(clock);
      server, clock := m.others(server), clock + 1;
    }

    method CollectionExists(name: string) returns (r: Reply<bool>)
      requires Valid()
      modifies this`server, this`clock
      ensures Preserves(docs, old(server), server)
      ensures clock == old(clock) + 1 && (r.Failure? ==> moments(old(clock)).failure == Some(r.error))
      ensures r.Success? ==> r.value == (name in server)
      ensures r.Failure? ==> r.error != CONFLICT && r.error != MISMATCH && r.error != EXHAUSTED
    {
      var m := Tick();
      r := if m.failure.Some? then Failure(m.failure.value) else Success(name in server);
    }

    method CreateCollection(name: string) returns (r: Reply<()>)
      requires Valid()
      modifies this`server, this`clock, this`creates
      ensures creates == old(creates) + 1 && Preserves(docs, old(server), server) && clock == old(clock) + 1
      ensures r.Failure? ==> moments(old(clock)).failure == Some(r.error)
                             || (name in server && r.error == if preferGrpc then ALREADY_EXISTS else CONFLICT)
      ensures r != Failure(EXHAUSTED)
      ensures r.Success? ==> name in server && name !in old(server) && server[name] == Kept(EXPECTED, {}, map[])
      ensures r.Failure? ==> r.error != MISMATCH && (r.error == CONFLICT ==> name in server && !preferGrpc)
    {
      creates := creates + 1;
      var m := Tick();
      ghost var seen := server;
      if name in server {
        r := Failure(if m.failure.Some? then m.failure.value else if preferGrpc then ALREADY_EXISTS else CONFLICT);
      } else {
        if m.failure.None? || m.effect {
          NewPreserves(docs, server, name);
          server := server[name := Kept(EXPECTED, {}, map[])];
        }
        r := if m.failure.Some? then Failure(m.failure.value) else Success(());
      }
      PreservesBoth(docs, old(server), seen, server);
    }

    method CreateIndex(name: string, field: string) returns (r: Reply<()>)
      requires Valid() && name in server
      modifies this`server, this`clock
      ensures Preserves(docs, old(server), server)
      ensures clock == old(clock) + 1 && (r.Failure? ==> moments(old(clock)).failure == Some(r.error))
      ensures r.Success? ==> field in server[name].indexes
      ensures r.Failure? ==> r.error != CONFLICT && r.error != MISMATCH && r.error != EXHAUSTED
    {
      var m := Tick();
      ghost var seen := server;
      if m.failure.None? || m.effect {
        IndexPreserves(docs, server, name, field);
        server := Indexed(server, name, field);
      }
      r := if m.failure.Some? then Failure(m.failure.value) else Success(());
      PreservesBoth(docs, old(server), seen, server);
    }

    /** _compare_schema: get_collection, then the diff. */
    method Compare(name: string) returns (r: Reply<set<Complaint>>)
      requires Valid() && name in server
      modifies this`server, this`clock
      ensures Preserves(docs, old(server), server)
      ensures clock == old(clock) + 1 && (r.Failure? ==> moments(old(clock)).failure == Some(r.error))
      ensures r.Success? ==> (r.value == {} <==> Fits(server[name].schema))
      ensures r.Failure? ==> r.error != CONFLICT && r.error != MISMATCH && r.error != EXHAUSTED
    {
      var m := Tick();
      if m.failure.Some? {
        return Failure(m.failure.value);
      }
      var diff := CompareSchema(server[name].schema);
      r := Success(diff);
    }

    // ---- create_collection_for_bot

    ghost predicate ByConflict(e: Exception) { e == if preferGrpc then ALREADY_EXISTS else CONFLICT }

    method CreateOnce(name: string) returns (r: Reply<()>)
      requires Valid()
      modifies this`server, this`clock, this`creates
      ensures creates == old(creates) + 1 && Preserves(docs, old(server), server) && clock > old(clock)
      ensures r.Success? ==> name in server && Fits(server[name].schema)
                             && forall i :: 0 <= i < |INDEXES| ==> INDEXES[i] in server[name].indexes
      ensures r.Failure? ==> r.error != MISMATCH && (r.error == CONFLICT ==> name in server && !preferGrpc)
      ensures r.Failure? ==> r.error != EXHAUSTED && (Failed(old(clock), clock) || ByConflict(r.error))
      ensures Passing(r) ==> Failed(old(clock), clock)
    {
      r := CreateCollection(name);
      if r.Failure? {
        return;
      }
      for i := 0 to |INDEXES|
        invariant name in server && server[name].schema == EXPECTED && Preserves(docs, old(server), server)
        invariant creates == old(creates) + 1 && clock > old(clock)
        invariant forall j :: 0 <= j < i ==> INDEXES[j] in server[name].indexes
      {
        r := CreateIndex(name, INDEXES[i]);
        if r.Failure? {
          return;
        }
      }
      r := Success(());
    }

    method CreateForBot(name: string) returns (r: Reply<()>)
      requires Valid()
      modifies this`server, this`clock, this`creates
      ensures 1 <= creates - old(creates) <= 3 && Preserves(docs, old(server), server) && clock > old(clock)
      ensures r.Failure? ==> Failed(old(clock), clock) || ByConflict(r.error)
      ensures r == Failure(EXHAUSTED) ==> clock >= old(clock) + 3
      ensures r.Success? ==> name in server && Fits(server[name].schema)
                             && forall i :: 0 <= i < |INDEXES| ==> INDEXES[i] in server[name].indexes
      ensures r.Failure? ==> r.error != MISMATCH && !IsTransient(r.error)
      ensures r == Failure(CONFLICT) ==> name in server && !preferGrpc
    {
      for attempt := 0 to ATTEMPTS
        invariant creates == old(creates) + attempt && Preserves(docs, old(server), server)
        invariant clock >= old(clock) + attempt && (attempt > 0 ==> Failed(old(clock), clock))
      {
        r := CreateOnce(name);
        if !Passing(r) {
          return;
        }
      }
      r := Failure(EXHAUSTED);
    }

    // ---- get_or_create_collection

    method Verify(name: string) returns (r: Reply<()>)
      requires Valid() && name in server
      modifies this`server, this`clock
      ensures Preserves(docs, old(server), server)
      ensures r.Success? ==> Fits(server[name].schema)
      ensures r.Failure? ==> r.error != CONFLICT && (r.error == MISMATCH ==> !Fits(server[name].schema))
      ensures clock > old(clock) && r != Failure(EXHAUSTED)
      ensures r.Failure? && r.error != MISMATCH ==> Failed(old(clock), clock)
    {
      var diff := Compare(name);
      match diff
      case Failure(e) => r := Failure(e);
      case Success(d) => r := if d == {} then Success(()) else Failure(MISMATCH);
    }

    /** A failure is a mismatch, a conflict in its gRPC form, or due to a call that failed. */
    ghost predicate Explained(from: nat, to: nat, e: Exception) {
      e == MISMATCH || (preferGrpc && e == ALREADY_EXISTS) || Failed(from, to)
    }

    method GetOrCreateOnce(name: string) returns (r: Reply<()>)
      requires Valid()
      modifies this`server, this`clock, this`creates
      ensures creates - old(creates) <= 3 && Preserves(docs, old(server), server) && clock > old(clock)
      ensures r.Failure? ==> Explained(old(clock), clock, r.error)
      ensures r == Failure(EXHAUSTED) ==> clock >= old(clock) + 3
      ensures Passing(r) ==> Failed(old(clock), clock)
      ensures name in old(server) ==> creates == old(creates)
      ensures creates > old(creates) && Passing(r) ==> name in server
      ensures r.Success? ==> name in server && Fits(server[name].schema)
      ensures r == Failure(MISMATCH) ==> name in server && !Fits(server[name].schema)
      ensures r != Failure(CONFLICT)
    {
      var exists_ := CollectionExists(name);
      if exists_.Failure? {
        return Failure(exists_.error);
      }
      if exists_.value {
        r := Verify(name);
        return;
      }
      r := CreateForBot(name);
      if r.Success? || r.error.Rpc? || r.error.name != "UnexpectedResponse" {
        return;
      }
      if r.error.status != Some(409) {
        return Failure(OPERATION);
      }
      r := Verify(name);
    }

    /**
     * The nested decorators make at most three create_collection calls, not nine: the inner one raises nothing
     * that the outer one retries, and after a conflict the collection is there to stay. It succeeds only with a
     * collection that fits, and reports a mismatch only of one that does not. A conflict in its HTTP form never comes
     * out; one in its gRPC form is an error like any other. Apart from these it fails only if a call did, and gives up
     * only after three attempts.
     */
    method GetOrCreate(name: string) returns (r: Reply<()>)
      requires Valid()
      modifies this`server, this`clock, this`creates
      ensures creates - old(creates) <= 3 && Preserves(docs, old(server), server)
      ensures r.Failure? ==> Explained(old(clock), clock, r.error)
      ensures r == Failure(EXHAUSTED) ==> clock >= old(clock) + 3
      ensures name in old(server) ==> creates == old(creates)
      ensures r.Success? ==> name in server && Fits(server[name].schema)
      ensures r == Failure(MISMATCH) ==> name in server && !Fits(server[name].schema)
      ensures r != Failure(CONFLICT)
      ensures r.Failure? ==> !IsTransient(r.error)
    {
      for attempt := 0 to ATTEMPTS
        invariant creates - old(creates) <= 3 && Preserves(docs, old(server), server)
        invariant clock >= old(clock) + attempt && (attempt > 0 ==> Failed(old(clock), clock))
        invariant creates > old(creates) ==> name in server
        invariant name in old(server) ==> creates == old(creates)
      {
        r := GetOrCreateOnce(name);
        if !Passing(r) {
          return;
        }
      }
      r := Failure(EXHAUSTED);
    }

    // ---- delete_by_doc_id

    /** The points of a document in one collection. */
    function Of(name: string, doc: string): Collection
      reads this`server
    {
      DocPoints(PointsIn(server, name), doc)
    }

    /** client.count with the doc_id filter. */
    method CountPoints(name: string, doc: string) returns (r: Reply<nat>)
      requires Valid()
      modifies this`server, this`clock
      ensures Preserves(docs, old(server), server)
      ensures clock == old(clock) + 1 && (r.Failure? ==> moments(old(clock)).failure == Some(r.error))
      ensures r.Success? ==> r.value == |Of(name, doc)|
    {
      var m := Tick();
      r := if m.failure.Some? then Failure(m.failure.value) else Success(|Of(name, doc)|);
    }

    /** client.delete with the doc_id filter; took tells whether it took effect. */
    method DeletePoints(name: string, doc: string) returns (r: Reply<()>, took: bool)
      requires Valid() && name in server
      modifies this`server, this`clock
      ensures Preserves(docs - iset{doc}, old(server), server)
      ensures doc in docs ==> forall n :: n != name ==> Of(n, doc) == old(Of(n, doc))
      ensures doc in docs ==> Of(name, doc) == if took then map[] else old(Of(name, doc))
      ensures r.Success? ==> took
      ensures clock == old(clock) + 1 && (r.Failure? ==> moments(old(clock)).failure == Some(r.error))
      ensures took && r.Failure? ==> moments(old(clock)).effect
    {
      var m := Tick();
      ghost var seen := server;
      took := m.failure.None? || m.effect;
      if took {
        ClearedElsewhere(docs, server, name, doc);
        server := Cleared(server, name, doc);
        PreservesBoth(docs - iset{doc}, old(server), seen, server);
      }
      r := if m.failure.Some? then Failure(m.failure.value) else Success(());
    }

    method DeleteOnce(name: string, doc: string) returns (r: Reply<nat>, took: bool)
      requires Valid() && doc in docs
      modifies this`server, this`clock
      ensures Preserves(docs - iset{doc}, old(server), server)
      ensures forall n :: n != name ==> Of(n, doc) == old(Of(n, doc))
      ensures Of(name, doc) == if took then map[] else old(Of(name, doc))
      ensures r.Success? ==> r.value == |old(Of(name, doc))| && Of(name, doc) == map[]
      ensures clock > old(clock) && (r.Failure? ==> r.error != EXHAUSTED && Failed(old(clock), clock))
      ensures took && r.Failure? ==> Lost(old(clock), clock)
    {
      took := false;
      var exists_ := CollectionExists(name);
      if exists_.Failure? {
        return Failure(exists_.error), false;
      }
      if !exists_.value {
        return Success(0), false;
      }
      var before := CountPoints(name, doc);
      if before.Failure? {
        return before, false;
      }
      var gone;
      gone, took := DeletePoints(name, doc);
      r := if gone.Failure? then Failure(gone.error) else before;
    }

    /**
     * A document that nobody else is writing loses all its points or none, and no other document or collection is
     * touched. On success they are gone; the count returned is theirs unless an attempt whose answer was lost had
     * already removed them, and then it is 0. A failure that comes out is not retried again; without a failing call
     * there is none, and it gives up only after three attempts.
     */
    method DeleteByDocId(name: string, doc: string) returns (r: Reply<nat>, early: bool)
      requires Valid() && doc in docs
      modifies this`server, this`clock
      ensures Preserves(docs - iset{doc}, old(server), server)
      ensures forall n :: n != name ==> Of(n, doc) == old(Of(n, doc))
      ensures Removal(old(server), server, name, doc, r, early)
      ensures early ==> Lost(old(clock), clock)
      ensures r.Failure? ==> Failed(old(clock), clock)
      ensures r == Failure(EXHAUSTED) ==> clock >= old(clock) + 3
      ensures r.Failure? ==> !IsTransient(r.error)
    {
      early := false;
      for attempt := 0 to ATTEMPTS
        invariant Preserves(docs - iset{doc}, old(server), server)
        invariant forall n :: n != name ==> Of(n, doc) == old(Of(n, doc))
        invariant Of(name, doc) == if early then map[] else old(Of(name, doc))
        invariant clock >= old(clock) + attempt && (attempt > 0 ==> Failed(old(clock), clock))
        invariant early ==> Lost(old(clock), clock)
      {
        var took;
        r, took := DeleteOnce(name, doc);
        if !Passing(r) {
          return;
        }
        early := early || took;
      }
      r := Failure(EXHAUSTED);
    }
  }
}
