/** The hybrid search: filter, weighted fusion by duplicated lists, ColBERT rerank. */
module Search {
  import opened Ranking
  import opened Results
  import opened Retry
  import opened Stores
  import opened Text
  import Items
  import Ownership

  const PREFETCH_LIMIT := 50
  const FUSION_LIMIT := 100
  const THRESHOLD := 0.0
  const DENSE_WEIGHT: nat := 3
  const SPARSE_WEIGHT: nat := 1

  // ---- filters

  datatype Key = IsActive | SourceType | Tags | Category

  datatype Value = Flag(flag: bool) | Word(word: string)

  datatype Condition = Condition(key: Key, any: seq<Value>)

  type Filter = seq<Condition>

  /** What a stored payload has under a key: build_payload writes neither tags nor a category. */
  function Lookup(p: Payload, key: Key): Option<Value> {
    match key
    case IsActive => Some(Flag(p.isActive))
    case SourceType => Some(Word(p.sourceType))
    case Tags => None
    case Category => None
  }

  predicate Meets(c: Condition, p: Payload) { Lookup(p, c.key).Some? && Lookup(p, c.key).value in c.any }

  predicate Satisfies(f: Filter, p: Payload) { forall i :: 0 <= i < |f| ==> Meets(f[i], p) }

  function Words(words: seq<string>): (r: seq<Value>)
    ensures |r| == |words| && forall i :: 0 <= i < |r| ==> r[i] == Word(words[i])
  {
    seq(|words|, i requires 0 <= i < |words| => Word(words[i]))
  }

  /** The caller gave a list or a string, and not an empty one. */
  predicate Given<T(==)>(arg: Option<seq<T>>) { arg.Some? && arg.value != [] }

  /** What a request for these source types, tags and category gets to see. */
  predicate Wanted(types: Option<seq<string>>, tags: Option<seq<string>>, category: Option<string>, p: Payload) {
    p.isActive && (Given(types) ==> p.sourceType in types.value) && !Given(tags) && !Given(category)
  }

  /** An inactive point is never wanted, an empty list restricts nothing, and any tag or category excludes all. */
  method BuildFilter(types: Option<seq<string>>, tags: Option<seq<string>>, category: Option<string>)
    returns (must: Filter)
    ensures forall p :: Satisfies(must, p) <==> Wanted(types, tags, category, p)
  {
    must := [Condition(IsActive, [Flag(true)])];
    if Given(types) {
      must := must + [Condition(SourceType, Words(types.value))];
    }
    ghost var typed := must;
    if Given(tags) {
      must := must + [Condition(Tags, Words(tags.value))];
    }
    if Given(category) {
      must := must + [Condition(Category, [Word(category.value)])];
    }
    forall p
      ensures Satisfies(must, p) <==> Wanted(types, tags, category, p)
    {
      TypedFilter(types, typed, p);
      assert must[..|typed|] == typed;
      assert Given(tags) ==> !Meets(must[|typed|], p);
      assert Given(category) ==> !Meets(must[|must| - 1], p);
      assert forall i :: 0 <= i < |typed| ==> must[i] == typed[i];
    }
  }

  lemma TypedFilter(types: Option<seq<string>>, f: Filter, p: Payload)
    requires f == [Condition(IsActive, [Flag(true)])]
                  + if Given(types) then [Condition(SourceType, Words(types.value))] else []
    ensures Satisfies(f, p) <==> p.isActive && (Given(types) ==> p.sourceType in types.value)
  {
    assert Meets(f[0], p) <==> p.isActive;
    if Given(types) {
      assert Meets(f[1], p) <==> p.sourceType in types.value by {
        if p.sourceType in types.value {
          var i :| 0 <= i < |types.value| && types.value[i] == p.sourceType;
          assert Words(types.value)[i] == Word(p.sourceType);
        }
      }
    }
  }

  // ---- reciprocal rank fusion

  /** What one list adds for an id, by the place where it first lists it. */
  function Share(list: seq<PointId>, id: PointId, k: real): real
    requires k > 0.0
  {
    if id !in list then 0.0 else 1.0 / (k + Place(list, id) as real)
  }

  function Place(list: seq<PointId>, id: PointId): (r: nat)
    requires id in list
    ensures r < |list| && list[r] == id && id !in list[..r]
  {
    if list[0] == id then 0
    else
      var r := 1 + Place(list[1..], id);
      assert list[..r] == [list[0]] + list[1..][..r - 1];
      r
  }

  function Rrf(lists: seq<seq<PointId>>, id: PointId, k: real): real
    requires k > 0.0
  {
    if lists == [] then 0.0
    else Rrf(lists[..|lists| - 1], id, k) + Share(lists[|lists| - 1], id, k)
  }

  lemma {:induction false} RrfConcat(a: seq<seq<PointId>>, b: seq<seq<PointId>>, id: PointId, k: real)
    requires k > 0.0
    ensures Rrf(a + b, id, k) == Rrf(a, id, k) + Rrf(b, id, k)
  {
    if b == [] {
      assert a + b == a;
    } else {
      assert (a + b)[..|a + b| - 1] == a + b[..|b| - 1];
      RrfConcat(a, b[..|b| - 1], id, k);
    }
  }

  function Copies<T>(n: nat, x: T): (r: seq<T>)
    ensures |r| == n && forall i :: 0 <= i < n ==> r[i] == x
  {
    seq(n, _ => x)
  }

  lemma {:induction false} RrfCopies(n: nat, list: seq<PointId>, id: PointId, k: real)
    requires k > 0.0
    ensures Rrf(Copies(n, list), id, k) == n as real * Share(list, id, k)
  {
    if n > 0 {
      RrfCopies(n - 1, list, id, k);
      assert Copies(n, list)[..n - 1] == Copies(n - 1, list);
      assert n as real * Share(list, id, k) == (n - 1) as real * Share(list, id, k) + Share(list, id, k);
    }
  }

  /** The specified score: the weighted sum of the reciprocal ranks in the two lists. */
  function WeightedSum(w: nat, v: nat, dense: seq<PointId>, sparse: seq<PointId>, id: PointId, k: real): real
    requires k > 0.0
  {
    w as real * Share(dense, id, k) + v as real * Share(sparse, id, k)
  }

  /** Duplicating lists is weighting them: plain fusion over the copies is weighted fusion over the originals. */
  lemma DuplicationIsWeight(w: nat, v: nat, dense: seq<PointId>, sparse: seq<PointId>, id: PointId, k: real)
    requires k > 0.0
    ensures Rrf(Copies(w, dense) + Copies(v, sparse), id, k) == WeightedSum(w, v, dense, sparse, id, k)
  {
    RrfConcat(Copies(w, dense), Copies(v, sparse), id, k);
    RrfCopies(w, dense, id, k);
    RrfCopies(v, sparse, id, k);
  }

  // ---- the query

  datatype Vectors = Dense | Bm25

  datatype Prefetch = Prefetch(vectors: Vectors, limit: nat, filter: Filter)

  /** The server for one embedded query: its nearest neighbours, its way to break ties, the late-interaction score. */
  datatype Engine = Engine(near: Prefetch -> seq<PointId>, top: (PointId -> real, set<PointId>, nat) -> seq<PointId>,
                           colbert: PointId -> real, k: real)

  /** Neighbours are distinct points of the collection that satisfy the filter, as many as the limit at most. */
  ghost predicate Works(e: Engine, c: Collection) {
    && e.k > 0.0
    && (forall p :: Proper(e.near(p), p, c))
    && (forall score, s, n :: IsTop(e.top(score, s, n), s, score, n))
  }

  ghost predicate Proper(r: seq<PointId>, p: Prefetch, c: Collection) {
    Distinct(r) && |r| <= p.limit && forall id :: id in r ==> id in c && Satisfies(p.filter, c[id])
  }

  function Prefetches(filter: Filter, w: nat, v: nat): seq<Prefetch> {
    Copies(w, Prefetch(Dense, PREFETCH_LIMIT, filter)) + Copies(v, Prefetch(Bm25, PREFETCH_LIMIT, filter))
  }

  function Lists(e: Engine, prefetches: seq<Prefetch>): (r: seq<seq<PointId>>)
    ensures |r| == |prefetches| && forall i :: 0 <= i < |r| ==> r[i] == e.near(prefetches[i])
  {
    seq(|prefetches|, i requires 0 <= i < |prefetches| => e.near(prefetches[i]))
  }

  function Union(lists: seq<seq<PointId>>): set<PointId> { set i, id | 0 <= i < |lists| && id in lists[i] :: id }

  /** The fusion node: plain reciprocal rank fusion over its prefetches. */
  function Fuse(e: Engine, prefetches: seq<Prefetch>): seq<PointId>
    requires e.k > 0.0
  {
    var lists := Lists(e, prefetches);
    e.top(id => Rrf(lists, id, e.k), Union(lists), FUSION_LIMIT)
  }

  /** The outer query: the fused candidates by ColBERT score, above the threshold, filtered again. */
  function Rerank(e: Engine, c: Collection, fused: seq<PointId>, filter: Filter, topK: nat): seq<PointId> {
    e.top(e.colbert, Eligible(e, c, Elements(fused), filter), topK)
  }

  function Eligible(e: Engine, c: Collection, ids: set<PointId>, filter: Filter): set<PointId> {
    set id | id in ids && id in c && Satisfies(filter, c[id]) && e.colbert(id) >= THRESHOLD
  }

  function Answer(e: Engine, c: Collection, filter: Filter, w: nat, v: nat, topK: nat): seq<PointId>
    requires e.k > 0.0
  {
    Rerank(e, c, Fuse(e, Prefetches(filter, w, v)), filter, topK)
  }

  /** Both neighbour lists, taken together. */
  function Candidates(e: Engine, filter: Filter): set<PointId> {
    Elements(e.near(Prefetch(Dense, PREFETCH_LIMIT, filter))) + Elements(e.near(Prefetch(Bm25, PREFETCH_LIMIT, filter)))
  }

  lemma UnionIsCandidates(e: Engine, filter: Filter, w: nat, v: nat)
    requires w > 0 && v > 0
    ensures Union(Lists(e, Prefetches(filter, w, v))) == Candidates(e, filter)
  {
    var lists := Lists(e, Prefetches(filter, w, v));
    assert lists[0] == e.near(Prefetch(Dense, PREFETCH_LIMIT, filter));
    assert lists[w] == e.near(Prefetch(Bm25, PREFETCH_LIMIT, filter));
  }

  /** Two lists of at most 50 never exceed the fusion limit of 100, so fusion cuts nothing. */
  lemma FusionIsLossless(e: Engine, c: Collection, filter: Filter, w: nat, v: nat)
    requires Works(e, c) && w > 0 && v > 0
    ensures Elements(Fuse(e, Prefetches(filter, w, v))) == Candidates(e, filter)
  {
    var dense, sparse := Prefetch(Dense, PREFETCH_LIMIT, filter), Prefetch(Bm25, PREFETCH_LIMIT, filter);
    assert Proper(e.near(dense), dense, c) && Proper(e.near(sparse), sparse, c);
    ElementsCount(e.near(dense));
    ElementsCount(e.near(sparse));
    UnionIsCandidates(e, filter, w, v);
    UnionCount(Elements(e.near(dense)), Elements(e.near(sparse)));
    var lists := Lists(e, Prefetches(filter, w, v));
    var score := id => Rrf(lists, id, e.k);
    TopOfFew(e.top(score, Union(lists), FUSION_LIMIT), Union(lists), score, FUSION_LIMIT);
    assert Fuse(e, Prefetches(filter, w, v)) == e.top(score, Union(lists), FUSION_LIMIT);
  }

  lemma UnionCount<T>(a: set<T>, b: set<T>)
    ensures |a + b| <= |a| + |b|
  {
    assert a + b == a + (b - a);
    SubsetCount(b - a, b);
  }

  /**
   * What search returns, without fusion: the top_k by ColBERT score of all candidates above the threshold. The
   * weights make no difference, save for the order of equal scores.
   */
  lemma AnswerIsTop(e: Engine, c: Collection, filter: Filter, w: nat, v: nat, topK: nat)
    requires Works(e, c) && w > 0 && v > 0
    ensures IsTop(Answer(e, c, filter, w, v, topK), Eligible(e, c, Candidates(e, filter), filter), e.colbert, topK)
  {
    FusionIsLossless(e, c, filter, w, v);
  }

  lemma WeightsAreIrrelevant(e: Engine, e': Engine, c: Collection, filter: Filter, w: nat, v: nat, w': nat, v': nat,
                             topK: nat)
    requires Works(e, c) && Works(e', c) && w > 0 && v > 0 && w' > 0 && v' > 0
    requires e'.near == e.near && e'.colbert == e.colbert
    ensures var a, b := Answer(e, c, filter, w, v, topK), Answer(e', c, filter, w', v', topK);
            |a| == |b| && forall i :: 0 <= i < |a| ==> e.colbert(a[i]) == e.colbert(b[i])
  {
    AnswerIsTop(e, c, filter, w, v, topK);
    AnswerIsTop(e', c, filter, w', v', topK);
    assert Candidates(e', filter) == Candidates(e, filter);
    TopScores(Answer(e, c, filter, w, v, topK), Answer(e', c, filter, w', v', topK),
              Eligible(e, c, Candidates(e, filter), filter), e.colbert, topK);
  }

  function Weighted(e: Engine, filter: Filter, w: nat, v: nat): PointId -> real
    requires e.k > 0.0
  {
    var dense := e.near(Prefetch(Dense, PREFETCH_LIMIT, filter));
    var sparse := e.near(Prefetch(Bm25, PREFETCH_LIMIT, filter));
    id => WeightedSum(w, v, dense, sparse, id, e.k)
  }

  /** An id that a list has at rank i, and not before, gets one over k plus i from it; one that it has not, nothing. */
  lemma ShareMeans(list: seq<PointId>, id: PointId, k: real, i: nat)
    requires k > 0.0
    ensures id !in list ==> Share(list, id, k) == 0.0
    ensures i < |list| && list[i] == id && id !in list[..i] ==> Share(list, id, k) == 1.0 / (k + i as real)
  {
    if i < |list| && list[i] == id && id !in list[..i] {
      PlaceOnce(list, id, i, Place(list, id));
    }
  }

  lemma PlaceOnce(list: seq<PointId>, id: PointId, i: nat, r: nat)
    requires i < |list| && list[i] == id && id !in list[..i]
    requires r < |list| && list[r] == id && id !in list[..r]
    ensures i == r
  {
    assert forall j :: 0 <= j < i ==> list[..i][j] == list[j];
    assert forall j :: 0 <= j < r ==> list[..r][j] == list[j];
  }

  /** The service's own weights: three to one, over lists of 50. */
  lemma ServiceWeights(e: Engine, filter: Filter, id: PointId)
    requires e.k > 0.0
    ensures Weighted(e, filter, DENSE_WEIGHT, SPARSE_WEIGHT)(id) ==
            3.0 * Share(e.near(Prefetch(Dense, 50, filter)), id, e.k)
            + Share(e.near(Prefetch(Bm25, 50, filter)), id, e.k)
  {}

  lemma ListsAreCopies(e: Engine, filter: Filter, w: nat, v: nat)
    ensures Lists(e, Prefetches(filter, w, v)) ==
            Copies(w, e.near(Prefetch(Dense, PREFETCH_LIMIT, filter)))
            + Copies(v, e.near(Prefetch(Bm25, PREFETCH_LIMIT, filter)))
  {}

  lemma PlainIsWeighted(e: Engine, filter: Filter, w: nat, v: nat, id: PointId)
    requires e.k > 0.0
    ensures Rrf(Lists(e, Prefetches(filter, w, v)), id, e.k) == Weighted(e, filter, w, v)(id)
  {
    var dense := e.near(Prefetch(Dense, PREFETCH_LIMIT, filter));
    var sparse := e.near(Prefetch(Bm25, PREFETCH_LIMIT, filter));
    ListsAreCopies(e, filter, w, v);
    DuplicationIsWeight(w, v, dense, sparse, id, e.k);
  }

  /** Fusion over the duplicated prefetches ranks the candidates as specified. */
  lemma FusionIsWeighted(e: Engine, c: Collection, filter: Filter, w: nat, v: nat)
    requires Works(e, c) && w > 0 && v > 0
    ensures IsTop(Fuse(e, Prefetches(filter, w, v)), Candidates(e, filter), Weighted(e, filter, w, v), FUSION_LIMIT)
  {
    var lists := Lists(e, Prefetches(filter, w, v));
    var plain := id => Rrf(lists, id, e.k);
    forall id
      ensures plain(id) == Weighted(e, filter, w, v)(id)
    {
      PlainIsWeighted(e, filter, w, v, id);
    }
    UnionIsCandidates(e, filter, w, v);
    SameScores(e.top(plain, Union(lists), FUSION_LIMIT), Union(lists), plain, Weighted(e, filter, w, v), FUSION_LIMIT);
  }

  lemma SameScores<T(!new)>(r: seq<T>, s: set<T>, f: T -> real, g: T -> real, n: nat)
    requires IsTop(r, s, f, n) && forall x :: f(x) == g(x)
    ensures IsTop(r, s, g, n)
  {}

  // ---- the call

  datatype Hit = Hit(payload: Payload, score: real)

  datatype Problem = BadName | LookupFailed(error: Exception) | NoCollection | EmptyQuery | ModelFailed |
    QueryFailed(error: Exception)

  /** The hits are the listed points, in order, with their scores. */
  ghost predicate Reports(hits: seq<Hit>, ids: seq<PointId>, c: Collection, colbert: PointId -> real) {
    |hits| == |ids| && forall i :: 0 <= i < |ids| ==> ids[i] in c && hits[i] == Hit(c[ids[i]], colbert(ids[i]))
  }

  /** What stands in the way of the k-th attempt, if anything does. */
  type Outages = nat -> Option<Exception>

  /** The k-th attempt is answered, and only transient failures come before it. */
  ghost predicate AnsweredAt(outages: Outages, k: nat) {
    outages(k).None? && forall i: nat :: i < k ==> outages(i).Some? && IsTransient(outages(i).value)
  }

  ghost predicate Answered(outages: Outages) { exists k: nat :: k < 3 && AnsweredAt(outages, k) }

  /** A point that one of the two lists of 50 names, that the filter lets through, and that scores 0.0 or more. */
  ghost predicate Answers(e: Engine, c: Collection, filter: Filter, id: PointId) {
    && (id in e.near(Prefetch(Dense, 50, filter)) || id in e.near(Prefetch(Bm25, 50, filter)))
    && id in c && Satisfies(filter, c[id]) && e.colbert(id) >= 0.0
  }

  /**
   * The best hits, best first: each is a different answering point with its score; and an answering point that is no
   * hit scores no more than any of them, of which there are then topK.
   */
  ghost predicate BestHits(e: Engine, c: Collection, filter: Filter, topK: nat, hits: seq<Hit>) {
    && |hits| <= topK
    && (forall i, j :: 0 <= i < j < |hits| ==> hits[i].score >= hits[j].score)
    && (forall i :: 0 <= i < |hits| ==> hits[i].score >= 0.0)
    && exists ids: seq<PointId> :: |ids| == |hits| && Distinct(ids) && NamesHits(e, c, filter, ids, hits)
                   && forall id :: Answers(e, c, filter, id) && id !in ids ==>
                        |hits| == topK && forall i :: 0 <= i < |hits| ==> hits[i].score >= e.colbert(id)
  }

  ghost predicate NamesHits(e: Engine, c: Collection, filter: Filter, ids: seq<PointId>, hits: seq<Hit>)
    requires |ids| == |hits|
  {
    forall i :: 0 <= i < |ids| ==> Answers(e, c, filter, ids[i]) && hits[i] == Hit(c[ids[i]], e.colbert(ids[i]))
  }

  /** What the threshold and the candidates come to. */
  lemma EligibleMeans(e: Engine, c: Collection, filter: Filter, id: PointId)
    ensures id in Eligible(e, c, Candidates(e, filter), filter) <==> Answers(e, c, filter, id)
  {}

  lemma TopIsBest(e: Engine, c: Collection, filter: Filter, topK: nat, ids: seq<PointId>, hits: seq<Hit>)
    requires IsTop(ids, Eligible(e, c, Candidates(e, filter), filter), e.colbert, topK)
    requires Reports(hits, ids, c, e.colbert)
    ensures BestHits(e, c, filter, topK, hits)
  {
    var s := Eligible(e, c, Candidates(e, filter), filter);
    forall i | 0 <= i < |ids|
      ensures Answers(e, c, filter, ids[i]) && hits[i] == Hit(c[ids[i]], e.colbert(ids[i]))
    {
      assert ids[i] in Elements(ids);
      EligibleMeans(e, c, filter, ids[i]);
    }
    forall id | Answers(e, c, filter, id) && id !in ids
      ensures |hits| == topK && forall i :: 0 <= i < |hits| ==> hits[i].score >= e.colbert(id)
    {
      EligibleMeans(e, c, filter, id);
      LeftOut(ids, s, e.colbert, topK, id);
    }
  }

  /** What the list leaves out is left out because it is full. */
  lemma LeftOut<T(!new)>(r: seq<T>, s: set<T>, score: T -> real, n: nat, x: T)
    requires IsTop(r, s, score, n) && x in s && x !in r
    ensures |r| == n && forall i :: 0 <= i < |r| ==> score(r[i]) >= score(x)
  {
    if |s| <= n {
      TopOfFew(r, s, score, n);
    }
  }

  /** query_points under the retry decorator, then the loop that adds the scores. */
  method ExecuteQuery(e: Engine, c: Collection, filter: Filter, topK: nat, outages: Outages, jitter: nat -> real)
    returns (r: Reply<seq<Hit>>)
    requires Works(e, c)
    ensures r.Success? <==> Answered(outages)
    ensures r.Success? ==> Reports(r.value, Answer(e, c, filter, DENSE_WEIGHT, SPARSE_WEIGHT, topK), c, e.colbert)
    ensures r.Success? ==> BestHits(e, c, filter, topK, r.value)
    ensures r.Failure? ==> !IsTransient(r.error)
  {
    var ids := Answer(e, c, filter, DENSE_WEIGHT, SPARSE_WEIGHT, topK);
    AnswerIsTop(e, c, filter, DENSE_WEIGHT, SPARSE_WEIGHT, topK);
    var replies: nat -> Reply<seq<PointId>> :=
      (k: nat) => if outages(k).Some? then Failure(outages(k).value) else Success(ids);
    var points, calls, slept := WithRetry(replies, 3, 0.5, 2.0, jitter);
    FirstAnswer(outages, replies, ids, points);
    if points.Failure? {
      return Failure(points.error);
    }
    var hits := Scored(e, c, ids);
    TopIsBest(e, c, filter, topK, ids, hits);
    r := Success(hits);
  }

  lemma FirstAnswer(outages: Outages, replies: nat -> Reply<seq<PointId>>, ids: seq<PointId>, r: Reply<seq<PointId>>)
    requires forall k: nat ::
               replies(k) == if outages(k).Some? then Failure(outages(k).value) else Success(ids)
    requires forall k: nat :: k < 3 && Ends(replies, k) ==> r == replies(k)
    requires (forall k: nat :: k < 3 ==> Passing(replies(k))) ==> r == Failure(EXHAUSTED)
    ensures r.Success? <==> Answered(outages)
    ensures r.Success? ==> r.value == ids
  {
    if k: nat :| k < 3 && !Passing(replies(k)) {
      var first := if !Passing(replies(0)) then 0 else if !Passing(replies(1)) then 1 else 2;
      assert Ends(replies, first);
      assert r.Success? ==> AnsweredAt(outages, first);
      if Answered(outages) {
        var j: nat :| j < 3 && AnsweredAt(outages, j);
        assert forall i: nat :: i < j ==> Passing(replies(i));
        assert j == first;
      }
    } else {
      assert forall j: nat :: j < 3 ==> Passing(replies(j)) && outages(j).Some?;
    }
  }

  method Scored(e: Engine, c: Collection, ids: seq<PointId>) returns (hits: seq<Hit>)
    requires forall id :: id in Elements(ids) ==> id in c
    ensures Reports(hits, ids, c, e.colbert)
  {
    hits := [];
    for i := 0 to |ids|
      invariant |hits| == i
      invariant forall j :: 0 <= j < i ==> ids[j] in c && hits[j] == Hit(c[ids[j]], e.colbert(ids[j]))
    {
      assert ids[i] in Elements(ids);
      hits := hits + [Hit(c[ids[i]], e.colbert(ids[i]))];
    }
  }

  /** What goes wrong on the way: collection_exists, which is not retried, the embedding model, the query. */
  datatype Trouble = Trouble(lookup: Option<Exception>, model: bool, query: Outages)

  /**
   * search: the best top_k by ColBERT score among the wanted points that either list names, of all points in the
   * bot's collection, or the first reason why there is no answer.
   */
  method Search(e: Engine, st: Stores, key: BotKey, query: string, topK: nat, types: Option<seq<string>>,
                tags: Option<seq<string>>, category: Option<string>, trouble: Trouble, jitter: nat -> real)
    returns (r: Result<seq<Hit>, Problem>)
    requires key.Name() in st.collections ==> Works(e, st.collections[key.Name()])
    ensures r == Failure(BadName) <==> !key.Valid()
    ensures r.Failure? && r.error.LookupFailed? <==> key.Valid() && trouble.lookup.Some?
    ensures var found := key.Valid() && trouble.lookup.None?;
            && (r == Failure(NoCollection) <==> found && key.Name() !in st.collections)
            && (r == Failure(EmptyQuery) <==> found && key.Name() in st.collections && Blank(query))
            && (r == Failure(ModelFailed) <==> found && key.Name() in st.collections && !Blank(query) && trouble.model)
            && (r.Success? <==> found && key.Name() in st.collections && !Blank(query) && !trouble.model
                                && Answered(trouble.query))
    ensures r.Success? ==>
              exists filter :: Selects(filter, types, tags, category)
                               && BestOf(e, st.collections[key.Name()], filter, topK, r.value)
                               && BestHits(e, st.collections[key.Name()], filter, topK, r.value)
  {
    if !key.Valid() {
      return Failure(BadName);
    }
    if trouble.lookup.Some? {
      return Failure(LookupFailed(trouble.lookup.value));
    }
    if key.Name() !in st.collections {
      return Failure(NoCollection);
    }
    BlankIffStripped(query);
    if Strip(query) == "" {
      return Failure(EmptyQuery);
    }
    if trouble.model {
      return Failure(ModelFailed);
    }
    var c := st.collections[key.Name()];
    var filter := BuildFilter(types, tags, category);
    var hits := ExecuteQuery(e, c, filter, topK, trouble.query, jitter);
    if hits.Failure? {
      return Failure(QueryFailed(hits.error));
    }
    AnswerIsTop(e, c, filter, DENSE_WEIGHT, SPARSE_WEIGHT, topK);
    assert BestOf(e, c, filter, topK, hits.value) && BestHits(e, c, filter, topK, hits.value);
    r := Success(hits.value);
  }

  /** The filter lets through the active points of the given source types, and nothing if a tag or category is given. */
  ghost predicate Selects(f: Filter, types: Option<seq<string>>, tags: Option<seq<string>>, category: Option<string>) {
    forall p :: Satisfies(f, p) <==>
      && p.isActive
      && (types == None || types.value == [] || p.sourceType in types.value)
      && (tags == None || tags.value == []) && (category == None || category.value == "")
  }

  /** Every uploaded point is one that a search wants, unless it asks for other source types, or for tags. */
  lemma UploadsAreWanted(env: Env, key: BotKey, doc: string, body: Body, hash: string, of: Items.Chunking, i: nat,
                         k: nat, f: Filter, types: Option<seq<string>>)
    requires i < |body.items| && k < |of(body.items[i].content)| && Selects(f, types, None, None)
    ensures Satisfies(f, Items.Expected(env, key, doc, body, hash, of, i, k).payload) <==>
            types == None || types.value == [] || body.sourceType in types.value
  {}

  /** The hits are the topK best by ColBERT score of both neighbour lists under the filter. */
  ghost predicate BestOf(e: Engine, c: Collection, filter: Filter, topK: nat, hits: seq<Hit>) {
    exists ids :: IsTop(ids, Eligible(e, c, Candidates(e, filter), filter), e.colbert, topK)
                  && Reports(hits, ids, c, e.colbert)
  }

  /**
   * No hit is of another bot than the one registered under the collection name, so a search answers from the
   * caller's own documents exactly if the caller is that bot; a hit shows that somebody is.
   */
  lemma HitsAreOneBots(e: Engine, st: Stores, key: BotKey, filter: Filter, topK: nat, hits: seq<Hit>, i: nat)
    requires Ownership.Owned(st) && key.Name() in st.collections && i < |hits|
    requires BestOf(e, st.collections[key.Name()], filter, topK, hits)
    ensures key.Name() in st.bots && hits[i].payload.key == st.bots[key.Name()]
    ensures hits[i].payload.key == key <==> Ownership.Registered(st, key)
    ensures Satisfies(filter, hits[i].payload)
  {
    var c := st.collections[key.Name()];
    var ids :| IsTop(ids, Eligible(e, c, Candidates(e, filter), filter), e.colbert, topK)
               && Reports(hits, ids, c, e.colbert);
    assert ids[i] in Elements(ids);
    assert Ownership.CollectionOwned(st, key.Name());
  }
}
