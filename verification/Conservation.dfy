/** Counting points: what is stored for a bot is what its rows, or its upload responses, account for. */
module Conservation {
  import opened Effects
  import opened Ownership
  import opened OwnHistory
  import opened Protocol
  import opened Results
  import opened Sharing
  import opened Stores

  // ---- sums over documents

  ghost function Sum(f: string -> int, docs: set<string>): int {
    if docs == {} then 0 else var d :| d in docs; f(d) + Sum(f, docs - {d})
  }

  lemma {:induction false} SumRemove(f: string -> int, docs: set<string>, d: string)
    requires d in docs
    ensures Sum(f, docs) == f(d) + Sum(f, docs - {d})
  {
    var e :| e in docs && Sum(f, docs) == f(e) + Sum(f, docs - {e});
    if e != d {
      SumRemove(f, docs - {e}, d);
      SumRemove(f, docs - {d}, e);
      assert docs - {e} - {d} == docs - {d} - {e};
    }
  }

  lemma {:induction false} SumSame(f: string -> int, g: string -> int, docs: set<string>)
    requires forall d :: d in docs ==> f(d) == g(d)
    ensures Sum(f, docs) == Sum(g, docs)
  {
    if docs != {} {
      var d :| d in docs;
      SumRemove(f, docs, d);
      SumRemove(g, docs, d);
      SumSame(f, g, docs - {d});
    }
  }

  /** A collection is counted document by document. */
  lemma {:induction false} CountByDoc(c: Collection, docs: set<string>)
    requires forall id :: id in c ==> c[id].doc in docs
    ensures |c| == Sum((d: string) => |DocPoints(c, d)|, docs)
    decreases docs
  {
    if docs == {} {
      assert c.Keys == {};
    } else {
      var d :| d in docs;
      var rest := Without(c, d);
      CountByDoc(rest, docs - {d});
      assert c.Keys == DocPoints(c, d).Keys + rest.Keys;
      forall e | e in docs - {d}
        ensures |DocPoints(c, e)| == |DocPoints(rest, e)|
      {
        assert DocPoints(c, e) == DocPoints(rest, e);
      }
      SumSame((e: string) => |DocPoints(c, e)|, (e: string) => |DocPoints(rest, e)|, docs - {d});
      SumRemove((e: string) => |DocPoints(c, e)|, docs, d);
    }
  }

  // ---- conservation

  const EMPTY := Stores({}, map[], map[], map[])

  ghost predicate Quiescent(s: State) { forall pid :: pid in s.procs ==> !Holding(s.procs[pid].pc) }

  /** The database accepts the row of every upload. */
  ghost predicate Accepted(actions: seq<Action>) {
    forall a :: a in actions && a.Start? && a.req.Upload? ==> Storable(a.req.content)
  }

  /** A reachable quiescent state of a system that started empty, all rows storable; any bots, any documents. */
  ghost predicate Reached(env: Env, faults: Faults, actions: seq<Action>, s: State) {
    && CollisionFree(env) && Legal(env, faults, Begin(EMPTY), actions) && Accepted(actions)
    && s == Run(env, Begin(EMPTY), actions) && Quiescent(s)
  }

  function ActiveCount(st: Stores, key: BotKey, doc: string): int {
    if doc in st.rows && st.rows[doc].key == key && st.rows[doc].status == Active then st.rows[doc].chunkCount
    else 0
  }

  /**
   * Conservation, any bots without clashes: when nothing fails between a removal of points and the row save that
   * accounts for it, then at rest a bot's collection holds exactly as many points as its active rows count.
   */
  lemma PointsEqualRows(env: Env, actions: seq<Action>, s: State, key: BotKey)
    requires Reached(env, Lossless, actions, s) && NeverClash(env, Begin(EMPTY), actions) && Registered(s.st, key)
    ensures |Held(s.st, key.Name())| == Sum((d: string) => ActiveCount(s.st, key, d), s.st.rows.Keys)
  {
    var c, docs := Held(s.st, key.Name()), s.st.rows.Keys;
    forall doc
      ensures |DocPoints(c, doc)| == ActiveCount(s.st, key, doc)
      ensures doc !in docs ==> DocPoints(c, doc) == map[]
    {
      assert OwnView(EMPTY, key, doc) == View(None, map[]);
      AgreementAnyBots(env, Lossless, EMPTY, actions, key, doc);
      assert AgreeFully(OwnView(s.st, key, doc));
    }
    forall id | id in c
      ensures c[id].doc in docs
    {
      assert id in DocPoints(c, c[id].doc);
    }
    CountByDoc(c, docs);
    SumSame((d: string) => |DocPoints(c, d)|, (d: string) => ActiveCount(s.st, key, d), docs);
  }

  // ---- fresh uploads and their responses

  /** Uploads only, every document uploaded once. */
  ghost predicate FreshUploads(actions: seq<Action>) {
    && (forall i :: 0 <= i < |actions| && actions[i].Start? ==> actions[i].req.Upload?)
    && (forall i, j :: 0 <= i < j < |actions| && actions[i].Start? && actions[j].Start? ==>
          actions[i].req.doc != actions[j].req.doc)
  }

  /** One process per document, and one event at most, the finished process's own. */
  ghost predicate OneEach(s: State, actions: seq<Action>) {
    && (forall pid :: pid in s.procs ==> Started(actions, pid, s.procs[pid].req))
    && (forall doc :: doc in s.log ==> OneEvent(s, doc))
  }

  ghost predicate Started(actions: seq<Action>, pid: nat, req: Request) {
    exists i :: 0 <= i < |actions| && actions[i] == Start(pid, req)
  }

  ghost predicate OneEvent(s: State, doc: string)
    requires doc in s.log
  {
    |s.log[doc]| == 1 && s.log[doc][0].req.Upload? && Done(s, doc)
  }

  ghost predicate Done(s: State, doc: string) {
    exists pid :: pid in s.procs && s.procs[pid].req.doc == doc && s.procs[pid].pc.Finished?
  }

  lemma StartedLater(actions: seq<Action>, a: Action, pid: nat, req: Request)
    requires Started(actions, pid, req) || a == Start(pid, req)
    ensures Started(actions + [a], pid, req)
  {
    var all := actions + [a];
    if Started(actions, pid, req) {
      var i :| 0 <= i < |actions| && actions[i] == Start(pid, req);
      assert all[i] == Start(pid, req);
    } else {
      assert all[|actions|] == Start(pid, req);
    }
  }

  lemma OneProcessPerDoc(s: State, actions: seq<Action>, pid: nat, other: nat)
    requires FreshUploads(actions) && OneEach(s, actions) && pid in s.procs && other in s.procs
    requires s.procs[pid].req.doc == s.procs[other].req.doc
    ensures pid == other && s.procs[pid].req.Upload?
  {
    assert Started(actions, pid, s.procs[pid].req) && Started(actions, other, s.procs[other].req);
    var i :| 0 <= i < |actions| && actions[i] == Start(pid, s.procs[pid].req);
    var j :| 0 <= j < |actions| && actions[j] == Start(other, s.procs[other].req);
  }

  lemma NotDoneYet(s: State, actions: seq<Action>, pid: nat)
    requires FreshUploads(actions) && OneEach(s, actions) && pid in s.procs && !s.procs[pid].pc.Finished?
    ensures s.procs[pid].req.doc !in s.log && s.procs[pid].req.Upload?
  {
    OneProcessPerDoc(s, actions, pid, pid);
    var doc := s.procs[pid].req.doc;
    if Done(s, doc) {
      var q :| q in s.procs && s.procs[q].req.doc == doc && s.procs[q].pc.Finished?;
      OneProcessPerDoc(s, actions, pid, q);
    }
    assert doc in s.log ==> OneEvent(s, doc);
  }

  lemma NextOneEach(env: Env, faults: Faults, s: State, actions: seq<Action>, a: Action)
    requires FreshUploads(actions) && OneEach(s, actions) && Enabled(env, faults, s, a)
    ensures OneEach(Next(env, s, a), actions + [a])
  {
    var s' := Next(env, s, a);
    forall pid | pid in s'.procs
      ensures Started(actions + [a], pid, s'.procs[pid].req)
    {
      assert pid in s.procs ==> Started(actions, pid, s.procs[pid].req);
      StartedLater(actions, a, pid, s'.procs[pid].req);
    }
    forall doc | doc in s'.log
      ensures OneEvent(s', doc)
    {
      NextOneEvent(env, faults, s, actions, a, doc);
    }
  }

  lemma NextOneEvent(env: Env, faults: Faults, s: State, actions: seq<Action>, a: Action, doc: string)
    requires FreshUploads(actions) && OneEach(s, actions) && Enabled(env, faults, s, a)
    requires doc in Next(env, s, a).log
    ensures OneEvent(Next(env, s, a), doc)
  {
    var s' := Next(env, s, a);
    if a.Unlock? && s.procs[a.pid].req.doc == doc {
      NotDoneYet(s, actions, a.pid);
      assert s'.procs[a.pid].pc.Finished?;
    } else {
      assert OneEvent(s, doc);
      var pid :| pid in s.procs && s.procs[pid].req.doc == doc && s.procs[pid].pc.Finished?;
      assert s'.procs[pid] == s.procs[pid];
    }
  }

  lemma FreshPrefix(actions: seq<Action>)
    requires actions != [] && FreshUploads(actions)
    ensures FreshUploads(actions[..|actions| - 1])
  {
    assert forall i :: 0 <= i < |actions| - 1 ==> actions[..|actions| - 1][i] == actions[i];
  }

  lemma {:induction false} RunOneEach(env: Env, faults: Faults, st0: Stores, actions: seq<Action>)
    requires FreshUploads(actions) && Legal(env, faults, Begin(st0), actions)
    ensures OneEach(Run(env, Begin(st0), actions), actions)
  {
    if actions != [] {
      var front, a := actions[..|actions| - 1], actions[|actions| - 1];
      FreshPrefix(actions);
      RunOneEach(env, faults, st0, front);
      NextOneEach(env, faults, Run(env, Begin(st0), front), front, a);
      assert actions == front + [a];
    }
  }

  /** No document is requested twice, so nobody clashes. */
  lemma {:induction false} FreshNeverClashes(env: Env, faults: Faults, st0: Stores, actions: seq<Action>)
    requires Legal(env, faults, Begin(st0), actions) && FreshUploads(actions)
    ensures NeverClash(env, Begin(st0), actions)
  {
    var s := Run(env, Begin(st0), actions);
    RunOneEach(env, faults, st0, actions);
    forall i, j | i in s.procs && j in s.procs
      ensures !Clash(s.procs[i], s.procs[j])
    {
      if s.procs[i].req.doc == s.procs[j].req.doc {
        OneProcessPerDoc(s, actions, i, j);
      }
    }
    if actions != [] {
      FreshPrefix(actions);
      FreshNeverClashes(env, faults, st0, actions[..|actions| - 1]);
    }
  }

  /** chunks_created of the "created" responses of a log. */
  function CreatedChunks(log: seq<Event>): int {
    if log == [] then 0
    else
      var o := log[|log| - 1].outcome;
      CreatedChunks(log[..|log| - 1]) + if o.Created? then o.chunks else 0
  }

  /** One upload's event: the points it left are those it reported as created. */
  lemma EventCounts(env: Env, log: seq<Event>)
    requires |log| == 1 && log[0].req.Upload? && WellFormed(env, log[0].req) && Storable(log[0].req.content)
    requires OwnSerialHistory(Lossless, View(None, map[]), log)
    ensures |LastView(View(None, map[]), log).points| == CreatedChunks(log)
    ensures log[0].outcome.Created? ==> CreatedChunks(log) > 0
  {
    assert log[..0] == [];
    UpsertFresh(log[0].req.content.points);
  }

  /** What the responses about one document add to the count of a bot. */
  ghost function Response(s: State, key: BotKey): string -> int {
    (d: string) => CreatedChunks(OwnLog(LogOf(s, d), key))
  }

  /**
   * After fresh uploads alone, by any bots, a bot's collection holds as many points as the "created" responses to its
   * uploads add up to: no chunk is lost and none is counted twice.
   */
  lemma PointsEqualResponses(env: Env, actions: seq<Action>, s: State, key: BotKey)
    requires Reached(env, Lossless, actions, s) && FreshUploads(actions) && Registered(s.st, key)
    ensures |Held(s.st, key.Name())| == Sum(Response(s, key), s.log.Keys)
  {
    var c, docs, response := Held(s.st, key.Name()), s.log.Keys, Response(s, key);
    forall doc
      ensures |DocPoints(c, doc)| == response(doc)
      ensures doc !in docs ==> DocPoints(c, doc) == map[]
    {
      DocResponse(env, actions, s, key, doc);
    }
    forall id | id in c
      ensures c[id].doc in docs
    {
      assert id in DocPoints(c, c[id].doc);
    }
    CountByDoc(c, docs);
    SumSame((d: string) => |DocPoints(c, d)|, response, docs);
  }

  lemma DocResponse(env: Env, actions: seq<Action>, s: State, key: BotKey, doc: string)
    requires Reached(env, Lossless, actions, s) && FreshUploads(actions) && Registered(s.st, key)
    ensures |DocPoints(Held(s.st, key.Name()), doc)| == Response(s, key)(doc)
    ensures var own := OwnLog(LogOf(s, doc), key);
            own != [] && own[0].outcome.Created? ==> CreatedChunks(own) > 0
  {
    var log := LogOf(s, doc);
    assert OwnView(EMPTY, key, doc) == View(None, map[]);
    RunOneEach(env, Lossless, EMPTY, actions);
    FreshNeverClashes(env, Lossless, EMPTY, actions);
    OwnHistoryIsSerial(env, Lossless, EMPTY, actions, key, doc);
    OwnLogRequests(env, Lossless, EMPTY, actions, key, doc);
    if doc in s.log {
      assert OneEvent(s, doc);
      assert log[..0] == [] && OwnLog([], key) == [];
      if log[0].req.key == key {
        EventCounts(env, OwnLog(log, key));
      }
    }
  }

  /**
   * The load test counts the whole collection and leaves the response of its warm-up upload out of the sum, so
   * without any chunk lost its count exceeds its sum by the warm-up's chunks, and these are more than none.
   */
  lemma LoadTestMiscounts(env: Env, actions: seq<Action>, s: State, key: BotKey, warmup: string)
    requires Reached(env, Lossless, actions, s) && FreshUploads(actions) && Registered(s.st, key)
    requires warmup in s.log && s.log[warmup] != [] && s.log[warmup][0].req.key == key
    requires s.log[warmup][0].outcome.Created?
    ensures var sum := Sum(Response(s, key), s.log.Keys - {warmup});
            |Held(s.st, key.Name())| == sum + s.log[warmup][0].outcome.chunks > sum
  {
    var own := OwnLog(LogOf(s, warmup), key);
    PointsEqualResponses(env, actions, s, key);
    DocResponse(env, actions, s, key, warmup);
    SumRemove(Response(s, key), s.log.Keys, warmup);
    RunOneEach(env, Lossless, EMPTY, actions);
    assert OneEvent(s, warmup);
    assert s.log[warmup][..0] == [] && OwnLog([], key) == [];
    assert |own| == 1 && own[..0] == [] && CreatedChunks(own) == own[0].outcome.chunks;
  }
}
