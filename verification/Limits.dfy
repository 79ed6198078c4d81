/**
 * Runs that show where the guarantees stop: agreement needs clean faults and rows that the database accepts, and
 * clashes and rivals, which row owners and deduplication do not survive, exist. (Races has what follows from any.)
 */
module Limits {
  import opened Conservation
  import opened Effects
  import opened Protocol
  import opened Results
  import opened Stores
  import ContentHash
  import Text

  /** Some legal run leads from empty stores to the state. */
  ghost predicate Reachable(env: Env, faults: Faults, s: State) {
    exists actions :: Legal(env, faults, Begin(EMPTY), actions) && Run(env, Begin(EMPTY), actions) == s
  }

  lemma ReachableBegin(env: Env, faults: Faults)
    ensures Reachable(env, faults, Begin(EMPTY))
  {
    assert Legal(env, faults, Begin(EMPTY), []) && Run(env, Begin(EMPTY), []) == Begin(EMPTY);
  }

  lemma ReachableNext(env: Env, faults: Faults, s: State, a: Action)
    requires Reachable(env, faults, s) && Enabled(env, faults, s, a) && (a.Start? ==> Genuine(env, a.req))
    ensures Reachable(env, faults, Next(env, s, a))
  {
    var actions :| Legal(env, faults, Begin(EMPTY), actions) && Run(env, Begin(EMPTY), actions) == s;
    var more := actions + [a];
    assert more[..|actions|] == actions && more[|more| - 1] == a;
    assert Legal(env, faults, Begin(EMPTY), more) && Run(env, Begin(EMPTY), more) == Next(env, s, a);
  }

  /** A set of states that no action other than an admission leaves. */
  ghost predicate Closed(env: Env, faults: Faults, reach: State -> bool) {
    forall s, a :: reach(s) && Enabled(env, faults, s, a) && !a.Start? ==> reach(Next(env, s, a))
  }

  /** Nor the admission of this request. */
  ghost predicate Admits(reach: State -> bool, req: Request) {
    forall s, pid :: reach(s) && pid !in s.procs ==> reach(Admit(s, pid, req))
  }

  function Admit(s: State, pid: nat, req: Request): State {
    s.(procs := s.procs[pid := Process(req, Waiting, View(None, map[]))])
  }

  ghost function Reach(env: Env, faults: Faults): State -> bool { s => Reachable(env, faults, s) }

  lemma ReachClosed(env: Env, faults: Faults, req: Request)
    requires Genuine(env, req)
    ensures Closed(env, faults, Reach(env, faults)) && Admits(Reach(env, faults), req)
    ensures Reach(env, faults)(Begin(EMPTY))
  {
    ReachableBegin(env, faults);
    forall s, a | Reach(env, faults)(s) && Enabled(env, faults, s, a) && !a.Start?
      ensures Reach(env, faults)(Next(env, s, a))
    {
      ReachableNext(env, faults, s, a);
    }
    forall s, pid | Reach(env, faults)(s) && pid !in s.procs
      ensures Reach(env, faults)(Admit(s, pid, req))
    {
      ReachableNext(env, faults, s, Start(pid, req));
    }
  }

  /** A create that nothing in the stores or the lock table stands in the way of. */
  ghost predicate Unhindered(env: Env, s: State, pid: nat, req: Request) {
    && req.Upload? && Writable(req.content.points)
    && pid !in s.procs && KeyOf(env, req).Success? && KeyOf(env, req).value !in s.locks
    && NameFree(s.st, req.key) && s.st.rows == map[]
  }

  /** The stores once the points of a create are in and its row is not. */
  function Upserted(st: Stores, req: Request): Stores
    requires req.Upload?
  {
    var name := req.key.Name();
    var named := AddBot(AddTenant(st, req.key), req.key);
    named.(collections := st.collections[name := Upsert(Held(st, name), req.content.points)])
  }

  function At(env: Env, s: State, pid: nat, req: Request, st: Stores, pc: Pc): State
    requires KeyOf(env, req).Success?
  {
    State(st, s.locks[KeyOf(env, req).value := pid],
          s.procs[pid := Process(req, pc, ViewOf(s.st, req.key, req.doc))], s.log)
  }

  lemma ReachLock(env: Env, faults: Faults, reach: State -> bool, s: State, pid: nat, req: Request)
    requires Closed(env, faults, reach) && Admits(reach, req) && reach(s) && Unhindered(env, s, pid, req)
    ensures reach(At(env, s, pid, req, s.st, AddingTenant))
  {
    var s1, a := Admit(s, pid, req), Action.Acquire(pid);
    assert Enabled(env, faults, s1, a);
    assert Next(env, s1, a) == At(env, s, pid, req, s.st, AddingTenant);
  }

  /** A process takes an undisturbed step to the given stores and program point. */
  lemma StepAt(env: Env, faults: Faults, reach: State -> bool, s: State, pid: nat, req: Request,
               st: Stores, pc: Pc, st': Stores, pc': Pc)
    requires Closed(env, faults, reach) && KeyOf(env, req).Success? && reach(At(env, s, pid, req, st, pc))
    requires Running(pc) && (st', pc') == Advance(st, req, pc, "") && PickAllowed(st, req, pc, "")
    ensures reach(At(env, s, pid, req, st', pc'))
  {
    var t, a := At(env, s, pid, req, st, pc), Work(pid, Ok, "");
    assert Enabled(env, faults, t, a);
    assert Next(env, t, a) == At(env, s, pid, req, st', pc');
  }

  lemma ReachChunking(env: Env, faults: Faults, reach: State -> bool, s: State, pid: nat, req: Request)
    requires Closed(env, faults, reach) && Admits(reach, req) && reach(s) && Unhindered(env, s, pid, req)
    ensures var st := EnsureCollection(AddBot(AddTenant(s.st, req.key), req.key), req.key.Name());
            reach(At(env, s, pid, req, st, Chunking(false)))
  {
    ReachLock(env, faults, reach, s, pid, req);
    var st1 := AddTenant(s.st, req.key);
    StepAt(env, faults, reach, s, pid, req, s.st, AddingTenant, st1, AddingBot);
    var st2 := AddBot(st1, req.key);
    StepAt(env, faults, reach, s, pid, req, st1, AddingBot, st2, Looking);
    StepAt(env, faults, reach, s, pid, req, st2, Looking, st2, Matching(false));
    assert Duplicates(st2, req.key, req.doc, req.content.hash) == {};
    StepAt(env, faults, reach, s, pid, req, st2, Matching(false), st2, Collecting(false));
    var st3 := EnsureCollection(st2, req.key.Name());
    StepAt(env, faults, reach, s, pid, req, st2, Collecting(false), st3, Chunking(false));
  }

  /** An unhindered create reaches its row save with every call successful. */
  lemma ReachSave(env: Env, faults: Faults, reach: State -> bool, s: State, pid: nat, req: Request)
    requires Closed(env, faults, reach) && Admits(reach, req) && reach(s) && Unhindered(env, s, pid, req)
    ensures reach(At(env, s, pid, req, Upserted(s.st, req), Saving(false)))
  {
    var st := EnsureCollection(AddBot(AddTenant(s.st, req.key), req.key), req.key.Name());
    ReachChunking(env, faults, reach, s, pid, req);
    ReachUpserting(env, faults, reach, s, pid, req, st);
    UpsertedParts(s.st, req);
  }

  lemma UpsertedParts(st: Stores, req: Request)
    requires req.Upload?
    ensures var st' := EnsureCollection(AddBot(AddTenant(st, req.key), req.key), req.key.Name());
            UpsertInto(st', req.key.Name(), req.content.points) == Upserted(st, req)
  {}

  lemma ReachUpserting(env: Env, faults: Faults, reach: State -> bool, s: State, pid: nat, req: Request, st: Stores)
    requires Closed(env, faults, reach) && req.Upload? && KeyOf(env, req).Success? && Writable(req.content.points)
    requires req.key.Name() in st.collections && reach(At(env, s, pid, req, st, Chunking(false)))
    ensures reach(At(env, s, pid, req, UpsertInto(st, req.key.Name(), req.content.points), Saving(false)))
  {
    StepAt(env, faults, reach, s, pid, req, st, Chunking(false), st, Embedding(false));
    StepAt(env, faults, reach, s, pid, req, st, Embedding(false), st, Upserting(false));
    var st' := UpsertInto(st, req.key.Name(), req.content.points);
    StepAt(env, faults, reach, s, pid, req, st, Upserting(false), st', Saving(false));
  }

  /** The row save of a create, saved or lost, and the release of its lock. */
  lemma Finish(env: Env, faults: Faults, reach: State -> bool, s: State, pid: nat, req: Request, saved: bool)
    returns (s': State)
    requires Closed(env, faults, reach) && reach(s) && req.Upload? && (faults.Arbitrary? || saved)
    requires saved ==> Storable(req.content)
    requires pid in s.procs && s.procs[pid].req == req && s.procs[pid].pc == Saving(false)
    ensures reach(s')
    ensures s'.st == if saved then SaveRow(s.st, req.key, req.doc, req.content) else s.st
    ensures s'.procs.Keys == s.procs.Keys && s'.procs[pid].pc.Finished?
    ensures forall q :: q in s.procs && q != pid ==> s'.procs[q] == s.procs[q]
  {
    var a := Work(pid, if saved then Ok else Raise(false), "");
    assert Enabled(env, faults, s, a);
    var s1 := Next(env, s, a);
    assert Enabled(env, faults, s1, Unlock(pid));
    s' := Next(env, s1, Unlock(pid));
  }

  /**
   * Agreement is false under arbitrary faults: any first upload whose row save is lost leaves, with no process
   * at work, points without a row.
   */
  lemma LostSaveBreaksAgreement(env: Env, pid: nat, req: Request) returns (s: State)
    requires CollisionFree(env) && Unhindered(env, Begin(EMPTY), pid, req) && Genuine(env, req)
    ensures Reachable(env, Arbitrary, s) && Quiescent(s)
    ensures !Agree(ViewOf(s.st, req.key, req.doc))
  {
    ReachClosed(env, Arbitrary, req);
    s := LostSave(env, Reach(env, Arbitrary), pid, req);
    FirstPointsSeen(env, s.st, req);
  }

  lemma LostSave(env: Env, reach: State -> bool, pid: nat, req: Request) returns (s: State)
    requires Closed(env, Arbitrary, reach) && Admits(reach, req) && reach(Begin(EMPTY))
    requires Unhindered(env, Begin(EMPTY), pid, req)
    ensures reach(s) && Quiescent(s) && s.st == Upserted(EMPTY, req)
  {
    ReachSave(env, Arbitrary, reach, Begin(EMPTY), pid, req);
    var saving := At(env, Begin(EMPTY), pid, req, Upserted(EMPTY, req), Saving(false));
    s := Finish(env, Arbitrary, reach, saving, pid, req, false);
  }

  /**
   * Nor does it hold without any fault if the database refuses the row: any first upload whose row is not storable
   * leaves, with no process at work, points without a row.
   */
  lemma RefusedRowBreaksAgreement(env: Env, pid: nat, req: Request) returns (s: State)
    requires CollisionFree(env) && Unhindered(env, Begin(EMPTY), pid, req) && Genuine(env, req)
    requires !Storable(req.content)
    ensures Reachable(env, Lossless, s) && Quiescent(s)
    ensures !Agree(ViewOf(s.st, req.key, req.doc))
  {
    ReachClosed(env, Lossless, req);
    s := RefusedSave(env, Reach(env, Lossless), pid, req);
    FirstPointsSeen(env, s.st, req);
  }

  lemma RefusedSave(env: Env, reach: State -> bool, pid: nat, req: Request) returns (s: State)
    requires Closed(env, Lossless, reach) && Admits(reach, req) && reach(Begin(EMPTY))
    requires Unhindered(env, Begin(EMPTY), pid, req) && !Storable(req.content)
    ensures reach(s) && Quiescent(s) && s.st == Upserted(EMPTY, req)
  {
    ReachSave(env, Lossless, reach, Begin(EMPTY), pid, req);
    var saving := At(env, Begin(EMPTY), pid, req, Upserted(EMPTY, req), Saving(false));
    var a := Work(pid, Ok, "");
    assert Enabled(env, Lossless, saving, a);
    var s1 := Next(env, saving, a);
    assert Enabled(env, Lossless, s1, Unlock(pid));
    s := Next(env, s1, Unlock(pid));
  }

  /** A client's content hash of 81 characters is such a case, whatever is uploaded with it. */
  lemma LongHashIsRefused(env: Env, key: BotKey, doc: string, body: Body)
    requires body.contentHash == Some(seq(81, _ => 'a'))
    ensures !Storable(ContentOf(env, key, doc, body))
  {
    var hash := seq(81, _ => 'a');
    assert Text.LStrip(hash) == hash && Text.RStrip(hash) == hash;
    assert ContentHash.Text(body.contentHash) == hash;
  }

  lemma FirstPointsSeen(env: Env, st: Stores, req: Request)
    requires CollisionFree(env) && req.Upload? && Genuine(env, req) && req.content.points != []
    requires Held(st, req.key.Name()) == Upsert(map[], req.content.points)
    ensures ViewOf(st, req.key, req.doc).points != map[]
  {
    GenuineWellFormed(env, req);
    UpsertLocal(env, map[], req.content.points, req.doc, req.doc);
    assert DocPoints(map[], req.doc) == map[];
    UpsertFresh(req.content.points);
  }

  /** Two creates that cannot see or exclude each other. */
  ghost predicate Racing(env: Env, req: Request, req': Request) {
    && Unhindered(env, Begin(EMPTY), 0, req) && Unhindered(env, Begin(EMPTY), 1, req')
    && KeyOf(env, req) != KeyOf(env, req') && (req.key == req'.key || req.key.Name() != req'.key.Name())
    && Storable(req.content) && Storable(req'.content)
  }

  lemma SecondUnhindered(env: Env, req: Request, req': Request)
    requires Racing(env, req, req')
    ensures Unhindered(env, At(env, Begin(EMPTY), 0, req, Upserted(EMPTY, req), Saving(false)), 1, req')
  {}

  /** Each runs up to its row save. */
  lemma BothReachSave(env: Env, reach: State -> bool, req: Request, req': Request) returns (s: State)
    requires Closed(env, Lossless, reach) && Admits(reach, req) && Admits(reach, req') && reach(Begin(EMPTY))
    requires Racing(env, req, req')
    ensures reach(s) && s.st == Upserted(Upserted(EMPTY, req), req') && s.procs.Keys == {0, 1}
    ensures s.procs[0].req == req && s.procs[0].pc == Saving(false)
    ensures s.procs[1].req == req' && s.procs[1].pc == Saving(false)
  {
    ReachSave(env, Lossless, reach, Begin(EMPTY), 0, req);
    var first := At(env, Begin(EMPTY), 0, req, Upserted(EMPTY, req), Saving(false));
    SecondUnhindered(env, req, req');
    ReachSave(env, Lossless, reach, first, 1, req');
    s := At(env, first, 1, req', Upserted(first.st, req'), Saving(false));
    BothAt(env, req, req');
  }

  lemma BothAt(env: Env, req: Request, req': Request)
    requires req.Upload? && req'.Upload? && KeyOf(env, req).Success? && KeyOf(env, req').Success?
    ensures var first := At(env, Begin(EMPTY), 0, req, Upserted(EMPTY, req), Saving(false));
            var s := At(env, first, 1, req', Upserted(first.st, req'), Saving(false));
            && s.st == Upserted(Upserted(EMPTY, req), req') && s.procs.Keys == {0, 1}
            && s.procs[0].req == req && s.procs[0].pc == Saving(false)
            && s.procs[1].req == req' && s.procs[1].pc == Saving(false)
  {}

  /** Then they save in turn. */
  lemma BothSave(env: Env, reach: State -> bool, req: Request, req': Request) returns (s: State)
    requires Closed(env, Lossless, reach) && Admits(reach, req) && Admits(reach, req') && reach(Begin(EMPTY))
    requires Racing(env, req, req')
    ensures reach(s) && Quiescent(s)
    ensures s.st == SaveRow(SaveRow(Upserted(Upserted(EMPTY, req), req'), req.key, req.doc, req.content),
                            req'.key, req'.doc, req'.content)
  {
    var both := BothReachSave(env, reach, req, req');
    s := SaveBoth(env, reach, both, req, req');
  }

  lemma SaveBoth(env: Env, reach: State -> bool, both: State, req: Request, req': Request) returns (s: State)
    requires Closed(env, Lossless, reach) && reach(both) && both.procs.Keys == {0, 1} && req.Upload? && req'.Upload?
    requires both.procs[0].req == req && both.procs[0].pc == Saving(false)
    requires both.procs[1].req == req' && both.procs[1].pc == Saving(false)
    requires Storable(req.content) && Storable(req'.content)
    ensures reach(s) && Quiescent(s)
    ensures s.st == SaveRow(SaveRow(both.st, req.key, req.doc, req.content), req'.key, req'.doc, req'.content)
  {
    var one := Finish(env, Lossless, reach, both, 0, req, true);
    s := Finish(env, Lossless, reach, one, 1, req', true);
    assert s.procs[0] == one.procs[0];
  }

  lemma RaceEnds(env: Env, req: Request, req': Request) returns (s: State)
    requires Racing(env, req, req') && Genuine(env, req) && Genuine(env, req')
    ensures Reachable(env, Lossless, s) && Quiescent(s)
    ensures s.st == SaveRow(SaveRow(Upserted(Upserted(EMPTY, req), req'), req.key, req.doc, req.content),
                            req'.key, req'.doc, req'.content)
  {
    ReachClosed(env, Lossless, req);
    ReachClosed(env, Lossless, req');
    s := BothSave(env, Reach(env, Lossless), req, req');
  }

  lemma FirstPointsStay(req: Request, req': Request)
    requires req.Upload? && req'.Upload? && req.key.Name() != req'.key.Name()
    ensures Held(Upserted(Upserted(EMPTY, req), req'), req.key.Name()) == Upsert(map[], req.content.points)
  {}

  /**
   * The collision check does not protect the row from a clash: two bots creating one document at the same time both
   * succeed, the row ends with one bot, and the other bot's points stay behind.
   */
  lemma RaceFlipsRow(env: Env, req: Request, req': Request) returns (s: State)
    requires CollisionFree(env) && Racing(env, req, req') && Genuine(env, req) && Genuine(env, req')
    requires req.doc == req'.doc && req.key != req'.key
    ensures Reachable(env, Lossless, s) && Quiescent(s)
    ensures req.doc in s.st.rows && s.st.rows[req.doc].key == req'.key
    ensures ViewOf(s.st, req.key, req.doc).points != map[]
  {
    s := RaceEnds(env, req, req');
    FirstPointsStay(req, req');
    FirstPointsSeen(env, s.st, req);
  }

  /**
   * Deduplication is not promised to simultaneous uploads: two documents with the same content under one bot,
   * uploaded at the same time, both end up active.
   */
  lemma RaceDefeatsDedup(env: Env, req: Request, req': Request) returns (s: State)
    requires Racing(env, req, req') && Genuine(env, req) && Genuine(env, req')
    requires req.key == req'.key && req.doc != req'.doc && req.content.hash == req'.content.hash
    ensures Reachable(env, Lossless, s) && Quiescent(s)
    ensures Duplicate(s.st, req.key, req.doc, req.content.hash, req'.doc)
    ensures Duplicate(s.st, req.key, req'.doc, req.content.hash, req.doc)
  {
    s := RaceEnds(env, req, req');
  }
}
