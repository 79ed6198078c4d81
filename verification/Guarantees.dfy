/** What the upload and delete protocol guarantees about each document, in every reachable state. */
module Guarantees {
  import opened Effects
  import opened Protocol
  import opened Stores

  /** A chain of requests, one after the other, each with its specified effect on the document. */
  ghost predicate SerialHistory(faults: Faults, start: View, log: seq<Event>) {
    log == [] ||
    var front, last := log[..|log| - 1], log[|log| - 1];
    && SerialHistory(faults, start, front)
    && last.before == LastView(start, front)
    && Effect(faults, last.req, last.outcome, last.before, last.after)
  }

  lemma {:induction false} SerialIsHistory(faults: Faults, start: View, log: seq<Event>)
    requires Serial(StageOf(faults), start, log)
    ensures SerialHistory(faults, start, log)
  {
    if log != [] {
      SerialIsHistory(faults, start, log[..|log| - 1]);
    }
  }

  /**
   * Serialization, under any faults, any interleaving, any lock-key function: a document's history is a serial
   * one, and whenever nobody works on the document it looks as that history left it.
   */
  lemma {:induction false} HistoryIsSerial(env: Env, faults: Faults, owner: string -> BotKey, st0: Stores,
                                           actions: seq<Action>, doc: string)
    requires CollisionFree(env) && AllKeyed(env, st0)
    requires Legal(env, faults, Begin(st0), actions) && OneBotPerDoc(owner, actions)
    ensures var s, start := Run(env, Begin(st0), actions), ViewOf(st0, owner(doc), doc);
            && SerialHistory(faults, start, LogOf(s, doc))
            && (!Occupied(s, doc) ==> ViewOf(s.st, owner(doc), doc) == LastView(start, LogOf(s, doc)))
  {
    var s := Run(env, Begin(st0), actions);
    RunKeepsInv(env, faults, owner, st0, actions);
    assert Settled(StageOf(faults), owner, st0, s, doc);
    SerialIsHistory(faults, ViewOf(st0, owner(doc), doc), LogOf(s, doc));
  }

  // ---- what holds of every run, whoever requests which document

  /** Who is inside a critical section holds its lock. */
  ghost predicate AllLocked(env: Env, s: State) {
    forall pid :: pid in s.procs && Holding(s.procs[pid].pc) ==> HasLock(env, s, pid)
  }

  lemma NextLocked(env: Env, faults: Faults, s: State, a: Action)
    requires AllLocked(env, s) && Enabled(env, faults, s, a)
    ensures AllLocked(env, Next(env, s, a))
  {
    var s' := Next(env, s, a);
    forall pid | pid in s'.procs && Holding(s'.procs[pid].pc)
      ensures HasLock(env, s', pid)
    {
      assert pid in s.procs && Holding(s.procs[pid].pc) ==> HasLock(env, s, pid);
    }
  }

  lemma {:induction false} RunLocked(env: Env, faults: Faults, st0: Stores, actions: seq<Action>)
    requires Legal(env, faults, Begin(st0), actions)
    ensures AllLocked(env, Run(env, Begin(st0), actions))
  {
    if actions != [] {
      var front := actions[..|actions| - 1];
      RunLocked(env, faults, st0, front);
      NextLocked(env, faults, Run(env, Begin(st0), front), actions[|actions| - 1]);
    }
  }

  /** Everything that was requested, by a process or by one that has finished, is as the actions say. */
  ghost predicate Requests(ok: Request -> bool, s: State) {
    && (forall pid :: pid in s.procs ==> ok(s.procs[pid].req))
    && (forall doc, e :: doc in s.log && e in s.log[doc] ==> ok(e.req))
  }

  lemma NextRequests(env: Env, faults: Faults, ok: Request -> bool, s: State, a: Action)
    requires Requests(ok, s) && Enabled(env, faults, s, a) && (a.Start? ==> ok(a.req))
    ensures Requests(ok, Next(env, s, a))
  {}

  lemma {:induction false} RunRequests(
    env: Env, faults: Faults, ok: Request -> bool, st0: Stores, actions: seq<Action>)
    requires Legal(env, faults, Begin(st0), actions) && forall a :: a in actions && a.Start? ==> ok(a.req)
    ensures Requests(ok, Run(env, Begin(st0), actions))
  {
    if actions != [] {
      var front, a := actions[..|actions| - 1], actions[|actions| - 1];
      assert a in actions;
      RunRequests(env, faults, ok, st0, front);
      NextRequests(env, faults, ok, Run(env, Begin(st0), front), a);
    }
  }

  ghost function Sane(env: Env): Request -> bool { req => WellFormed(env, req) }

  lemma RunSane(env: Env, faults: Faults, st0: Stores, actions: seq<Action>)
    requires CollisionFree(env) && Legal(env, faults, Begin(st0), actions)
    ensures Requests(Sane(env), Run(env, Begin(st0), actions))
  {
    LegalIsPossible(env, faults, Begin(st0), actions);
    forall a | a in actions && a.Start?
      ensures Sane(env)(a.req)
    {
      GenuineWellFormed(env, a.req);
    }
    RunRequests(env, faults, Sane(env), st0, actions);
  }

  lemma {:induction false} RunKeyed(env: Env, faults: Faults, st0: Stores, actions: seq<Action>)
    requires CollisionFree(env) && AllKeyed(env, st0) && Legal(env, faults, Begin(st0), actions)
    ensures AllKeyed(env, Run(env, Begin(st0), actions).st)
  {
    if actions != [] {
      var front, a := actions[..|actions| - 1], actions[|actions| - 1];
      var s := Run(env, Begin(st0), front);
      RunKeyed(env, faults, st0, front);
      RunSane(env, faults, st0, front);
      if a.Work? {
        WorkKeyed(env, s, a);
      }
    }
  }

  lemma WorkKeyed(env: Env, s: State, a: Action)
    requires CollisionFree(env) && AllKeyed(env, s.st) && Requests(Sane(env), s)
    requires a.Work? && a.pid in s.procs && Running(s.procs[a.pid].pc)
    ensures AllKeyed(env, Next(env, s, a).st)
  {
    var p := s.procs[a.pid];
    assert Sane(env)(p.req);
    StepKeyed(env, s.st, p.req, p.pc, a.pick);
    DisturbKeyed(env, s.st, Advance(s.st, p.req, p.pc, a.pick), a.fault);
  }

  /** At most one process at a time is at work on a document of a bot, and it holds the lock. */
  lemma OneWorker(env: Env, faults: Faults, st0: Stores, actions: seq<Action>, pid: nat, other: nat)
    requires Legal(env, faults, Begin(st0), actions)
    requires var s := Run(env, Begin(st0), actions);
             && pid in s.procs && Holding(s.procs[pid].pc) && other in s.procs && Holding(s.procs[other].pc)
             && s.procs[pid].req.doc == s.procs[other].req.doc && s.procs[pid].req.key == s.procs[other].req.key
    ensures pid == other && HasLock(env, Run(env, Begin(st0), actions), pid)
  {
    RunLocked(env, faults, st0, actions);
  }

  /** Every write to a document's points, or to its row beyond last_refreshed_at, is made under its lock. */
  lemma OnlyTheHolderWrites(env: Env, faults: Faults, st0: Stores, actions: seq<Action>, a: Action, k: BotKey,
                            doc: string)
    requires CollisionFree(env) && AllKeyed(env, st0)
    requires Legal(env, faults, Begin(st0), actions) && Enabled(env, faults, Run(env, Begin(st0), actions), a)
    ensures var s := Run(env, Begin(st0), actions);
            ViewOf(Next(env, s, a).st, k, doc) != ViewOf(s.st, k, doc) ==>
              a.Work? && s.procs[a.pid].req.doc == doc && HasLock(env, s, a.pid)
  {
    var s := Run(env, Begin(st0), actions);
    RunLocked(env, faults, st0, actions);
    RunKeyed(env, faults, st0, actions);
    RunSane(env, faults, st0, actions);
    if a.Work? {
      var p := s.procs[a.pid];
      assert Sane(env)(p.req);
      StepHidden(env, s.st, p.req, p.pc, a.pick, a.fault);
    }
  }

  // ---- agreement

  /** The database accepts the row of every upload of this document by this bot. */
  ghost predicate StorableUploads(actions: seq<Action>, key: BotKey, doc: string) {
    forall a :: a in actions && a.Start? ==> Keepable(key, doc)(a.req)
  }

  ghost function Keepable(key: BotKey, doc: string): Request -> bool {
    (req: Request) => req.Upload? && req.key == key && req.doc == doc ==> Storable(req.content)
  }

  lemma {:induction false} HistoryAgrees(env: Env, faults: Faults, start: View, log: seq<Event>)
    requires !faults.Arbitrary? && SerialHistory(faults, start, log) && Agree(start)
    requires forall e :: e in log ==> WellFormed(env, e.req) && (e.req.Upload? ==> Storable(e.req.content))
    ensures Agree(LastView(start, log))
    ensures faults.Lossless? && AgreeFully(start) ==> AgreeFully(LastView(start, log))
  {
    if log != [] {
      var front, last := log[..|log| - 1], log[|log| - 1];
      HistoryAgrees(env, faults, start, front);
      EffectAgrees(env, faults, last.req, last.outcome, last.before, last.after);
    }
  }

  /** Logged requests of a document are its owner's. */
  lemma LogRequests(env: Env, faults: Faults, owner: string -> BotKey, st0: Stores, actions: seq<Action>, doc: string)
    requires CollisionFree(env) && Legal(env, faults, Begin(st0), actions) && OneBotPerDoc(owner, actions)
    requires StorableUploads(actions, owner(doc), doc)
    ensures forall e :: e in LogOf(Run(env, Begin(st0), actions), doc) ==>
              WellFormed(env, e.req) && (e.req.Upload? ==> Storable(e.req.content))
  {
    var s := Run(env, Begin(st0), actions);
    RunSane(env, faults, st0, actions);
    RunRequests(env, faults, Keepable(owner(doc), doc), st0, actions);
    RunRequests(env, faults, (req: Request) => owner(req.doc) == req.key, st0, actions);
    RunLogDocs(env, faults, st0, actions);
    forall e | e in LogOf(s, doc)
      ensures WellFormed(env, e.req) && (e.req.Upload? ==> Storable(e.req.content))
    {
      assert Sane(env)(e.req) && Keepable(owner(doc), doc)(e.req) && owner(e.req.doc) == e.req.key;
    }
  }

  ghost predicate LogDocs(s: State) { forall doc, e :: doc in s.log && e in s.log[doc] ==> e.req.doc == doc }

  lemma {:induction false} RunLogDocs(env: Env, faults: Faults, st0: Stores, actions: seq<Action>)
    requires Legal(env, faults, Begin(st0), actions)
    ensures LogDocs(Run(env, Begin(st0), actions))
  {
    if actions != [] {
      RunLogDocs(env, faults, st0, actions[..|actions| - 1]);
    }
  }

  lemma PastAgrees(env: Env, faults: Faults, owner: string -> BotKey, st0: Stores, actions: seq<Action>, doc: string)
    requires CollisionFree(env) && AllKeyed(env, st0) && !faults.Arbitrary?
    requires Legal(env, faults, Begin(st0), actions) && OneBotPerDoc(owner, actions)
    requires StorableUploads(actions, owner(doc), doc) && Agree(ViewOf(st0, owner(doc), doc))
    ensures var past := Past(owner, st0, Run(env, Begin(st0), actions), doc);
            Agree(past) && (faults.Lossless? && AgreeFully(ViewOf(st0, owner(doc), doc)) ==> AgreeFully(past))
  {
    var s := Run(env, Begin(st0), actions);
    HistoryIsSerial(env, faults, owner, st0, actions, doc);
    LogRequests(env, faults, owner, st0, actions, doc);
    HistoryAgrees(env, faults, ViewOf(st0, owner(doc), doc), LogOf(s, doc));
  }

  /**
   * Two-store agreement, clean faults, any interleaving: whenever no process holds the lock of a document,
   * a missing or deleted row means no points, and an active row means none or exactly chunk_count points, all
   * with the row's content hash. The database must accept the rows: see EffectAgrees for the exact condition.
   */
  lemma AgreementAtRest(env: Env, faults: Faults, owner: string -> BotKey, st0: Stores, actions: seq<Action>,
                        doc: string)
    requires CollisionFree(env) && AllKeyed(env, st0) && !faults.Arbitrary?
    requires Legal(env, faults, Begin(st0), actions) && OneBotPerDoc(owner, actions)
    requires StorableUploads(actions, owner(doc), doc) && Agree(ViewOf(st0, owner(doc), doc))
    ensures var s := Run(env, Begin(st0), actions);
            !(exists pid :: pid in s.procs && s.procs[pid].req.doc == doc && HasLock(env, s, pid)) ==>
              Agree(ViewOf(s.st, owner(doc), doc))
  {
    var s, stage := Run(env, Begin(st0), actions), StageOf(faults);
    PastAgrees(env, faults, owner, st0, actions, doc);
    RunKeepsInv(env, faults, owner, st0, actions);
    assert Settled(stage, owner, st0, s, doc);
    if Occupied(s, doc) {
      var pid :| pid in s.procs && Holding(s.procs[pid].pc) && s.procs[pid].req.doc == doc;
      assert Working(env, stage, owner, st0, s, pid);
    }
  }
}
