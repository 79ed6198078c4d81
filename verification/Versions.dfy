/**
 * What a reader of a document's points may see while the document is being written, by whatever bots: the old
 * version, nothing, or the new one, never a blend.
 */
module Versions {
  import opened Effects
  import opened Guarantees
  import opened Ownership
  import opened Protocol
  import opened Stores

  function PointsOf(st: Stores, key: BotKey, doc: string): Collection { ViewOf(st, key, doc).points }

  /** The points of an upload, and no others. */
  function New(c: Content): Collection { Upsert(map[], c.points) }

  ghost predicate OldNoneOrNew(req: Request, entry: Collection, points: Collection) {
    points == entry || points == map[] || (req.Upload? && points == New(req.content))
  }

  /** The document's points at each program point, the old ones being those at the acquisition of the lock. */
  ghost predicate Window(req: Request, pc: Pc, entry: Collection, points: Collection) {
    match pc
    case Matching(replace) => points == entry && (!replace ==> points == map[])
    case Collecting(replace) => points == entry && (!replace ==> points == map[])
    case Chunking(replace) => points == entry && (!replace ==> points == map[])
    case Embedding(replace) => points == entry && (!replace ==> points == map[])
    case Upserting(_) => points == map[]
    case Saving(_) => req.Upload? && points == New(req.content)
    case Marking(_, _) => points == map[]
    case Releasing(_) => OldNoneOrNew(req, entry, points)
    case _ => points == entry
  }

  /** What a step makes of its own document's points. */
  function Moved(st: Stores, req: Request, pc: Pc, points: Collection): Collection {
    if (req.Upload? && pc.Clearing?) || (req.Delete? && pc.Removing?) then map[]
    else if req.Upload? && pc.Upserting? && req.key.Name() in st.collections then Upsert(points, req.content.points)
    else points
  }

  lemma AdvancePoints(env: Env, st: Stores, req: Request, pc: Pc, pick: string)
    requires CollisionFree(env) && AllKeyed(env, st) && WellFormed(env, req) && Running(pc)
    ensures PointsOf(Advance(st, req, pc, pick).0, req.key, req.doc) ==
            Moved(st, req, pc, PointsOf(st, req.key, req.doc))
  {
    StepCollections(st, req, pc, pick, req.key.Name());
    if req.Upload? && pc.Upserting? && req.key.Name() in st.collections {
      UpsertLocal(env, st.collections[req.key.Name()], req.content.points, req.doc, req.doc);
    }
  }

  lemma MovedWindow(st: Stores, req: Request, pc: Pc, pick: string, entry: Collection, points: Collection)
    requires Running(pc) && (req.Upload? ==> Storable(req.content)) && Window(req, pc, entry, points)
    requires req.doc !in st.rows && !pc.Saving? ==> points == map[]
    ensures var (next, pc') := Advance(st, req, pc, pick);
            && Window(req, pc', entry, Moved(st, req, pc, points))
            && (req.doc !in next.rows && !pc'.Saving? ==> Moved(st, req, pc, points) == map[])
  {}

  /** A window, and no points without a row unless the row is just being saved. */
  ghost predicate Steady(st: Stores, req: Request, pc: Pc, entry: Collection, points: Collection) {
    Window(req, pc, entry, points) && (req.doc !in st.rows && !pc.Saving? ==> points == map[])
  }

  lemma DisturbedSteady(
    faults: Faults, st: Stores, req: Request, pc: Pc, next: Stores, pc': Pc, fault: Fault, entry: Collection,
    points: Collection, points': Collection)
    requires !faults.Arbitrary? && Running(pc) && Holding(pc') && FaultAllowed(faults, pc, fault)
    requires Steady(st, req, pc, entry, points) && Steady(next, req, pc', entry, points')
    requires pc'.Saving? ==> pc.Upserting?
    ensures var (st', at) := Disturb(st, (next, pc'), fault);
            Steady(st', req, at, entry, if Strikes(fault) && !fault.effect then points else points')
  {}

  lemma StepSteady(env: Env, faults: Faults, st: Stores, req: Request, pc: Pc, pick: string, fault: Fault,
                   entry: Collection)
    requires !faults.Arbitrary? && CollisionFree(env) && AllKeyed(env, st) && WellFormed(env, req) && Running(pc)
    requires (req.Upload? ==> Storable(req.content)) && FaultAllowed(faults, pc, fault)
    requires Steady(st, req, pc, entry, PointsOf(st, req.key, req.doc))
    ensures var (st', at) := Disturb(st, Advance(st, req, pc, pick), fault);
            && Holding(at) && Steady(st', req, at, entry, PointsOf(st', req.key, req.doc))
            && OldNoneOrNew(req, PointsOf(st, req.key, req.doc), PointsOf(st', req.key, req.doc))
  {
    var points := PointsOf(st, req.key, req.doc);
    var (next, pc') := Advance(st, req, pc, pick);
    AdvancePoints(env, st, req, pc, pick);
    MovedWindow(st, req, pc, pick, entry, points);
    HoldsOn(st, req, pc, pick);
    DisturbedSteady(faults, st, req, pc, next, pc', fault, entry, points, Moved(st, req, pc, points));
    MovedOldNoneOrNew(st, req, pc, entry, points);
  }

  lemma MovedOldNoneOrNew(st: Stores, req: Request, pc: Pc, entry: Collection, points: Collection)
    requires Window(req, pc, entry, points)
    ensures OldNoneOrNew(req, points, Moved(st, req, pc, points))
  {}

  lemma HoldsOn(st: Stores, req: Request, pc: Pc, pick: string)
    requires Running(pc)
    ensures Holding(Advance(st, req, pc, pick).1)
    ensures Advance(st, req, pc, pick).1.Saving? ==> pc.Upserting?
  {}

  // ---- one bot's view of one document in a run

  /** The points of a document carry one content hash. */
  ghost predicate Single(points: Collection) {
    forall a, b :: a in points && b in points ==> points[a].hash == points[b].hash
  }

  ghost predicate AtWork(s: State, pid: nat, key: BotKey, doc: string) {
    pid in s.procs && Holding(s.procs[pid].pc) && s.procs[pid].req.key == key && s.procs[pid].req.doc == doc
  }

  /** What holds of a bot's points of a document as long as the bot can own its collection. */
  ghost predicate Readable(s: State, key: BotKey, doc: string) {
    && Single(PointsOf(s.st, key, doc))
    && (forall pid :: AtWork(s, pid, key, doc) ==>
          Steady(s.st, s.procs[pid].req, s.procs[pid].pc, s.procs[pid].entry.points, PointsOf(s.st, key, doc)))
    && (doc !in s.st.rows && (forall pid :: !AtWork(s, pid, key, doc)) ==> PointsOf(s.st, key, doc) == map[])
  }

  ghost predicate Kept(env: Env, s: State, key: BotKey, doc: string) { NameFree(s.st, key) ==> Readable(s, key, doc) }

  lemma NewSingle(env: Env, req: Request)
    requires WellFormed(env, req) && req.Upload?
    ensures Single(New(req.content))
  {
    forall id | id in New(req.content)
      ensures New(req.content)[id].hash == req.content.hash
    {
      UpsertSource(map[], req.content.points, id);
    }
  }

  /** Another request's step, of the same bot or not, does not touch these points. */
  lemma ForeignStep(env: Env, st: Stores, req: Request, pc: Pc, pick: string, key: BotKey, doc: string)
    requires CollisionFree(env) && AllKeyed(env, st) && WellFormed(env, req) && Running(pc) && Entitled(st, req, pc)
    requires NameFree(st, key) && (req.key != key || req.doc != doc)
    ensures PointsOf(Advance(st, req, pc, pick).0, key, doc) == PointsOf(st, key, doc)
  {
    if req.doc != doc {
      StepElsewhere(env, st, req, pc, pick, key, doc);
    } else {
      StepCollections(st, req, pc, pick, key.Name());
    }
  }

  /** What the general invariants say of a state. */
  ghost predicate Ordered(env: Env, s: State, key: BotKey, doc: string) {
    && CollisionFree(env) && AllKeyed(env, s.st) && OwnedState(env, s) && AllLocked(env, s)
    && Requests(Keepable(key, doc), s)
  }

  lemma ForeignDisturbed(
    env: Env, st: Stores, req: Request, pc: Pc, pick: string, fault: Fault, key: BotKey, doc: string)
    requires CollisionFree(env) && AllKeyed(env, st) && WellFormed(env, req) && Running(pc) && Entitled(st, req, pc)
    requires req.key != key || req.doc != doc
    ensures var st' := Disturb(st, Advance(st, req, pc, pick), fault).0;
            && Grows(st, st')
            && (NameFree(st', key) ==> NameFree(st, key) && PointsOf(st', key, doc) == PointsOf(st, key, doc))
  {
    var next := Advance(st, req, pc, pick).0;
    StepGrows(st, req, pc, pick);
    if NameFree(st, key) {
      ForeignStep(env, st, req, pc, pick, key, doc);
    }
  }

  lemma WorkForeign(env: Env, s: State, a: Action, key: BotKey, doc: string)
    requires Ordered(env, s, key, doc) && a.Work? && a.pid in s.procs && Running(s.procs[a.pid].pc)
    requires !AtWork(s, a.pid, key, doc) && Kept(env, s, key, doc)
    ensures Kept(env, Next(env, s, a), key, doc)
  {
    var p := s.procs[a.pid];
    assert Welcome(env, s.st, p);
    ForeignDisturbed(env, s.st, p.req, p.pc, a.pick, a.fault, key, doc);
    var (st', pc') := Disturb(s.st, Advance(s.st, p.req, p.pc, a.pick), a.fault);
    MoverKept(env, s, a.pid, st', pc', key, doc);
  }

  lemma MoverKept(env: Env, s: State, pid: nat, st': Stores, pc': Pc, key: BotKey, doc: string)
    requires pid in s.procs && Holding(s.procs[pid].pc) && !AtWork(s, pid, key, doc) && Kept(env, s, key, doc)
    requires Grows(s.st, st')
    requires NameFree(st', key) ==> NameFree(s.st, key) && PointsOf(st', key, doc) == PointsOf(s.st, key, doc)
    ensures Kept(env, SetPc(s.(st := st'), pid, pc'), key, doc)
  {
    var s' := SetPc(s.(st := st'), pid, pc');
    if NameFree(st', key) {
      SameReadable(s, s', key, doc);
    }
  }

  /** A step that leaves the points alone, takes no row away and moves none of the processes at work. */
  lemma SameReadable(s: State, s': State, key: BotKey, doc: string)
    requires Readable(s, key, doc) && PointsOf(s'.st, key, doc) == PointsOf(s.st, key, doc)
    requires doc in s.st.rows ==> doc in s'.st.rows
    requires forall pid :: AtWork(s', pid, key, doc) ==> AtWork(s, pid, key, doc) && s'.procs[pid] == s.procs[pid]
    requires forall pid :: AtWork(s, pid, key, doc) ==> AtWork(s', pid, key, doc)
    ensures Readable(s', key, doc)
  {}

  /** The step of a process at work on the document. */
  lemma WorkOwn(env: Env, faults: Faults, s: State, a: Action, key: BotKey, doc: string)
    requires !faults.Arbitrary? && Ordered(env, s, key, doc) && a.Work? && Enabled(env, faults, s, a)
    requires AtWork(s, a.pid, key, doc) && Kept(env, s, key, doc)
    ensures Kept(env, Next(env, s, a), key, doc)
  {
    var p := s.procs[a.pid];
    assert Welcome(env, s.st, p) && Keepable(key, doc)(p.req);
    AloneAtWork(env, s, a.pid, key, doc);
    MoveKept(env, faults, s, a, key, doc);
  }

  lemma MoveKept(env: Env, faults: Faults, s: State, a: Action, key: BotKey, doc: string)
    requires !faults.Arbitrary? && CollisionFree(env) && AllKeyed(env, s.st) && a.Work?
    requires AtWork(s, a.pid, key, doc) && Running(s.procs[a.pid].pc) && Kept(env, s, key, doc)
    requires forall other :: AtWork(s, other, key, doc) ==> other == a.pid
    requires var p := s.procs[a.pid];
             && FaultAllowed(faults, p.pc, a.fault) && WellFormed(env, p.req) && Entitled(s.st, p.req, p.pc)
             && (p.req.Upload? ==> Storable(p.req.content))
    ensures Kept(env, Next(env, s, a), key, doc)
  {
    var p := s.procs[a.pid];
    var (st', pc') := Disturb(s.st, Advance(s.st, p.req, p.pc, a.pick), a.fault);
    StepGrows(s.st, p.req, p.pc, a.pick);
    HoldsOn(s.st, p.req, p.pc, a.pick);
    if NameFree(s.st, key) {
      StepSteady(env, faults, s.st, p.req, p.pc, a.pick, a.fault, p.entry.points);
    }
    HolderKept(env, s, a.pid, st', pc', key, doc);
  }

  lemma HolderKept(env: Env, s: State, pid: nat, st': Stores, pc': Pc, key: BotKey, doc: string)
    requires AtWork(s, pid, key, doc) && Kept(env, s, key, doc) && WellFormed(env, s.procs[pid].req) && Holding(pc')
    requires forall other :: AtWork(s, other, key, doc) ==> other == pid
    requires var p := s.procs[pid];
             NameFree(st', key) ==>
               && NameFree(s.st, key) && Steady(st', p.req, pc', p.entry.points, PointsOf(st', key, doc))
               && OldNoneOrNew(p.req, PointsOf(s.st, key, doc), PointsOf(st', key, doc))
    ensures Kept(env, SetPc(s.(st := st'), pid, pc'), key, doc)
  {
    var s', p := SetPc(s.(st := st'), pid, pc'), s.procs[pid];
    assert AtWork(s', pid, key, doc);
    forall other | AtWork(s', other, key, doc)
      ensures other == pid
    {
      assert other != pid ==> AtWork(s, other, key, doc);
    }
    if p.req.Upload? {
      NewSingle(env, p.req);
    }
  }

  lemma AloneAtWork(env: Env, s: State, pid: nat, key: BotKey, doc: string)
    requires AllLocked(env, s) && AtWork(s, pid, key, doc)
    ensures forall other :: AtWork(s, other, key, doc) ==> other == pid
  {
    forall other | AtWork(s, other, key, doc)
      ensures other == pid
    {
      assert HasLock(env, s, pid) && HasLock(env, s, other);
    }
  }

  /** Taking a lock and giving it back. */
  lemma LockKept(env: Env, faults: Faults, s: State, a: Action, key: BotKey, doc: string)
    requires AllLocked(env, s) && AllLocked(env, Next(env, s, a)) && !a.Work? && Enabled(env, faults, s, a)
    requires Kept(env, s, key, doc)
    ensures Kept(env, Next(env, s, a), key, doc)
  {
    var s' := Next(env, s, a);
    assert forall pid :: pid != a.pid ==> AtWork(s', pid, key, doc) == AtWork(s, pid, key, doc);
    if AtWork(s', a.pid, key, doc) {
      AloneAtWork(env, s', a.pid, key, doc);
      assert forall pid :: !AtWork(s, pid, key, doc);
    } else if AtWork(s, a.pid, key, doc) {
      AloneAtWork(env, s, a.pid, key, doc);
      assert forall pid :: !AtWork(s', pid, key, doc);
    } else if NameFree(s.st, key) {
      SameReadable(s, s', key, doc);
    }
  }

  lemma RunOrdered(
    env: Env, faults: Faults, st0: Stores, actions: seq<Action>, key: BotKey, doc: string)
    requires CollisionFree(env) && AllKeyed(env, st0) && Owned(st0) && Legal(env, faults, Begin(st0), actions)
    requires StorableUploads(actions, key, doc)
    ensures Ordered(env, Run(env, Begin(st0), actions), key, doc)
  {
    RunKeyed(env, faults, st0, actions);
    LegalAnyFaults(env, faults, Begin(st0), actions);
    RunOwned(env, st0, actions);
    RunLocked(env, faults, st0, actions);
    RunRequests(env, faults, Keepable(key, doc), st0, actions);
  }

  /** Stores whose points of this document are of one version, and of none if it has no row. */
  ghost predicate OneVersion(st: Stores, key: BotKey, doc: string) {
    Single(PointsOf(st, key, doc)) && (doc !in st.rows ==> PointsOf(st, key, doc) == map[])
  }

  lemma {:induction false} RunKept(
    env: Env, faults: Faults, st0: Stores, actions: seq<Action>, key: BotKey, doc: string)
    requires !faults.Arbitrary? && CollisionFree(env) && AllKeyed(env, st0) && Owned(st0)
    requires Legal(env, faults, Begin(st0), actions) && StorableUploads(actions, key, doc) && OneVersion(st0, key, doc)
    ensures Kept(env, Run(env, Begin(st0), actions), key, doc)
  {
    if actions != [] {
      var front, a := actions[..|actions| - 1], actions[|actions| - 1];
      var s := Run(env, Begin(st0), front);
      RunKept(env, faults, st0, front, key, doc);
      RunOrdered(env, faults, st0, front, key, doc);
      if !a.Work? {
        RunLocked(env, faults, st0, actions);
        LockKept(env, faults, s, a, key, doc);
      } else if AtWork(s, a.pid, key, doc) {
        WorkOwn(env, faults, s, a, key, doc);
      } else {
        WorkForeign(env, s, a, key, doc);
      }
    }
  }

  /**
   * No version mixing, clean faults, any bots requesting any documents: in every single state, inside the window of
   * a replace too, all points of a document in a registered bot's collection carry one content hash.
   */
  lemma NoVersionMixing(env: Env, faults: Faults, st0: Stores, actions: seq<Action>, key: BotKey, doc: string)
    requires !faults.Arbitrary? && CollisionFree(env) && AllKeyed(env, st0) && Owned(st0)
    requires Legal(env, faults, Begin(st0), actions) && StorableUploads(actions, key, doc) && OneVersion(st0, key, doc)
    ensures var s := Run(env, Begin(st0), actions);
            Registered(s.st, key) ==> exists hash :: OneHash(PointsOf(s.st, key, doc), hash)
  {
    var s := Run(env, Begin(st0), actions);
    RunKept(env, faults, st0, actions, key, doc);
    if Registered(s.st, key) {
      var hash := TheHash(PointsOf(s.st, key, doc));
    }
  }

  lemma TheHash(points: Collection) returns (hash: string)
    requires Single(points)
    ensures OneHash(points, hash)
  {
    if points == map[] {
      hash := "";
    } else {
      var id :| id in points;
      hash := points[id].hash;
    }
  }

  /**
   * A reader sees the old version, nothing or the new one: in every state in which a process is at work on a document
   * of a registered bot, its points are those at the acquisition of the lock, none, or exactly the upload's own.
   */
  lemma ReadersSeeOldNoneOrNew(env: Env, faults: Faults, st0: Stores, actions: seq<Action>, pid: nat)
    requires !faults.Arbitrary? && CollisionFree(env) && AllKeyed(env, st0) && Owned(st0)
    requires Legal(env, faults, Begin(st0), actions)
    requires var s := Run(env, Begin(st0), actions);
             && pid in s.procs && Holding(s.procs[pid].pc) && Registered(s.st, s.procs[pid].req.key)
             && StorableUploads(actions, s.procs[pid].req.key, s.procs[pid].req.doc)
             && OneVersion(st0, s.procs[pid].req.key, s.procs[pid].req.doc)
    ensures var s := Run(env, Begin(st0), actions);
            var p := s.procs[pid];
            OldNoneOrNew(p.req, p.entry.points, PointsOf(s.st, p.req.key, p.req.doc))
  {
    var s := Run(env, Begin(st0), actions);
    var p := s.procs[pid];
    RunKept(env, faults, st0, actions, p.req.key, p.req.doc);
    assert AtWork(s, pid, p.req.key, p.req.doc);
  }
}
