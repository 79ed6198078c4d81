/**
 * Uploads and deletes as interleaved processes: every store call is one atomic step, any process may be the
 * next to step, and calls fail as the fault model allows.
 */
module Protocol {
  import opened Effects
  import opened Naming
  import opened Results
  import opened Stores

  datatype Pc =
    | Waiting                                             // polling for the lock
    | AddingTenant | AddingBot                            // get_or_create of tenant and bot
    | Looking                                             // reading the row
    | Refreshing(doc: string, chunks: int, items: int)    // existing.save or content_match.save
    | Matching(replace: bool)                             // content-match query
    | Collecting(replace: bool)                           // get_or_create_collection
    | Chunking(replace: bool) | Embedding(replace: bool)
    | Clearing | Upserting(replace: bool) | Saving(replace: bool)
    | Removing(already: bool) | Marking(already: bool, count: int)   // a delete's two writes
    | Releasing(outcome: Outcome)                         // the finally block
    | Finished(outcome: Outcome)

  /** Retried: the call succeeded after an earlier attempt had taken effect without its reply arriving. */
  datatype Fault = Ok | Retried | Raise(effect: bool) | Die(effect: bool)

  datatype Process = Process(req: Request, pc: Pc, entry: View)

  /** One critical section, with its document's view at acquisition and at release. */
  datatype Event = Event(req: Request, outcome: Outcome, before: View, after: View)

  datatype State = State(st: Stores, locks: map<(Int32, Int32), nat>, procs: map<nat, Process>,
                         log: map<string, seq<Event>>)

  datatype Action =
    | Start(pid: nat, req: Request)
    | Acquire(pid: nat)
    | GiveUp(pid: nat)
    | Work(pid: nat, fault: Fault, pick: string)
    | Unlock(pid: nat)

  // ---- one step

  predicate Holding(pc: Pc) { !pc.Waiting? && !pc.Finished? }

  predicate Running(pc: Pc) { Holding(pc) && !pc.Releasing? }

  function KeyOf(env: Env, req: Request): Result<(Int32, Int32), NameError> {
    env.lockKey(req.key.tenant, req.key.bot, req.doc)
  }

  function FirstPc(req: Request): Pc { if req.Upload? then AddingTenant else Looking }

  /** The next step of an upload when its store call succeeds. */
  function AdvanceUpload(st: Stores, req: Request, pc: Pc, pick: string): (Stores, Pc)
    requires req.Upload? && Running(pc)
  {
    var Upload(key, doc, content) := req;
    match pc
    case AddingTenant => (AddTenant(st, key), AddingBot)
    case AddingBot => if NameFree(st, key) then (AddBot(st, key), Looking) else (st, Releasing(Raised(BotConflict)))
    case Looking =>
      if doc !in st.rows then (st, Matching(false))
      else
        var row := st.rows[doc];
        if row.key != key then (st, Releasing(Raised(Collision)))
        else if row.chunkCount > 0 && row.hash == content.hash then
          (st, Refreshing(doc, row.chunkCount, row.itemCount))
        else (st, Matching(true))
    case Refreshing(target, n, m) => (Touch(st, target), Releasing(NoChange(target, n, m)))
    case Matching(replace) =>
      if pick in Duplicates(st, key, doc, content.hash) then
        (st, Refreshing(pick, st.rows[pick].chunkCount, st.rows[pick].itemCount))
      else (st, Collecting(replace))
    case Collecting(replace) => (EnsureCollection(st, key.Name()), Chunking(replace))
    case Chunking(replace) =>
      var points := content.points;
      if |points| == 0 then (st, Releasing(Raised(NoContent)))
      else if |points| > MAX_CHUNKS_PER_DOC then (st, Releasing(Raised(TooLarge)))
      else (st, Embedding(replace))
    case Embedding(replace) =>
      if !Writable(content.points) then (st, Releasing(Raised(Unembeddable)))
      else (st, if replace then Clearing else Upserting(false))
    case Clearing => (ClearDoc(st, key.Name(), doc), Upserting(true))
    case Upserting(replace) =>
      if key.Name() in st.collections then
        (UpsertInto(st, key.Name(), content.points), Saving(replace))
      else (st, Releasing(Raised(StoreFailure)))
    case Saving(replace) =>
      if !Storable(content) then (st, Releasing(Raised(RowRefused))) else
      var n, m := |content.points|, |content.body.items|;
      (SaveRow(st, key, doc, content), Releasing(if replace then Replaced(n, m) else Created(n, m)))
    case _ => (st, Releasing(Raised(StoreFailure)))
  }

  function AdvanceDelete(st: Stores, req: Request, pc: Pc): (Stores, Pc)
    requires req.Delete? && Running(pc)
  {
    var Delete(key, doc) := req;
    match pc
    case Looking =>
      if doc !in st.rows || st.rows[doc].key != key then (st, Releasing(Raised(NotFound)))
      else (st, Removing(st.rows[doc].status == Deleted))
    case Removing(already) =>
      (ClearDoc(st, key.Name(), doc), Marking(already, |DocPoints(Held(st, key.Name()), doc)|))
    case Marking(already, n) =>
      (if doc in st.rows then MarkDeleted(st, doc) else st, Releasing(Removed(n, already)))
    case _ => (st, Releasing(Raised(StoreFailure)))
  }

  function Advance(st: Stores, req: Request, pc: Pc, pick: string): (Stores, Pc)
    requires Running(pc)
  {
    if req.Upload? then AdvanceUpload(st, req, pc, pick) else AdvanceDelete(st, req, pc)
  }

  /** What a fault makes of a step. */
  function Disturb(st: Stores, next: (Stores, Pc), fault: Fault): (Stores, Pc) {
    match fault
    case Ok => next
    case Retried => (next.0, if next.1.Marking? then next.1.(count := 0) else next.1)
    case Raise(effect) => (if effect then next.0 else st, Releasing(Raised(StoreFailure)))
    case Die(effect) => (if effect then next.0 else st, Releasing(Died))
  }

  predicate Strikes(fault: Fault) { fault.Raise? || fault.Die? }

  predicate FaultAllowed(faults: Faults, pc: Pc, fault: Fault) {
    Strikes(fault) ==>
      match faults
      case Arbitrary => true
      case Clean => !pc.Saving? && (pc.Upserting? ==> !fault.effect)
      case Lossless => !pc.Saving? && !pc.Upserting? && !pc.Marking?
                       && (pc.Clearing? || pc.Removing? ==> !fault.effect)
  }

  /**
   * The fault models: a call may always succeed, at once or on a retry; it may fail or kill its process, having taken
   * effect or not, but for the calls that a model excepts. Only what took effect is in the stores.
   */
  lemma FaultsMean(pc: Pc, st: Stores, next: (Stores, Pc), effect: bool)
    ensures forall faults :: FaultAllowed(faults, pc, Ok) && FaultAllowed(faults, pc, Retried)
    ensures FaultAllowed(Arbitrary, pc, Raise(effect)) && FaultAllowed(Arbitrary, pc, Die(effect))
    ensures FaultAllowed(Clean, pc, Raise(effect)) == FaultAllowed(Clean, pc, Die(effect)) ==
            !(pc.Saving? || (pc.Upserting? && effect))
    ensures FaultAllowed(Lossless, pc, Raise(effect)) == FaultAllowed(Lossless, pc, Die(effect)) ==
            !(pc.Saving? || pc.Upserting? || pc.Marking? || (effect && (pc.Clearing? || pc.Removing?)))
    ensures Disturb(st, next, Ok) == next && Disturb(st, next, Retried).0 == next.0
    ensures Disturb(st, next, Raise(effect)) == (if effect then next.0 else st, Releasing(Raised(StoreFailure)))
    ensures Disturb(st, next, Die(effect)) == (if effect then next.0 else st, Releasing(Died))
  {}

  // ---- the system

  function LogOf(s: State, doc: string): seq<Event> { if doc in s.log then s.log[doc] else [] }

  function SetPc(s: State, pid: nat, pc: Pc): State
    requires pid in s.procs
  {
    s.(procs := s.procs[pid := s.procs[pid].(pc := pc)])
  }

  /** An upload writes what its body computes to. (Quantified, so that proofs unfold ContentOf only on demand.) */
  ghost predicate Genuine(env: Env, req: Request) {
    req.Upload? ==>
      forall body :: body == req.content.body ==> req.content == ContentOf(env, req.key, req.doc, body)
  }

  predicate Enabled(env: Env, faults: Faults, s: State, a: Action) {
    match a
    case Start(pid, req) => pid !in s.procs
    case Acquire(pid) =>
      && pid in s.procs && s.procs[pid].pc.Waiting?
      && KeyOf(env, s.procs[pid].req).Success? && KeyOf(env, s.procs[pid].req).value !in s.locks
    case GiveUp(pid) => pid in s.procs && s.procs[pid].pc.Waiting?
    case Work(pid, fault, pick) =>
      && pid in s.procs && Running(s.procs[pid].pc)
      && FaultAllowed(faults, s.procs[pid].pc, fault)
      && PickAllowed(s.st, s.procs[pid].req, s.procs[pid].pc, pick)
    case Unlock(pid) => pid in s.procs && s.procs[pid].pc.Releasing?
  }

  /** The content-match query names one of its matches, if it has any. */
  predicate PickAllowed(st: Stores, req: Request, pc: Pc, pick: string) {
    req.Upload? && pc.Matching? ==>
      var dups := Duplicates(st, req.key, req.doc, req.content.hash);
      dups != {} ==> pick in dups
  }

  function Next(env: Env, s: State, a: Action): State {
    match a
    case Start(pid, req) => s.(procs := s.procs[pid := Process(req, Waiting, View(None, map[]))])
    case Acquire(pid) =>
      if pid !in s.procs || KeyOf(env, s.procs[pid].req).Failure? then s
      else
        var req := s.procs[pid].req;
        s.(locks := s.locks[KeyOf(env, req).value := pid],
           procs := s.procs[pid := Process(req, FirstPc(req), ViewOf(s.st, req.key, req.doc))])
    case GiveUp(pid) =>
      if pid !in s.procs then s
      else SetPc(s, pid, Finished(Raised(if KeyOf(env, s.procs[pid].req).Failure? then InvalidName else Busy)))
    case Work(pid, fault, pick) =>
      if pid !in s.procs || !Running(s.procs[pid].pc) then s
      else
        var p := s.procs[pid];
        var (st, pc) := Disturb(s.st, Advance(s.st, p.req, p.pc, pick), fault);
        SetPc(s.(st := st), pid, pc)
    case Unlock(pid) =>
      if pid !in s.procs || !s.procs[pid].pc.Releasing? then s else Close(env, s, pid)
  }

  /** Gives the lock back, by the finally block or by the end of the database session. */
  function Close(env: Env, s: State, pid: nat): State
    requires pid in s.procs && s.procs[pid].pc.Releasing?
  {
    var p := s.procs[pid];
    var key := KeyOf(env, p.req);
    var event := Event(p.req, p.pc.outcome, p.entry, ViewOf(s.st, p.req.key, p.req.doc));
    SetPc(s, pid, Finished(p.pc.outcome)).(
      locks := if key.Success? then s.locks - {key.value} else s.locks,
      log := s.log[p.req.doc := LogOf(s, p.req.doc) + [event]])
  }

  function Begin(st: Stores): State { State(st, map[], map[], map[]) }

  function Run(env: Env, s: State, actions: seq<Action>): State {
    if actions == [] then s
    else Next(env, Run(env, s, actions[..|actions| - 1]), actions[|actions| - 1])
  }

  ghost predicate Legal(env: Env, faults: Faults, s: State, actions: seq<Action>) {
    actions == [] ||
    var front, a := actions[..|actions| - 1], actions[|actions| - 1];
    && Legal(env, faults, s, front)
    && Enabled(env, faults, Run(env, s, front), a)
    && (a.Start? ==> Genuine(env, a.req))
  }

  /** Every action is one that its state allows. */
  ghost predicate Possible(env: Env, faults: Faults, s: State, actions: seq<Action>) {
    actions == [] ||
    var front, a := actions[..|actions| - 1], actions[|actions| - 1];
    Possible(env, faults, s, front) && Enabled(env, faults, Run(env, s, front), a)
  }

  lemma {:induction false} LegalIsPossible(env: Env, faults: Faults, s: State, actions: seq<Action>)
    ensures Legal(env, faults, s, actions) <==>
            Possible(env, faults, s, actions) && forall a :: a in actions && a.Start? ==> Genuine(env, a.req)
  {
    if actions != [] {
      var front, a := actions[..|actions| - 1], actions[|actions| - 1];
      LegalIsPossible(env, faults, s, front);
      assert actions == front + [a];
    }
  }

  lemma {:induction false} LegalAnyFaults(env: Env, faults: Faults, s: State, actions: seq<Action>)
    requires Legal(env, faults, s, actions)
    ensures Legal(env, Arbitrary, s, actions)
  {
    if actions != [] {
      LegalAnyFaults(env, faults, s, actions[..|actions| - 1]);
    }
  }

  /** Every document id is requested under one bot. */
  ghost predicate OneBotPerDoc(owner: string -> BotKey, actions: seq<Action>) {
    forall a :: a in actions && a.Start? ==> owner(a.req.doc) == a.req.key
  }
  // ---- the invariant

  /** What a document looks like at rest, as its history tells: the end of the last critical section. */
  function LastView(start: View, log: seq<Event>): View {
    if log == [] then start else log[|log| - 1].after
  }

  /** How far a lock holder has taken its document. */
  ghost predicate Progress(faults: Faults, req: Request, pc: Pc, v: View, w: View) {
    match pc
    case Releasing(o) => Effect(faults, req, o, v, w)
    case Looking => w == v
    case _ => if req.Upload? then UploadProgress(req, pc, v, w) else DeleteProgress(req, pc, v, w)
  }

  ghost predicate UploadProgress(req: Request, pc: Pc, v: View, w: View)
    requires req.Upload?
  {
    var Upload(key, doc, content) := req;
    match pc
    case AddingTenant => w == v
    case AddingBot => w == v
    case Refreshing(target, n, m) =>
      w == v && n > 0 && Usable(v, key) && (Unchanged(v, content.hash) <==> target == doc)
      && (target == doc ==> n == v.row.value.chunkCount && m == v.row.value.itemCount)
    case Matching(replace) => w == v && Usable(v, key) && replace == v.row.Some? && !Unchanged(v, content.hash)
    case Collecting(replace) => w == v && Usable(v, key) && replace == v.row.Some? && !Unchanged(v, content.hash)
    case Chunking(replace) => w == v && Usable(v, key) && replace == v.row.Some? && !Unchanged(v, content.hash)
    case Embedding(replace) =>
      w == v && Usable(v, key) && replace == v.row.Some? && !Unchanged(v, content.hash)
      && 0 < |content.points| <= MAX_CHUNKS_PER_DOC
    case Clearing => w == v && Mine(v, key) && !Unchanged(v, content.hash) && Writable(content.points)
    case Upserting(replace) =>
      w == Base(v) && Usable(v, key) && replace == v.row.Some? && !Unchanged(v, content.hash)
      && Writable(content.points)
    case Saving(replace) =>
      w == Stored(v, content) && Usable(v, key) && replace == v.row.Some? && !Unchanged(v, content.hash)
      && Writable(content.points)
    case _ => false
  }

  ghost predicate DeleteProgress(req: Request, pc: Pc, v: View, w: View) {
    match pc
    case Removing(already) => w == v && Mine(v, req.key) && (already <==> v.row.value.status == Deleted)
    case Marking(already, n) => w == Cleared(v) && Mine(v, req.key) && (already <==> v.row.value.status == Deleted)
                                && (n == |v.points| || n == 0)
    case _ => false
  }

  /** The collection is there for the steps that need it. */
  predicate Ready(st: Stores, req: Request, pc: Pc) {
    pc.Chunking? || pc.Embedding? || pc.Clearing? || pc.Upserting? ==> req.key.Name() in st.collections
  }

  ghost predicate AllKeyed(env: Env, st: Stores) {
    forall n :: n in st.collections ==> WellKeyed(env, st.collections[n])
  }

  // ---- one step of one process

  /** A step leaves every other document as it is, a content match's last_refreshed_at aside. */
  lemma StepElsewhere(env: Env, st: Stores, req: Request, pc: Pc, pick: string, k: BotKey, e: string)
    requires CollisionFree(env) && AllKeyed(env, st) && WellFormed(env, req) && Running(pc) && e != req.doc
    ensures ViewOf(Advance(st, req, pc, pick).0, k, e) == ViewOf(st, k, e)
  {
    if req.Upload? {
      UploadElsewhere(env, st, req, pc, pick, k, e);
    } else {
      ClearSeen(st, req.key, req.doc, k, e);
      if req.doc in st.rows {
        MarkSeen(st, req.doc, k, e);
      }
    }
  }

  lemma UploadElsewhere(env: Env, st: Stores, req: Request, pc: Pc, pick: string, k: BotKey, e: string)
    requires req.Upload?
    requires CollisionFree(env) && AllKeyed(env, st) && WellFormed(env, req) && Running(pc) && e != req.doc
    ensures ViewOf(AdvanceUpload(st, req, pc, pick).0, k, e) == ViewOf(st, k, e)
  {
    match pc
    case Clearing => ClearSeen(st, req.key, req.doc, k, e);
    case Upserting(_) =>
      if req.key.Name() in st.collections {
        UpsertSeen(env, st, req.key, req.doc, req.content, k, e);
      }
    case Saving(_) => SaveSeen(st, req.key, req.doc, req.content, k, e);
    case Refreshing(target, _, _) => SilentCalls(st, req.key, target, req.key.Name(), k, e);
    case _ => SilentCalls(st, req.key, "", req.key.Name(), k, e);
  }

  lemma StepHidden(env: Env, st: Stores, req: Request, pc: Pc, pick: string, fault: Fault)
    requires CollisionFree(env) && AllKeyed(env, st) && WellFormed(env, req) && Running(pc)
    ensures forall k, e :: e != req.doc ==>
              ViewOf(Disturb(st, Advance(st, req, pc, pick), fault).0, k, e) == ViewOf(st, k, e)
  {
    forall k, e | e != req.doc
      ensures ViewOf(Disturb(st, Advance(st, req, pc, pick), fault).0, k, e) == ViewOf(st, k, e)
    {
      StepElsewhere(env, st, req, pc, pick, k, e);
    }
  }

  lemma StepKeyed(env: Env, st: Stores, req: Request, pc: Pc, pick: string)
    requires CollisionFree(env) && AllKeyed(env, st) && WellFormed(env, req) && Running(pc)
    ensures AllKeyed(env, Advance(st, req, pc, pick).0)
    ensures st.collections.Keys <= Advance(st, req, pc, pick).0.collections.Keys
  {
    if req.Delete? {
      DeleteKeyed(env, st, req, pc);
    } else {
      UploadKeyed(env, st, req, pc, pick);
    }
  }

  lemma DeleteKeyed(env: Env, st: Stores, req: Request, pc: Pc)
    requires AllKeyed(env, st) && req.Delete? && Running(pc)
    ensures AllKeyed(env, AdvanceDelete(st, req, pc).0)
    ensures st.collections.Keys <= AdvanceDelete(st, req, pc).0.collections.Keys
  {}

  lemma UploadKeyed(env: Env, st: Stores, req: Request, pc: Pc, pick: string)
    requires CollisionFree(env) && AllKeyed(env, st) && WellFormed(env, req) && req.Upload? && Running(pc)
    ensures AllKeyed(env, AdvanceUpload(st, req, pc, pick).0)
    ensures st.collections.Keys <= AdvanceUpload(st, req, pc, pick).0.collections.Keys
  {
    if pc.Upserting? && req.key.Name() in st.collections {
      UpsertSeen(env, st, req.key, req.doc, req.content, req.key, req.doc);
    }
  }

  /**
   * How far a lock holder may have taken its document. The lemmas are stated for any such relation, and used with
   * Progress.
   */
  type Stage = (Request, Pc, View, View) -> bool

  ghost function StageOf(faults: Faults): Stage { (req, pc, v, w) => Progress(faults, req, pc, v, w) }

  /** A step takes its own document one stage further. */
  lemma StepOwn(env: Env, faults: Faults, stage: Stage, st: Stores, req: Request, pc: Pc, pick: string, v: View)
    requires stage == StageOf(faults)
    requires CollisionFree(env) && AllKeyed(env, st) && WellFormed(env, req) && Running(pc)
    requires stage(req, pc, v, ViewOf(st, req.key, req.doc)) && Ready(st, req, pc)
    ensures var (next, pc') := Advance(st, req, pc, pick);
            Holding(pc') && Ready(next, req, pc') && stage(req, pc', v, ViewOf(next, req.key, req.doc))
  {
    if req.Delete? {
      OnDeletesWay(faults, stage, req, pc, v, ViewOf(st, req.key, req.doc));
      if pc.Looking? {
        StepOwnLook(faults, stage, st, req, pc, pick, v);
      } else if pc.Removing? {
        StepOwnRemove(faults, stage, st, req, pc, pick, v);
      } else {
        StepOwnMark(faults, stage, st, req, pc, pick, v);
      }
    } else if pc.Clearing? {
      StepOwnClear(faults, stage, st, req, pc, pick, v);
    } else if pc.Upserting? {
      StepOwnUpsert(env, faults, stage, st, req, pc, pick, v);
    } else if pc.Saving? {
      StepOwnSave(faults, stage, st, req, pc, pick, v);
    } else if pc.Looking? || pc.Matching? {
      StepOwnQuery(faults, stage, st, req, pc, pick, v);
    } else if pc.Chunking? {
      StepOwnChunk(faults, stage, st, req, pc, pick, v);
    } else if pc.Embedding? {
      StepOwnEmbed(faults, stage, st, req, pc, pick, v);
    } else if pc.Refreshing? {
      StepOwnRefresh(faults, stage, st, req, pc, pick, v);
    } else {
      OnUploadsWay(faults, stage, req, pc, v, ViewOf(st, req.key, req.doc));
      StepOwnRegister(faults, stage, st, req, pc, pick, v);
    }
  }

  lemma StepOwnLook(faults: Faults, stage: Stage, st: Stores, req: Request, pc: Pc, pick: string, v: View)
    requires stage == StageOf(faults) && req.Delete? && pc.Looking?
    requires stage(req, pc, v, ViewOf(st, req.key, req.doc))
    ensures var (next, pc') := Advance(st, req, pc, pick);
            Holding(pc') && Ready(next, req, pc') && stage(req, pc', v, ViewOf(next, req.key, req.doc))
  {}

  lemma StepOwnRemove(faults: Faults, stage: Stage, st: Stores, req: Request, pc: Pc, pick: string, v: View)
    requires stage == StageOf(faults) && req.Delete? && pc.Removing?
    requires stage(req, pc, v, ViewOf(st, req.key, req.doc))
    ensures var (next, pc') := Advance(st, req, pc, pick);
            Holding(pc') && Ready(next, req, pc') && stage(req, pc', v, ViewOf(next, req.key, req.doc))
  {
    ClearSeen(st, req.key, req.doc, req.key, req.doc);
  }

  lemma StepOwnMark(faults: Faults, stage: Stage, st: Stores, req: Request, pc: Pc, pick: string, v: View)
    requires stage == StageOf(faults) && req.Delete? && pc.Marking?
    requires stage(req, pc, v, ViewOf(st, req.key, req.doc))
    ensures var (next, pc') := Advance(st, req, pc, pick);
            Holding(pc') && Ready(next, req, pc') && stage(req, pc', v, ViewOf(next, req.key, req.doc))
  {
    if req.doc in st.rows {
      MarkSeen(st, req.doc, req.key, req.doc);
    }
  }

  lemma OnDeletesWay(faults: Faults, stage: Stage, req: Request, pc: Pc, v: View, w: View)
    requires stage == StageOf(faults) && req.Delete? && Running(pc) && stage(req, pc, v, w)
    ensures pc.Looking? || pc.Removing? || pc.Marking?
  {}

  lemma StepOwnClear(faults: Faults, stage: Stage, st: Stores, req: Request, pc: Pc, pick: string, v: View)
    requires stage == StageOf(faults) && req.Upload? && pc.Clearing?
    requires stage(req, pc, v, ViewOf(st, req.key, req.doc)) && Ready(st, req, pc)
    ensures var (next, pc') := Advance(st, req, pc, pick);
            Holding(pc') && Ready(next, req, pc') && stage(req, pc', v, ViewOf(next, req.key, req.doc))
  {
    ClearSeen(st, req.key, req.doc, req.key, req.doc);
  }

  lemma StepOwnUpsert(env: Env, faults: Faults, stage: Stage, st: Stores, req: Request, pc: Pc, pick: string, v: View)
    requires stage == StageOf(faults) && req.Upload? && pc.Upserting?
    requires CollisionFree(env) && AllKeyed(env, st) && WellFormed(env, req)
    requires stage(req, pc, v, ViewOf(st, req.key, req.doc)) && Ready(st, req, pc)
    ensures var (next, pc') := Advance(st, req, pc, pick);
            Holding(pc') && Ready(next, req, pc') && stage(req, pc', v, ViewOf(next, req.key, req.doc))
  {
    UpsertSeen(env, st, req.key, req.doc, req.content, req.key, req.doc);
  }

  lemma StepOwnSave(faults: Faults, stage: Stage, st: Stores, req: Request, pc: Pc, pick: string, v: View)
    requires stage == StageOf(faults) && req.Upload? && pc.Saving?
    requires stage(req, pc, v, ViewOf(st, req.key, req.doc))
    ensures var (next, pc') := Advance(st, req, pc, pick);
            Holding(pc') && Ready(next, req, pc') && stage(req, pc', v, ViewOf(next, req.key, req.doc))
  {
    SaveSeen(st, req.key, req.doc, req.content, req.key, req.doc);
  }

  /** Reading the row, and the content-match query. */
  lemma StepOwnQuery(faults: Faults, stage: Stage, st: Stores, req: Request, pc: Pc, pick: string, v: View)
    requires stage == StageOf(faults) && req.Upload? && (pc.Looking? || pc.Matching?)
    requires stage(req, pc, v, ViewOf(st, req.key, req.doc))
    ensures var (next, pc') := Advance(st, req, pc, pick);
            Holding(pc') && Ready(next, req, pc') && stage(req, pc', v, ViewOf(next, req.key, req.doc))
  {}

  lemma StepOwnChunk(faults: Faults, stage: Stage, st: Stores, req: Request, pc: Pc, pick: string, v: View)
    requires stage == StageOf(faults) && req.Upload? && pc.Chunking?
    requires stage(req, pc, v, ViewOf(st, req.key, req.doc)) && Ready(st, req, pc)
    ensures var (next, pc') := Advance(st, req, pc, pick);
            Holding(pc') && Ready(next, req, pc') && stage(req, pc', v, ViewOf(next, req.key, req.doc))
  {}

  lemma StepOwnEmbed(faults: Faults, stage: Stage, st: Stores, req: Request, pc: Pc, pick: string, v: View)
    requires stage == StageOf(faults) && req.Upload? && pc.Embedding?
    requires stage(req, pc, v, ViewOf(st, req.key, req.doc)) && Ready(st, req, pc)
    ensures var (next, pc') := Advance(st, req, pc, pick);
            Holding(pc') && Ready(next, req, pc') && stage(req, pc', v, ViewOf(next, req.key, req.doc))
  {
    if !pc.replace {
      assert Base(v) == v;
    }
  }

  /** The calls that no document can see. */
  lemma StepOwnRegister(faults: Faults, stage: Stage, st: Stores, req: Request, pc: Pc, pick: string, v: View)
    requires stage == StageOf(faults) && req.Upload? && (pc.AddingTenant? || pc.AddingBot? || pc.Collecting?)
    requires stage(req, pc, v, ViewOf(st, req.key, req.doc))
    ensures var (next, pc') := Advance(st, req, pc, pick);
            Holding(pc') && Ready(next, req, pc') && stage(req, pc', v, ViewOf(next, req.key, req.doc))
  {
    SilentCalls(st, req.key, "", req.key.Name(), req.key, req.doc);
  }

  lemma StepOwnRefresh(faults: Faults, stage: Stage, st: Stores, req: Request, pc: Pc, pick: string, v: View)
    requires stage == StageOf(faults) && req.Upload? && pc.Refreshing?
    requires stage(req, pc, v, ViewOf(st, req.key, req.doc))
    ensures var (next, pc') := Advance(st, req, pc, pick);
            Holding(pc') && Ready(next, req, pc') && stage(req, pc', v, ViewOf(next, req.key, req.doc))
  {
    SilentCalls(st, req.key, pc.doc, req.key.Name(), req.key, req.doc);
  }

  lemma OnUploadsWay(faults: Faults, stage: Stage, req: Request, pc: Pc, v: View, w: View)
    requires stage == StageOf(faults) && req.Upload? && Running(pc) && stage(req, pc, v, w)
    ensures !pc.Removing? && !pc.Marking?
  {}

  /** The program points at which the fault model lets a process stop. */
  predicate Tolerates(faults: Faults, pc: Pc) {
    match faults
    case Arbitrary => true
    case Clean => !pc.Saving? && !(pc.Releasing? && PastUpsert(pc.outcome))
    case Lossless =>
      && !pc.Saving? && !pc.Marking? && (pc.Upserting? ==> !pc.replace)
      && !(pc.Releasing? && (PastUpsert(pc.outcome) || pc.outcome.Removed?))
  }

  /** What a fault leaves behind is one of the places where an interrupted request can end. */
  lemma Interruption(faults: Faults, req: Request, pc: Pc, v: View, w: View)
    requires Holding(pc) && Tolerates(faults, pc) && Progress(faults, req, pc, v, w)
    ensures Effect(faults, req, Raised(StoreFailure), v, w) && Effect(faults, req, Died, v, w)
  {}

  lemma AllowedTolerated(faults: Faults, st: Stores, req: Request, pc: Pc, pick: string, fault: Fault)
    requires Running(pc) && Strikes(fault) && FaultAllowed(faults, pc, fault)
    ensures Tolerates(faults, if fault.effect then Advance(st, req, pc, pick).1 else pc)
  {}

  // ---- the invariant of every run

  /** A serial history: each critical section starts where the one before it ended and has its request's effect. */
  ghost predicate Serial(stage: Stage, start: View, log: seq<Event>) {
    log == [] ||
    var front, last := log[..|log| - 1], log[|log| - 1];
    && Serial(stage, start, front)
    && last.before == LastView(start, front)
    && stage(last.req, Releasing(last.outcome), last.before, last.after)
  }

  ghost predicate Admitted(env: Env, owner: string -> BotKey, p: Process) {
    WellFormed(env, p.req) && owner(p.req.doc) == p.req.key
  }

  function Past(owner: string -> BotKey, st0: Stores, s: State, doc: string): View {
    LastView(ViewOf(st0, owner(doc), doc), LogOf(s, doc))
  }

  ghost predicate HasLock(env: Env, s: State, pid: nat)
    requires pid in s.procs
  {
    var key := KeyOf(env, s.procs[pid].req);
    key.Success? && key.value in s.locks && s.locks[key.value] == pid
  }

  ghost predicate Working(env: Env, stage: Stage, owner: string -> BotKey, st0: Stores, s: State, pid: nat)
    requires pid in s.procs
  {
    var p := s.procs[pid];
    && HasLock(env, s, pid)
    && p.entry == Past(owner, st0, s, p.req.doc)
    && stage(p.req, p.pc, p.entry, ViewOf(s.st, p.req.key, p.req.doc))
    && Ready(s.st, p.req, p.pc)
  }

  ghost predicate Occupied(s: State, doc: string) {
    exists pid :: pid in s.procs && Holding(s.procs[pid].pc) && s.procs[pid].req.doc == doc
  }

  ghost predicate Settled(stage: Stage, owner: string -> BotKey, st0: Stores, s: State, doc: string) {
    && Serial(stage, ViewOf(st0, owner(doc), doc), LogOf(s, doc))
    && (Occupied(s, doc) || ViewOf(s.st, owner(doc), doc) == Past(owner, st0, s, doc))
  }

  ghost predicate Inv(env: Env, stage: Stage, owner: string -> BotKey, st0: Stores, s: State) {
    && AllKeyed(env, s.st)
    && (forall pid :: pid in s.procs ==> Admitted(env, owner, s.procs[pid]))
    && (forall pid :: pid in s.procs && Holding(s.procs[pid].pc) ==> Working(env, stage, owner, st0, s, pid))
    && (forall doc :: Settled(stage, owner, st0, s, doc))
  }

  /** No two processes are inside the critical section of one document. */
  lemma MutualExclusion(env: Env, owner: string -> BotKey, s: State, pid: nat, other: nat)
    requires pid in s.procs && Admitted(env, owner, s.procs[pid]) && HasLock(env, s, pid)
    requires other in s.procs && Admitted(env, owner, s.procs[other]) && HasLock(env, s, other)
    requires s.procs[pid].req.doc == s.procs[other].req.doc
    ensures pid == other
  {}

  /** One process acts on one document and the other processes stay put. */
  ghost predicate OneMoves(s: State, s': State, pid: nat) {
    && pid in s'.procs && s'.procs == s.procs[pid := s'.procs[pid]]
    && (pid in s.procs ==> s'.procs[pid].req == s.procs[pid].req)
    && s.st.collections.Keys <= s'.st.collections.Keys
    && (forall k, e :: e != s'.procs[pid].req.doc ==> ViewOf(s'.st, k, e) == ViewOf(s.st, k, e))
    && (forall e :: e != s'.procs[pid].req.doc ==> LogOf(s', e) == LogOf(s, e))
    && (forall key :: key in s.locks && s.locks[key] != pid ==> key in s'.locks && s'.locks[key] == s.locks[key])
  }

  lemma OthersKeepWorking(
    env: Env, stage: Stage, owner: string -> BotKey, st0: Stores, s: State, s': State, pid: nat, other: nat)
    requires Inv(env, stage, owner, st0, s) && OneMoves(s, s', pid) && other != pid
    requires other in s.procs && Holding(s.procs[other].pc)
    requires (pid in s.procs && Holding(s.procs[pid].pc)) || (s'.st == s.st && s'.log == s.log)
    ensures Working(env, stage, owner, st0, s', other)
  {
    assert Working(env, stage, owner, st0, s, other);
    if pid in s.procs && Holding(s.procs[pid].pc) {
      assert Working(env, stage, owner, st0, s, pid);
      assert s.procs[other].req.doc != s.procs[pid].req.doc by {
        if s.procs[other].req.doc == s.procs[pid].req.doc {
          MutualExclusion(env, owner, s, pid, other);
        }
      }
    }
  }

  lemma OthersStaySettled(
    stage: Stage, owner: string -> BotKey, st0: Stores, s: State, s': State, pid: nat, e: string)
    requires Settled(stage, owner, st0, s, e) && OneMoves(s, s', pid) && e != s'.procs[pid].req.doc
    ensures Settled(stage, owner, st0, s', e)
  {
    if Occupied(s, e) {
      var q :| q in s.procs && Holding(s.procs[q].pc) && s.procs[q].req.doc == e;
      assert s'.procs[q] == s.procs[q];
    }
  }

  /** What has to be checked of one action for the invariant to survive it. */
  lemma ActionKeepsInv(
    env: Env, stage: Stage, owner: string -> BotKey, st0: Stores, s: State, s': State, pid: nat)
    requires Inv(env, stage, owner, st0, s) && OneMoves(s, s', pid) && AllKeyed(env, s'.st)
    requires Admitted(env, owner, s'.procs[pid])
    requires Holding(s'.procs[pid].pc) ==> Working(env, stage, owner, st0, s', pid)
    requires Settled(stage, owner, st0, s', s'.procs[pid].req.doc)
    requires (pid in s.procs && Holding(s.procs[pid].pc)) || (s'.st == s.st && s'.log == s.log)
    ensures Inv(env, stage, owner, st0, s')
  {
    forall other | other in s'.procs && Holding(s'.procs[other].pc)
      ensures Working(env, stage, owner, st0, s', other)
    {
      if other != pid {
        OthersKeepWorking(env, stage, owner, st0, s, s', pid, other);
      }
    }
    forall e
      ensures Settled(stage, owner, st0, s', e)
    {
      if e != s'.procs[pid].req.doc {
        OthersStaySettled(stage, owner, st0, s, s', pid, e);
      }
    }
  }

  /** A step, disturbed or not, moves its process one stage further along the relation. */
  lemma StageStep(env: Env, faults: Faults, stage: Stage, st: Stores, req: Request, pc: Pc, pick: string,
                  fault: Fault, v: View)
    requires stage == StageOf(faults)
    requires CollisionFree(env) && AllKeyed(env, st) && WellFormed(env, req) && Running(pc)
    requires stage(req, pc, v, ViewOf(st, req.key, req.doc)) && Ready(st, req, pc) && FaultAllowed(faults, pc, fault)
    ensures var (next, pc') := Disturb(st, Advance(st, req, pc, pick), fault);
            Holding(pc') && Ready(next, req, pc') && stage(req, pc', v, ViewOf(next, req.key, req.doc))
  {
    var next := Advance(st, req, pc, pick);
    StepOwn(env, faults, stage, st, req, pc, pick, v);
    if Strikes(fault) {
      AllowedTolerated(faults, st, req, pc, pick, fault);
      var (at, w) := if fault.effect then (next.1, ViewOf(next.0, req.key, req.doc))
                     else (pc, ViewOf(st, req.key, req.doc));
      StageInterrupted(faults, stage, req, at, v, w);
    } else {
      StageRetried(faults, stage, req, next.1, v, ViewOf(next.0, req.key, req.doc));
    }
  }

  lemma StageInterrupted(faults: Faults, stage: Stage, req: Request, pc: Pc, v: View, w: View)
    requires stage == StageOf(faults) && Holding(pc) && Tolerates(faults, pc) && stage(req, pc, v, w)
    ensures stage(req, Releasing(Raised(StoreFailure)), v, w) && stage(req, Releasing(Died), v, w)
  {
    Interruption(faults, req, pc, v, w);
  }

  lemma StageRetried(faults: Faults, stage: Stage, req: Request, pc: Pc, v: View, w: View)
    requires stage == StageOf(faults) && stage(req, pc, v, w)
    ensures pc.Marking? ==> stage(req, pc.(count := 0), v, w)
  {}

  lemma StageFirst(faults: Faults, req: Request, v: View)
    ensures StageOf(faults)(req, FirstPc(req), v, v)
  {}

  lemma WorkKeepsInv(env: Env, faults: Faults, stage: Stage, owner: string -> BotKey, st0: Stores, s: State, a: Action)
    requires stage == StageOf(faults)
    requires CollisionFree(env) && Inv(env, stage, owner, st0, s) && a.Work? && Enabled(env, faults, s, a)
    ensures Inv(env, stage, owner, st0, Next(env, s, a))
  {
    var p := s.procs[a.pid];
    assert Working(env, stage, owner, st0, s, a.pid) && Admitted(env, owner, p);
    var (st', pc') := Disturb(s.st, Advance(s.st, p.req, p.pc, a.pick), a.fault);
    StepKeyed(env, s.st, p.req, p.pc, a.pick);
    StageStep(env, faults, stage, s.st, p.req, p.pc, a.pick, a.fault, p.entry);
    StepHidden(env, s.st, p.req, p.pc, a.pick, a.fault);
    DisturbKeyed(env, s.st, Advance(s.st, p.req, p.pc, a.pick), a.fault);
    MoveKeepsInv(env, stage, owner, st0, s, a.pid, st', pc');
  }

  lemma DisturbKeyed(env: Env, st: Stores, next: (Stores, Pc), fault: Fault)
    requires AllKeyed(env, st) && AllKeyed(env, next.0) && st.collections.Keys <= next.0.collections.Keys
    ensures AllKeyed(env, Disturb(st, next, fault).0)
    ensures st.collections.Keys <= Disturb(st, next, fault).0.collections.Keys
  {}

  /** A holder moves on: whatever it did to the stores is invisible elsewhere and is a stage of its own request. */
  lemma MoveKeepsInv(
    env: Env, stage: Stage, owner: string -> BotKey, st0: Stores, s: State, pid: nat, st': Stores, pc': Pc)
    requires Inv(env, stage, owner, st0, s) && pid in s.procs && Holding(s.procs[pid].pc) && Holding(pc')
    requires AllKeyed(env, st') && s.st.collections.Keys <= st'.collections.Keys
    requires forall k, e :: e != s.procs[pid].req.doc ==> ViewOf(st', k, e) == ViewOf(s.st, k, e)
    requires var p := s.procs[pid];
             stage(p.req, pc', p.entry, ViewOf(st', p.req.key, p.req.doc)) && Ready(st', p.req, pc')
    ensures Inv(env, stage, owner, st0, SetPc(s.(st := st'), pid, pc'))
  {
    var s' := SetPc(s.(st := st'), pid, pc');
    var doc := s.procs[pid].req.doc;
    assert Working(env, stage, owner, st0, s, pid) && Settled(stage, owner, st0, s, doc);
    assert Occupied(s', doc) by {
      assert Holding(s'.procs[pid].pc);
    }
    ActionKeepsInv(env, stage, owner, st0, s, s', pid);
  }

  lemma OccupiedHasLock(env: Env, stage: Stage, owner: string -> BotKey, st0: Stores, s: State, req: Request)
    requires Inv(env, stage, owner, st0, s) && Occupied(s, req.doc) && owner(req.doc) == req.key
    ensures KeyOf(env, req).Success? && KeyOf(env, req).value in s.locks
  {
    var q :| q in s.procs && Holding(s.procs[q].pc) && s.procs[q].req.doc == req.doc;
    assert Working(env, stage, owner, st0, s, q) && Admitted(env, owner, s.procs[q]);
  }

  lemma AcquireKeepsInv(env: Env, faults: Faults, stage: Stage, owner: string -> BotKey, st0: Stores, s: State,
                        a: Action)
    requires stage == StageOf(faults)
    requires Inv(env, stage, owner, st0, s) && a.Acquire? && Enabled(env, faults, s, a)
    ensures Inv(env, stage, owner, st0, Next(env, s, a))
  {
    var p, s' := s.procs[a.pid], Next(env, s, a);
    assert Admitted(env, owner, p);
    assert Settled(stage, owner, st0, s, p.req.doc);
    if Occupied(s, p.req.doc) {
      OccupiedHasLock(env, stage, owner, st0, s, p.req);
    }
    assert Occupied(s', p.req.doc) by {
      assert Holding(s'.procs[a.pid].pc);
    }
    StageFirst(faults, p.req, ViewOf(s.st, p.req.key, p.req.doc));
    ActionKeepsInv(env, stage, owner, st0, s, s', a.pid);
  }

  /** Releasing appends one event to the document's history. */
  lemma CloseSettles(stage: Stage, env: Env, owner: string -> BotKey, st0: Stores, s: State, pid: nat)
    requires pid in s.procs && s.procs[pid].pc.Releasing? && Working(env, stage, owner, st0, s, pid)
    requires owner(s.procs[pid].req.doc) == s.procs[pid].req.key
    requires Settled(stage, owner, st0, s, s.procs[pid].req.doc)
    ensures Settled(stage, owner, st0, Close(env, s, pid), s.procs[pid].req.doc)
  {
    var doc, s' := s.procs[pid].req.doc, Close(env, s, pid);
    assert LogOf(s', doc)[..|LogOf(s, doc)|] == LogOf(s, doc);
  }

  lemma UnlockKeepsInv(env: Env, faults: Faults, stage: Stage, owner: string -> BotKey, st0: Stores, s: State,
                       a: Action)
    requires Inv(env, stage, owner, st0, s) && a.Unlock? && Enabled(env, faults, s, a)
    ensures Inv(env, stage, owner, st0, Next(env, s, a))
  {
    var p := s.procs[a.pid];
    assert Working(env, stage, owner, st0, s, a.pid) && Admitted(env, owner, p);
    assert Settled(stage, owner, st0, s, p.req.doc);
    CloseSettles(stage, env, owner, st0, s, a.pid);
    ActionKeepsInv(env, stage, owner, st0, s, Close(env, s, a.pid), a.pid);
  }

  lemma WaitingKeepsInv(env: Env, faults: Faults, stage: Stage, owner: string -> BotKey, st0: Stores, s: State,
                        a: Action)
    requires CollisionFree(env) && Inv(env, stage, owner, st0, s) && Enabled(env, faults, s, a)
    requires a.GiveUp? || (a.Start? && owner(a.req.doc) == a.req.key && WellFormed(env, a.req))
    ensures Inv(env, stage, owner, st0, Next(env, s, a))
  {
    if a.GiveUp? {
      assert Admitted(env, owner, s.procs[a.pid]);
    }
    BystanderKeepsInv(env, stage, owner, st0, s, Next(env, s, a), a.pid);
  }

  /** A process that holds no lock comes or goes. */
  lemma BystanderKeepsInv(env: Env, stage: Stage, owner: string -> BotKey, st0: Stores, s: State, s': State, pid: nat)
    requires Inv(env, stage, owner, st0, s) && s'.st == s.st && s'.log == s.log && s'.locks == s.locks
    requires pid in s'.procs && s'.procs == s.procs[pid := s'.procs[pid]]
    requires !Holding(s'.procs[pid].pc) && Admitted(env, owner, s'.procs[pid])
    requires pid in s.procs ==> !Holding(s.procs[pid].pc) && s.procs[pid].req == s'.procs[pid].req
    ensures Inv(env, stage, owner, st0, s')
  {
    var doc := s'.procs[pid].req.doc;
    assert Settled(stage, owner, st0, s, doc);
    if Occupied(s, doc) {
      var q :| q in s.procs && Holding(s.procs[q].pc) && s.procs[q].req.doc == doc;
      assert s'.procs[q] == s.procs[q];
    }
    ActionKeepsInv(env, stage, owner, st0, s, s', pid);
  }

  lemma GenuineWellFormed(env: Env, req: Request)
    requires CollisionFree(env) && Genuine(env, req)
    ensures WellFormed(env, req)
  {
    if req.Upload? {
      ContentIdentified(env, req.key, req.doc, req.content.body);
    }
  }

  /** The invariant holds in every state of every run, from any keyed stores, under any fault model. */
  lemma {:induction false} RunKeepsInv(
    env: Env, faults: Faults, owner: string -> BotKey, st0: Stores, actions: seq<Action>)
    requires CollisionFree(env) && AllKeyed(env, st0)
    requires Legal(env, faults, Begin(st0), actions) && OneBotPerDoc(owner, actions)
    ensures Inv(env, StageOf(faults), owner, st0, Run(env, Begin(st0), actions))
  {
    if actions != [] {
      var front, a := actions[..|actions| - 1], actions[|actions| - 1];
      var s, stage := Run(env, Begin(st0), front), StageOf(faults);
      assert a in actions;
      RunKeepsInv(env, faults, owner, st0, front);
      if a.Work? {
        WorkKeepsInv(env, faults, stage, owner, st0, s, a);
      } else if a.Acquire? {
        AcquireKeepsInv(env, faults, stage, owner, st0, s, a);
      } else if a.Unlock? {
        UnlockKeepsInv(env, faults, stage, owner, st0, s, a);
      } else {
        if a.Start? {
          GenuineWellFormed(env, a.req);
        }
        WaitingKeepsInv(env, faults, stage, owner, st0, s, a);
      }
    }
  }
}
