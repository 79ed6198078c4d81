/**
 * What one bot sees of a document that other bots request too: its own row and its own points. Without clashes that
 * view has a serial history, and the two stores agree on it.
 */
module OwnHistory {
  import opened Effects
  import opened Guarantees
  import opened Ownership
  import opened Protocol
  import opened Results
  import opened Sharing
  import opened Stores
  import opened Versions

  /** A row of another bot is none of this bot's. */
  function Own(v: View, key: BotKey): View {
    if v.row.Some? && v.row.value.key != key then v.(row := None) else v
  }

  function OwnView(st: Stores, key: BotKey, doc: string): View { Own(ViewOf(st, key, doc), key) }

  /** A request as its bot sees it: a collision is with a row that is not its own. */
  ghost predicate OwnStage(stage: Stage, req: Request, pc: Pc, v: View, w: View) {
    stage(req, pc, v, w) || (req.Upload? && pc == Releasing(Raised(Collision)) && w == v)
  }

  // ---- one step

  lemma OwnIsView(st: Stores, key: BotKey, doc: string)
    requires doc in st.rows ==> st.rows[doc].key == key
    ensures OwnView(st, key, doc) == ViewOf(st, key, doc)
  {}

  /** A row stays this bot's or no bot's after a step of the bot. */
  lemma StepStaysOwn(st: Stores, req: Request, pc: Pc, pick: string)
    requires Running(pc) && Claims(st, req, pc) && (req.doc in st.rows ==> st.rows[req.doc].key == req.key)
    ensures var next := Advance(st, req, pc, pick).0; req.doc in next.rows ==> next.rows[req.doc].key == req.key
  {
    if req.doc in st.rows {
      StepKeepsBots(st, req, pc, pick);
    } else if req.doc in Advance(st, req, pc, pick).0.rows {
      StepNewRow(st, req, pc, pick, req.doc);
    }
  }

  lemma MineStep(env: Env, faults: Faults, stage: Stage, st: Stores, req: Request, pc: Pc, pick: string, fault: Fault,
                 v: View)
    requires stage == StageOf(faults)
    requires CollisionFree(env) && AllKeyed(env, st) && WellFormed(env, req) && Running(pc) && Ready(st, req, pc)
    requires FaultAllowed(faults, pc, fault) && Claims(st, req, pc)
    requires req.doc in st.rows ==> st.rows[req.doc].key == req.key
    requires stage(req, pc, v, OwnView(st, req.key, req.doc))
    ensures var (next, pc') := Disturb(st, Advance(st, req, pc, pick), fault);
            Holding(pc') && Ready(next, req, pc') && stage(req, pc', v, OwnView(next, req.key, req.doc))
  {
    var (next, pc') := Disturb(st, Advance(st, req, pc, pick), fault);
    OwnIsView(st, req.key, req.doc);
    StageStep(env, faults, stage, st, req, pc, pick, fault, v);
    StepStaysOwn(st, req, pc, pick);
    OwnIsView(next, req.key, req.doc);
  }

  /** Before the row is read, and at the refresh of another document. */
  predicate Silent(req: Request, pc: Pc) {
    pc.Looking? || (req.Upload? && (pc.AddingTenant? || pc.AddingBot? || pc.Refreshing?))
  }

  lemma SilentView(st: Stores, req: Request, pc: Pc, pick: string)
    requires Running(pc) && Silent(req, pc)
    ensures ViewOf(Advance(st, req, pc, pick).0, req.key, req.doc) == ViewOf(st, req.key, req.doc)
  {
    SilentCalls(st, req.key, if pc.Refreshing? then pc.doc else "", req.key.Name(), req.key, req.doc);
  }

  lemma SilentStage(faults: Faults, stage: Stage, st: Stores, req: Request, pc: Pc, pick: string, v: View, w: View)
    requires stage == StageOf(faults) && Running(pc) && Silent(req, pc) && stage(req, pc, v, w)
    requires req.doc in st.rows && st.rows[req.doc].key != req.key && w.row.None?
    ensures var (next, pc') := Advance(st, req, pc, pick);
            Holding(pc') && Ready(next, req, pc') && !pc'.Marking? && OwnStage(stage, req, pc', v, w)
  {}

  lemma StaysSilent(faults: Faults, stage: Stage, st: Stores, req: Request, pc: Pc, v: View, w: View)
    requires stage == StageOf(faults) && Running(pc) && stage(req, pc, v, w) && Claims(st, req, pc)
    requires req.doc in st.rows && st.rows[req.doc].key != req.key
    ensures Silent(req, pc)
  {
    if req.Delete? {
      OnDeletesWay(faults, stage, req, pc, v, w);
    } else {
      OnUploadsWay(faults, stage, req, pc, v, w);
    }
  }

  /** With a row of another bot in the way, a request has only silent steps left, and the refusal. */
  lemma ForeignRowStep(faults: Faults, stage: Stage, st: Stores, req: Request, pc: Pc, pick: string, v: View)
    requires stage == StageOf(faults) && Running(pc) && Claims(st, req, pc)
    requires req.doc in st.rows && st.rows[req.doc].key != req.key
    requires stage(req, pc, v, OwnView(st, req.key, req.doc))
    ensures var (next, pc') := Advance(st, req, pc, pick);
            && Holding(pc') && Ready(next, req, pc') && !pc'.Marking?
            && OwnStage(stage, req, pc', v, OwnView(next, req.key, req.doc))
            && OwnView(next, req.key, req.doc) == OwnView(st, req.key, req.doc)
  {
    var w := OwnView(st, req.key, req.doc);
    StaysSilent(faults, stage, st, req, pc, v, w);
    SilentView(st, req, pc, pick);
    SilentStage(faults, stage, st, req, pc, pick, v, w);
  }

  /** A silent process that is disturbed leaves its document as it found it. */
  lemma SilentInterrupted(faults: Faults, stage: Stage, req: Request, pc: Pc, v: View, w: View)
    requires stage == StageOf(faults) && Silent(req, pc) && stage(req, pc, v, w)
    ensures stage(req, Releasing(Raised(StoreFailure)), v, w) && stage(req, Releasing(Died), v, w)
  {}

  lemma ForeignRowDisturbed(faults: Faults, stage: Stage, st: Stores, req: Request, pc: Pc, pick: string, fault: Fault,
                            v: View)
    requires stage == StageOf(faults) && Running(pc) && Claims(st, req, pc)
    requires req.doc in st.rows && st.rows[req.doc].key != req.key
    requires stage(req, pc, v, OwnView(st, req.key, req.doc))
    ensures var (next, pc') := Disturb(st, Advance(st, req, pc, pick), fault);
            Holding(pc') && Ready(next, req, pc') && OwnStage(stage, req, pc', v, OwnView(next, req.key, req.doc))
  {
    ForeignRowStep(faults, stage, st, req, pc, pick, v);
    if Strikes(fault) {
      var w := OwnView(st, req.key, req.doc);
      StaysSilent(faults, stage, st, req, pc, v, w);
      SilentInterrupted(faults, stage, req, pc, v, w);
    }
  }

  /** A step takes its bot's view of its document one stage further, whoever owns the row. */
  lemma OwnStep(env: Env, faults: Faults, stage: Stage, st: Stores, req: Request, pc: Pc, pick: string, fault: Fault,
                v: View)
    requires stage == StageOf(faults)
    requires CollisionFree(env) && AllKeyed(env, st) && WellFormed(env, req) && Running(pc) && Ready(st, req, pc)
    requires FaultAllowed(faults, pc, fault) && Claims(st, req, pc)
    requires stage(req, pc, v, OwnView(st, req.key, req.doc))
    ensures var (next, pc') := Disturb(st, Advance(st, req, pc, pick), fault);
            Holding(pc') && Ready(next, req, pc') && OwnStage(stage, req, pc', v, OwnView(next, req.key, req.doc))
  {
    if req.doc in st.rows && st.rows[req.doc].key != req.key {
      ForeignRowDisturbed(faults, stage, st, req, pc, pick, fault, v);
    } else {
      MineStep(env, faults, stage, st, req, pc, pick, fault, v);
    }
  }

  /** Another request's step is invisible, be it of this bot or, at the same document, of another one. */
  lemma ForeignOwn(env: Env, st: Stores, req: Request, pc: Pc, pick: string, key: BotKey, doc: string)
    requires CollisionFree(env) && AllKeyed(env, st) && WellFormed(env, req) && Running(pc) && Entitled(st, req, pc)
    requires Claims(st, req, pc) && NameFree(st, key) && (req.key != key || req.doc != doc)
    ensures OwnView(Advance(st, req, pc, pick).0, key, doc) == OwnView(st, key, doc)
  {
    ForeignStep(env, st, req, pc, pick, key, doc);
    if req.doc != doc {
      StepElsewhere(env, st, req, pc, pick, key, doc);
    } else {
      ForeignRow(st, req, pc, pick, key);
    }
  }

  lemma ForeignRow(st: Stores, req: Request, pc: Pc, pick: string, key: BotKey)
    requires Running(pc) && Claims(st, req, pc) && req.key != key
    ensures var next := Advance(st, req, pc, pick).0;
            Own(View(RowOf(next, req.doc), map[]), key) == Own(View(RowOf(st, req.doc), map[]), key)
  {}

  // ---- the history of one bot's view of one document

  /** The bot's critical sections, as it sees them. */
  function OwnLog(log: seq<Event>, key: BotKey): seq<Event> {
    if log == [] then []
    else
      var front, e := log[..|log| - 1], log[|log| - 1];
      OwnLog(front, key)
      + if e.req.key == key then [e.(before := Own(e.before, key), after := Own(e.after, key))] else []
  }

  function OwnPast(st0: Stores, s: State, key: BotKey, doc: string): View {
    LastView(OwnView(st0, key, doc), OwnLog(LogOf(s, doc), key))
  }

  ghost predicate OwnSerial(stage: Stage, start: View, log: seq<Event>) {
    log == [] ||
    var front, last := log[..|log| - 1], log[|log| - 1];
    && OwnSerial(stage, start, front)
    && last.before == LastView(start, front)
    && OwnStage(stage, last.req, Releasing(last.outcome), last.before, last.after)
  }

  ghost predicate AtStage(stage: Stage, st: Stores, p: Process, past: View) {
    && Own(p.entry, p.req.key) == past && Ready(st, p.req, p.pc)
    && OwnStage(stage, p.req, p.pc, past, OwnView(st, p.req.key, p.req.doc))
  }

  ghost predicate OwnSettled(stage: Stage, st0: Stores, s: State, key: BotKey, doc: string) {
    && OwnSerial(stage, OwnView(st0, key, doc), OwnLog(LogOf(s, doc), key))
    && (forall pid :: AtWork(s, pid, key, doc) ==> AtStage(stage, s.st, s.procs[pid], OwnPast(st0, s, key, doc)))
    && ((forall pid :: !AtWork(s, pid, key, doc)) ==> OwnView(s.st, key, doc) == OwnPast(st0, s, key, doc))
  }

  /** As long as the bot can own its collection. */
  ghost predicate OwnKept(stage: Stage, st0: Stores, s: State, key: BotKey, doc: string) {
    NameFree(s.st, key) ==> OwnSettled(stage, st0, s, key, doc)
  }

  /** What the general invariants say of a state. */
  ghost predicate InOrder(env: Env, s: State) {
    CollisionFree(env) && AllKeyed(env, s.st) && OwnedState(env, s) && AllLocked(env, s) && AllClaim(s)
  }

  lemma ForeignDisturbedOwn(
    env: Env, st: Stores, req: Request, pc: Pc, pick: string, fault: Fault, key: BotKey, doc: string)
    requires CollisionFree(env) && AllKeyed(env, st) && WellFormed(env, req) && Running(pc) && Entitled(st, req, pc)
    requires Claims(st, req, pc) && (req.key != key || req.doc != doc)
    ensures var st' := Disturb(st, Advance(st, req, pc, pick), fault).0;
            && st.collections.Keys <= st'.collections.Keys
            && (NameFree(st', key) ==> NameFree(st, key) && OwnView(st', key, doc) == OwnView(st, key, doc))
  {
    StepGrows(st, req, pc, pick);
    StepKeyed(env, st, req, pc, pick);
    if NameFree(st, key) {
      ForeignOwn(env, st, req, pc, pick, key, doc);
    }
  }

  /** A step of another request leaves the history, the views and the processes at work as they are. */
  lemma MoverOwn(stage: Stage, st0: Stores, s: State, pid: nat, st': Stores, pc': Pc, key: BotKey, doc: string)
    requires pid in s.procs && Holding(s.procs[pid].pc) && !AtWork(s, pid, key, doc)
    requires OwnKept(stage, st0, s, key, doc) && s.st.collections.Keys <= st'.collections.Keys
    requires NameFree(st', key) ==> NameFree(s.st, key) && OwnView(st', key, doc) == OwnView(s.st, key, doc)
    ensures OwnKept(stage, st0, SetPc(s.(st := st'), pid, pc'), key, doc)
  {
    var s' := SetPc(s.(st := st'), pid, pc');
    assert forall q :: AtWork(s', q, key, doc) == AtWork(s, q, key, doc);
    if NameFree(st', key) {
      forall q | AtWork(s', q, key, doc)
        ensures AtStage(stage, st', s'.procs[q], OwnPast(st0, s', key, doc))
      {
        assert AtStage(stage, s.st, s.procs[q], OwnPast(st0, s, key, doc));
      }
    }
  }

  lemma WorkForeignOwn(env: Env, stage: Stage, st0: Stores, s: State, a: Action, key: BotKey, doc: string)
    requires InOrder(env, s) && a.Work? && a.pid in s.procs && Running(s.procs[a.pid].pc)
    requires !AtWork(s, a.pid, key, doc) && OwnKept(stage, st0, s, key, doc)
    ensures OwnKept(stage, st0, Next(env, s, a), key, doc)
  {
    var p := s.procs[a.pid];
    assert Welcome(env, s.st, p) && Claims(s.st, p.req, p.pc);
    ForeignDisturbedOwn(env, s.st, p.req, p.pc, a.pick, a.fault, key, doc);
    var (st', pc') := Disturb(s.st, Advance(s.st, p.req, p.pc, a.pick), a.fault);
    MoverOwn(stage, st0, s, a.pid, st', pc', key, doc);
  }

  lemma HolderOwn(stage: Stage, st0: Stores, s: State, pid: nat, st': Stores, pc': Pc, key: BotKey, doc: string)
    requires AtWork(s, pid, key, doc) && Holding(pc') && (NameFree(st', key) ==> NameFree(s.st, key))
    requires forall other :: AtWork(s, other, key, doc) ==> other == pid
    requires OwnKept(stage, st0, s, key, doc)
    requires NameFree(st', key) ==> AtStage(stage, st', s.procs[pid].(pc := pc'), OwnPast(st0, s, key, doc))
    ensures OwnKept(stage, st0, SetPc(s.(st := st'), pid, pc'), key, doc)
  {
    var s' := SetPc(s.(st := st'), pid, pc');
    assert AtWork(s', pid, key, doc);
    forall other | AtWork(s', other, key, doc)
      ensures other == pid
    {
      assert other != pid ==> AtWork(s, other, key, doc);
    }
  }

  lemma WorkOwnView(env: Env, faults: Faults, stage: Stage, st0: Stores, s: State, a: Action, key: BotKey, doc: string)
    requires stage == StageOf(faults) && InOrder(env, s) && a.Work? && Enabled(env, faults, s, a)
    requires AtWork(s, a.pid, key, doc) && OwnKept(stage, st0, s, key, doc)
    ensures OwnKept(stage, st0, Next(env, s, a), key, doc)
  {
    var p := s.procs[a.pid];
    var past := OwnPast(st0, s, key, doc);
    assert Welcome(env, s.st, p) && Claims(s.st, p.req, p.pc);
    AloneAtWork(env, s, a.pid, key, doc);
    StepGrows(s.st, p.req, p.pc, a.pick);
    HoldsOn(s.st, p.req, p.pc, a.pick);
    var (st', pc') := Disturb(s.st, Advance(s.st, p.req, p.pc, a.pick), a.fault);
    if NameFree(s.st, key) {
      assert AtStage(stage, s.st, p, past);
      OwnStep(env, faults, stage, s.st, p.req, p.pc, a.pick, a.fault, past);
    }
    HolderOwn(stage, st0, s, a.pid, st', pc', key, doc);
  }

  // ---- locks

  lemma OwnLogGrows(log: seq<Event>, e: Event, key: BotKey)
    ensures OwnLog(log + [e], key) ==
            OwnLog(log, key)
            + if e.req.key == key then [e.(before := Own(e.before, key), after := Own(e.after, key))] else []
  {
    assert (log + [e])[..|log|] == log;
  }

  lemma CloseOwn(env: Env, stage: Stage, st0: Stores, s: State, pid: nat, key: BotKey, doc: string)
    requires AllLocked(env, s) && AtWork(s, pid, key, doc) && s.procs[pid].pc.Releasing?
    requires OwnSettled(stage, st0, s, key, doc)
    ensures OwnSettled(stage, st0, Close(env, s, pid), key, doc)
  {
    var p, s' := s.procs[pid], Close(env, s, pid);
    var e := Event(p.req, p.pc.outcome, p.entry, ViewOf(s.st, key, doc));
    var log, own := LogOf(s, doc), OwnLog(LogOf(s, doc), key);
    AloneAtWork(env, s, pid, key, doc);
    assert AtStage(stage, s.st, p, OwnPast(st0, s, key, doc));
    OwnLogGrows(log, e, key);
    assert OwnLog(LogOf(s', doc), key)[..|own|] == own;
    assert forall q :: q != pid ==> AtWork(s', q, key, doc) == AtWork(s, q, key, doc);
  }

  lemma CloseElsewhere(env: Env, stage: Stage, st0: Stores, s: State, pid: nat, key: BotKey, doc: string)
    requires pid in s.procs && s.procs[pid].pc.Releasing? && !AtWork(s, pid, key, doc)
    requires OwnSettled(stage, st0, s, key, doc)
    ensures OwnSettled(stage, st0, Close(env, s, pid), key, doc)
  {
    var s' := Close(env, s, pid);
    CloseLog(env, s, pid, key, doc);
    assert forall q :: AtWork(s', q, key, doc) == AtWork(s, q, key, doc);
    assert forall q :: AtWork(s, q, key, doc) ==> s'.procs[q] == s.procs[q];
  }

  lemma CloseLog(env: Env, s: State, pid: nat, key: BotKey, doc: string)
    requires pid in s.procs && s.procs[pid].pc.Releasing? && !AtWork(s, pid, key, doc)
    ensures OwnLog(LogOf(Close(env, s, pid), doc), key) == OwnLog(LogOf(s, doc), key)
  {
    var p := s.procs[pid];
    var e := Event(p.req, p.pc.outcome, p.entry, ViewOf(s.st, p.req.key, p.req.doc));
    if p.req.doc == doc {
      OwnLogGrows(LogOf(s, doc), e, key);
      assert LogOf(Close(env, s, pid), doc) == LogOf(s, doc) + [e];
    }
  }

  lemma AcquireOwn(env: Env, faults: Faults, stage: Stage, st0: Stores, s: State, a: Action, key: BotKey, doc: string)
    requires stage == StageOf(faults) && AllLocked(env, s) && AllLocked(env, Next(env, s, a))
    requires a.Acquire? && Enabled(env, faults, s, a) && OwnSettled(stage, st0, s, key, doc)
    ensures OwnSettled(stage, st0, Next(env, s, a), key, doc)
  {
    var s', p := Next(env, s, a), s.procs[a.pid];
    assert forall q :: q != a.pid ==> AtWork(s', q, key, doc) == AtWork(s, q, key, doc);
    if AtWork(s', a.pid, key, doc) {
      AloneAtWork(env, s', a.pid, key, doc);
      assert forall q :: !AtWork(s, q, key, doc);
      StageFirst(faults, p.req, OwnView(s.st, key, doc));
    }
  }

  /** A process that waits, or gives up. */
  lemma WaitOwn(env: Env, faults: Faults, stage: Stage, st0: Stores, s: State, a: Action, key: BotKey, doc: string)
    requires (a.Start? || a.GiveUp?) && Enabled(env, faults, s, a) && OwnSettled(stage, st0, s, key, doc)
    ensures OwnSettled(stage, st0, Next(env, s, a), key, doc)
  {
    var s' := Next(env, s, a);
    assert forall q :: AtWork(s', q, key, doc) == AtWork(s, q, key, doc);
    assert forall q :: AtWork(s, q, key, doc) ==> s'.procs[q] == s.procs[q];
  }

  lemma NextOwnKept(env: Env, faults: Faults, stage: Stage, st0: Stores, s: State, a: Action, key: BotKey, doc: string)
    requires stage == StageOf(faults) && InOrder(env, s) && AllLocked(env, Next(env, s, a))
    requires Enabled(env, faults, s, a) && OwnKept(stage, st0, s, key, doc)
    ensures OwnKept(stage, st0, Next(env, s, a), key, doc)
  {
    if a.Work? {
      if AtWork(s, a.pid, key, doc) {
        WorkOwnView(env, faults, stage, st0, s, a, key, doc);
      } else {
        WorkForeignOwn(env, stage, st0, s, a, key, doc);
      }
    } else if NameFree(s.st, key) {
      if a.Acquire? {
        AcquireOwn(env, faults, stage, st0, s, a, key, doc);
      } else if a.Unlock? {
        if AtWork(s, a.pid, key, doc) {
          CloseOwn(env, stage, st0, s, a.pid, key, doc);
        } else {
          CloseElsewhere(env, stage, st0, s, a.pid, key, doc);
        }
      } else {
        WaitOwn(env, faults, stage, st0, s, a, key, doc);
      }
    }
  }

  /** A run without clashes, from stores that the pipelines could have left. */
  ghost predicate Peaceful(env: Env, faults: Faults, st0: Stores, actions: seq<Action>) {
    && CollisionFree(env) && AllKeyed(env, st0) && Owned(st0)
    && Legal(env, faults, Begin(st0), actions) && NeverClash(env, Begin(st0), actions)
  }

  lemma RunInOrder(env: Env, faults: Faults, st0: Stores, actions: seq<Action>)
    requires Peaceful(env, faults, st0, actions)
    ensures InOrder(env, Run(env, Begin(st0), actions))
  {
    RunKeyed(env, faults, st0, actions);
    LegalAnyFaults(env, faults, Begin(st0), actions);
    RunOwned(env, st0, actions);
    RunLocked(env, faults, st0, actions);
    RunClaims(env, faults, st0, actions);
  }

  lemma {:induction false} RunOwnKept(
    env: Env, faults: Faults, st0: Stores, actions: seq<Action>, key: BotKey, doc: string)
    requires Peaceful(env, faults, st0, actions)
    ensures OwnKept(StageOf(faults), st0, Run(env, Begin(st0), actions), key, doc)
  {
    if actions != [] {
      var front, a := actions[..|actions| - 1], actions[|actions| - 1];
      var s := Run(env, Begin(st0), front);
      RunOwnKept(env, faults, st0, front, key, doc);
      RunInOrder(env, faults, st0, front);
      RunLocked(env, faults, st0, actions);
      NextOwnKept(env, faults, StageOf(faults), st0, s, a, key, doc);
    }
  }

  // ---- what follows

  ghost predicate OwnEffect(faults: Faults, req: Request, o: Outcome, v: View, w: View) {
    Effect(faults, req, o, v, w) || (req.Upload? && o == Raised(Collision) && w == v)
  }

  ghost predicate OwnSerialHistory(faults: Faults, start: View, log: seq<Event>) {
    log == [] ||
    var front, last := log[..|log| - 1], log[|log| - 1];
    && OwnSerialHistory(faults, start, front)
    && last.before == LastView(start, front)
    && OwnEffect(faults, last.req, last.outcome, last.before, last.after)
  }

  lemma {:induction false} OwnSerialIsHistory(faults: Faults, start: View, log: seq<Event>)
    requires OwnSerial(StageOf(faults), start, log)
    ensures OwnSerialHistory(faults, start, log)
  {
    if log != [] {
      OwnSerialIsHistory(faults, start, log[..|log| - 1]);
    }
  }

  /**
   * Serialization with any bots, under any faults, without clashes: what a registered bot sees of a document, its own
   * row and its own points, has a serial history made of its own critical sections; and whenever none of its
   * processes is at work there, it sees what that history left.
   */
  lemma OwnHistoryIsSerial(
    env: Env, faults: Faults, st0: Stores, actions: seq<Action>, key: BotKey, doc: string)
    requires Peaceful(env, faults, st0, actions) && Registered(Run(env, Begin(st0), actions).st, key)
    ensures var s, start := Run(env, Begin(st0), actions), OwnView(st0, key, doc);
            && OwnSerialHistory(faults, start, OwnLog(LogOf(s, doc), key))
            && ((forall pid :: !AtWork(s, pid, key, doc)) ==>
                  OwnView(s.st, key, doc) == LastView(start, OwnLog(LogOf(s, doc), key)))
  {
    var s := Run(env, Begin(st0), actions);
    RunOwnKept(env, faults, st0, actions, key, doc);
    OwnSerialIsHistory(faults, OwnView(st0, key, doc), OwnLog(LogOf(s, doc), key));
  }

  lemma {:induction false} OwnHistoryAgrees(env: Env, faults: Faults, start: View, log: seq<Event>)
    requires !faults.Arbitrary? && OwnSerialHistory(faults, start, log) && Agree(start)
    requires forall e :: e in log ==> WellFormed(env, e.req) && (e.req.Upload? ==> Storable(e.req.content))
    ensures Agree(LastView(start, log))
    ensures faults.Lossless? && AgreeFully(start) ==> AgreeFully(LastView(start, log))
  {
    if log != [] {
      var front, last := log[..|log| - 1], log[|log| - 1];
      OwnHistoryAgrees(env, faults, start, front);
      if last.outcome != Raised(Collision) {
        EffectAgrees(env, faults, last.req, last.outcome, last.before, last.after);
      }
    }
  }

  lemma {:induction false} OwnLogMember(log: seq<Event>, key: BotKey, e: Event) returns (l: Event)
    requires e in OwnLog(log, key)
    ensures l in log && l.req == e.req && l.req.key == key
  {
    var front, last := log[..|log| - 1], log[|log| - 1];
    if e in OwnLog(front, key) {
      l := OwnLogMember(front, key, e);
    } else {
      l := last;
    }
  }

  lemma OwnLogRequests(env: Env, faults: Faults, st0: Stores, actions: seq<Action>, key: BotKey, doc: string)
    requires CollisionFree(env) && Legal(env, faults, Begin(st0), actions) && StorableUploads(actions, key, doc)
    ensures forall e :: e in OwnLog(LogOf(Run(env, Begin(st0), actions), doc), key) ==>
              WellFormed(env, e.req) && (e.req.Upload? ==> Storable(e.req.content))
  {
    var s := Run(env, Begin(st0), actions);
    RunSane(env, faults, st0, actions);
    RunRequests(env, faults, Keepable(key, doc), st0, actions);
    RunLogDocs(env, faults, st0, actions);
    forall e | e in OwnLog(LogOf(s, doc), key)
      ensures WellFormed(env, e.req) && (e.req.Upload? ==> Storable(e.req.content))
    {
      var l := OwnLogMember(LogOf(s, doc), key, e);
      assert Sane(env)(l.req) && Keepable(key, doc)(l.req);
    }
  }

  /**
   * Two-store agreement with any bots, clean faults, any interleaving, without clashes: whenever none of a registered
   * bot's processes is at work on a document, its own row and its own points agree. No row, another bot's row, or a
   * deleted one means no points; an active one means none or exactly chunk_count points, all with its hash.
   */
  lemma AgreementAnyBots(env: Env, faults: Faults, st0: Stores, actions: seq<Action>, key: BotKey, doc: string)
    requires Peaceful(env, faults, st0, actions) && !faults.Arbitrary? && StorableUploads(actions, key, doc)
    requires Registered(Run(env, Begin(st0), actions).st, key) && Agree(OwnView(st0, key, doc))
    ensures var s := Run(env, Begin(st0), actions);
            (forall pid :: !AtWork(s, pid, key, doc)) ==>
              && Agree(OwnView(s.st, key, doc))
              && (faults.Lossless? && AgreeFully(OwnView(st0, key, doc)) ==> AgreeFully(OwnView(s.st, key, doc)))
  {
    var s := Run(env, Begin(st0), actions);
    OwnHistoryIsSerial(env, faults, st0, actions, key, doc);
    OwnLogRequests(env, faults, st0, actions, key, doc);
    OwnHistoryAgrees(env, faults, OwnView(st0, key, doc), OwnLog(LogOf(s, doc), key));
  }

  /** When every document is requested under one bot, nobody clashes. */
  lemma {:induction false} OneBotNeverClashes(
    env: Env, faults: Faults, owner: string -> BotKey, st0: Stores, actions: seq<Action>)
    requires Legal(env, faults, Begin(st0), actions) && OneBotPerDoc(owner, actions)
    ensures NeverClash(env, Begin(st0), actions)
  {
    var owned := (req: Request) => owner(req.doc) == req.key;
    var s := Run(env, Begin(st0), actions);
    RunRequests(env, faults, owned, st0, actions);
    forall i, j | i in s.procs && j in s.procs
      ensures !Clash(s.procs[i], s.procs[j])
    {
      assert owned(s.procs[i].req) && owned(s.procs[j].req);
    }
    if actions != [] {
      OneBotNeverClashes(env, faults, owner, st0, actions[..|actions| - 1]);
    }
  }
}
