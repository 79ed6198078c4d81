/**
 * One request after the other, each under any failures: what a pipeline call computes when nothing else is at
 * work, as the protocol's own steps taken to their end.
 */
module Serial {
  import opened Effects
  import opened Naming
  import opened Protocol
  import opened Stores

  /** What every call of one request runs into, and the database's choice of a first row. */
  datatype Luck = Luck(fault: Pc -> Fault, first: set<string> -> string)

  ghost predicate Chooses(luck: Luck) { forall docs :: docs != {} ==> luck.first(docs) in docs }

  ghost predicate Calm(luck: Luck) { forall pc :: !Strikes(luck.fault(pc)) }

  function Pick(st: Stores, req: Request, luck: Luck): string {
    if req.Upload? then luck.first(Duplicates(st, req.key, req.doc, req.content.hash)) else ""
  }

  function Step(st: Stores, req: Request, pc: Pc, luck: Luck): (Stores, Pc)
    requires Running(pc)
  {
    Disturb(st, Advance(st, req, pc, Pick(st, req, luck)), luck.fault(pc))
  }

  /** Program points in the order in which they come. */
  function Rank(pc: Pc): nat {
    match pc
    case Waiting => 14
    case AddingTenant => 13
    case AddingBot => 12
    case Looking => 11
    case Matching(_) => 10
    case Collecting(_) => 9
    case Chunking(_) => 8
    case Embedding(_) => 7
    case Clearing => 6
    case Upserting(_) => 5
    case Saving(_) => 4
    case Removing(_) => 3
    case Marking(_, _) => 2
    case Refreshing(_, _, _) => 2
    case Releasing(_) => 1
    case Finished(_) => 0
  }

  lemma StepRanks(st: Stores, req: Request, pc: Pc, luck: Luck)
    requires Running(pc)
    ensures Holding(Step(st, req, pc, luck).1) && Rank(Step(st, req, pc, luck).1) < Rank(pc)
  {}

  /** The steps from here to the release of the lock. */
  function Alone(st: Stores, req: Request, pc: Pc, luck: Luck): (Stores, Outcome)
    requires Holding(pc)
    decreases Rank(pc)
  {
    if pc.Releasing? then (st, pc.outcome)
    else
      StepRanks(st, req, pc, luck);
      var (next, pc') := Step(st, req, pc, luck);
      Alone(next, req, pc', luck)
  }

  /** A request that gets the lock. */
  function Perform(st: Stores, req: Request, luck: Luck): (Stores, Outcome) { Alone(st, req, FirstPc(req), luck) }

  /** A request that may find the names invalid or, as long as it polls, the lock held by another session. */
  function Serve(env: Env, st: Stores, held: set<(Int32, Int32)>, req: Request, luck: Luck): (Stores, Outcome) {
    match KeyOf(env, req)
    case Failure(_) => (st, Raised(InvalidName))
    case Success(lock) => if lock in held then (st, Raised(Busy)) else Perform(st, req, luck)
  }

  /** How the request ends when a call fails. */
  function Broken(fault: Fault): Outcome { if fault.Die? then Died else Raised(StoreFailure) }

  // ---- one step and the rest

  /** Where a call ends when it fails, and where the request goes on when it does not. */
  lemma UploadStep(st: Stores, req: Request, pc: Pc, luck: Luck)
    requires Running(pc) && req.Upload?
    ensures var (next, pc') := AdvanceUpload(st, req, pc, Pick(st, req, luck));
            Holding(pc') &&
            Alone(st, req, pc, luck) ==
              var f := luck.fault(pc);
              if Strikes(f) then (if f.effect then next else st, Broken(f)) else Alone(next, req, pc', luck)
  {
    StepRanks(st, req, pc, luck);
  }

  lemma DeleteStep(st: Stores, req: Request, pc: Pc, luck: Luck)
    requires Running(pc) && req.Delete?
    ensures var (next, pc') := AdvanceDelete(st, req, pc);
            Holding(pc') &&
            Alone(st, req, pc, luck) ==
              var f := luck.fault(pc);
              if Strikes(f) then (if f.effect then next else st, Broken(f))
              else Alone(next, req, if f.Retried? && pc'.Marking? then pc'.(count := 0) else pc', luck)
  {
    StepRanks(st, req, pc, luck);
  }

  // ---- a lone request is a run of the protocol

  ghost predicate Allowed(faults: Faults, luck: Luck) { forall pc :: FaultAllowed(faults, pc, luck.fault(pc)) }

  ghost predicate IsRun(env: Env, faults: Faults, st0: Stores, req: Request, actions: seq<Action>, s: State) {
    && Possible(env, faults, Begin(st0), actions) && Run(env, Begin(st0), actions) == s
    && forall a :: a in actions && a.Start? ==> a == Start(0, req)
  }

  lemma RunOn(env: Env, faults: Faults, st0: Stores, req: Request, actions: seq<Action>, s: State, a: Action)
    requires IsRun(env, faults, st0, req, actions, s) && Enabled(env, faults, s, a) && (a.Start? ==> a == Start(0, req))
    ensures IsRun(env, faults, st0, req, actions + [a], Next(env, s, a))
  {
    var more := actions + [a];
    assert more[..|actions|] == actions && more[|actions|] == a;
  }

  /** The state in which process 0 alone is at work. */
  function Solo(env: Env, st0: Stores, req: Request, st: Stores, pc: Pc): State
    requires KeyOf(env, req).Success?
  {
    State(st, map[KeyOf(env, req).value := 0], map[0 := Process(req, pc, ViewOf(st0, req.key, req.doc))], map[])
  }

  lemma WorkOn(env: Env, faults: Faults, st0: Stores, req: Request, st: Stores, pc: Pc, luck: Luck)
    requires KeyOf(env, req).Success? && Running(pc) && Allowed(faults, luck) && Chooses(luck)
    ensures var a := Work(0, luck.fault(pc), Pick(st, req, luck));
            var (next, pc') := Step(st, req, pc, luck);
            && Enabled(env, faults, Solo(env, st0, req, st, pc), a)
            && Next(env, Solo(env, st0, req, st, pc), a) == Solo(env, st0, req, next, pc')
  {}

  lemma {:induction false} AloneRuns(env: Env, faults: Faults, st0: Stores, req: Request, st: Stores, pc: Pc,
                                     luck: Luck,
                  actions: seq<Action>) returns (more: seq<Action>)
    requires KeyOf(env, req).Success? && Holding(pc) && Allowed(faults, luck) && Chooses(luck)
    requires IsRun(env, faults, st0, req, actions, Solo(env, st0, req, st, pc))
    ensures var (end, o) := Alone(st, req, pc, luck);
            IsRun(env, faults, st0, req, more, Solo(env, st0, req, end, Releasing(o)))
    decreases Rank(pc)
  {
    if pc.Releasing? {
      more := actions;
    } else {
      var a := Work(0, luck.fault(pc), Pick(st, req, luck));
      var (next, pc') := Step(st, req, pc, luck);
      StepRanks(st, req, pc, luck);
      WorkOn(env, faults, st0, req, st, pc, luck);
      RunOn(env, faults, st0, req, actions, Solo(env, st0, req, st, pc), a);
      more := AloneRuns(env, faults, st0, req, next, pc', luck, actions + [a]);
    }
  }

  /**
   * What Perform computes is what the protocol reaches when one process serves this one request; the run is a legal
   * one if the request is one that the service can make.
   */
  lemma PerformIsRun(env: Env, faults: Faults, st: Stores, req: Request, luck: Luck) returns (actions: seq<Action>)
    requires KeyOf(env, req).Success? && Allowed(faults, luck) && Chooses(luck)
    ensures var (end, o) := Perform(st, req, luck);
            && Possible(env, faults, Begin(st), actions)
            && Run(env, Begin(st), actions) == Finish(env, st, req, end, o)
    ensures forall a :: a in actions && a.Start? ==> a == Start(0, req)
    ensures Genuine(env, req) ==> Legal(env, faults, Begin(st), actions)
  {
    var start, acquire := Action.Start(0, req), Action.Acquire(0);
    assert IsRun(env, faults, st, req, [], Begin(st));
    RunOn(env, faults, st, req, [], Begin(st), start);
    var s := Next(env, Begin(st), start);
    RunOn(env, faults, st, req, [] + [start], s, acquire);
    assert Next(env, s, acquire) == Solo(env, st, req, st, FirstPc(req));
    actions := AloneRuns(env, faults, st, req, st, FirstPc(req), luck, [] + [start] + [acquire]);
    var (end, o) := Perform(st, req, luck);
    RunOn(env, faults, st, req, actions, Solo(env, st, req, end, Releasing(o)), Unlock(0));
    actions := actions + [Unlock(0)];
    CloseSolo(env, st, req, end, o);
    LegalIsPossible(env, faults, Begin(st), actions);
  }

  function Finish(env: Env, st: Stores, req: Request, end: Stores, o: Outcome): State {
    var before := ViewOf(st, req.key, req.doc);
    State(end, map[], map[0 := Process(req, Finished(o), before)],
          map[req.doc := [Event(req, o, before, ViewOf(end, req.key, req.doc))]])
  }

  lemma CloseSolo(env: Env, st: Stores, req: Request, end: Stores, o: Outcome)
    requires KeyOf(env, req).Success?
    ensures Next(env, Solo(env, st, req, end, Releasing(o)), Unlock(0)) == Finish(env, st, req, end, o)
  {
    var key := KeyOf(env, req).value;
    var s := Solo(env, st, req, end, Releasing(o));
    assert s.locks - {key} == map[];
    assert LogOf(s, req.doc) == [];
    assert Close(env, s, 0).log[req.doc] == Finish(env, st, req, end, o).log[req.doc];
    assert Close(env, s, 0).procs == Finish(env, st, req, end, o).procs;
  }
}
