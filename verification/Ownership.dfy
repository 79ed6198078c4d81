/**
 * What holds under arbitrary faults and interleavings with no assumption on who requests which document:
 * a collection belongs to one bot, rows keep their shape, rows never disappear.
 */
module Ownership {
  import opened Effects
  import opened Protocol
  import opened Stores

  predicate Registered(st: Stores, key: BotKey) { key.Name() in st.bots && st.bots[key.Name()] == key }

  /** The rows the pipelines write: active with 1 to 5000 chunks, or deleted with none. */
  predicate RowShape(row: Row) {
    || (row.status == Active && 1 <= row.chunkCount <= MAX_CHUNKS_PER_DOC)
    || (row.status == Deleted && row.chunkCount == 0)
  }

  ghost predicate RowsOwned(st: Stores) {
    forall doc :: doc in st.rows ==> Registered(st, st.rows[doc].key) && RowShape(st.rows[doc])
  }

  /** Every point of a collection carries the bot registered under the collection's name. */
  ghost predicate CollectionOwned(st: Stores, name: string) {
    name in st.collections ==>
      forall id :: id in st.collections[name] ==> name in st.bots && st.bots[name] == st.collections[name][id].key
  }

  ghost predicate Owned(st: Stores) { RowsOwned(st) && forall name :: CollectionOwned(st, name) }

  /** What an in-flight request may count on. */
  ghost predicate Entitled(st: Stores, req: Request, pc: Pc) {
    && (Running(pc) && !pc.AddingTenant? && !pc.AddingBot? && !(req.Delete? && pc.Looking?) ==> Registered(st, req.key))
    && (req.Upload? && (pc.Clearing? || pc.Upserting? || pc.Saving?) ==> Writable(req.content.points))
    && (pc.Removing? || pc.Marking? ==> req.doc in st.rows)
  }

  /** Bots stay registered and rows stay. */
  ghost predicate Grows(st: Stores, next: Stores) {
    && (forall name :: name in st.bots ==> name in next.bots && next.bots[name] == st.bots[name])
    && (forall doc :: doc in st.rows ==> doc in next.rows)
  }

  lemma EntitledGrows(st: Stores, next: Stores, req: Request, pc: Pc)
    requires Entitled(st, req, pc) && Grows(st, next)
    ensures Entitled(next, req, pc)
  {}

  lemma UpsertOwned(env: Env, st: Stores, req: Request)
    requires req.Upload? && WellFormed(env, req) && Owned(st) && Registered(st, req.key)
    requires req.key.Name() in st.collections
    ensures Owned(UpsertInto(st, req.key.Name(), req.content.points))
  {
    var own, points := req.key.Name(), req.content.points;
    var next := UpsertInto(st, own, points);
    forall name
      ensures CollectionOwned(next, name)
    {
      assert CollectionOwned(st, name);
      if name == own {
        forall id | id in next.collections[own]
          ensures st.bots[own] == next.collections[own][id].key
        {
          UpsertSource(st.collections[own], points, id);
        }
      }
    }
    assert RowsOwned(next);
  }

  lemma ClearOwned(st: Stores, name: string, doc: string)
    requires Owned(st)
    ensures Owned(ClearDoc(st, name, doc))
  {
    var next := ClearDoc(st, name, doc);
    forall n
      ensures CollectionOwned(next, n)
    {
      assert CollectionOwned(st, n);
    }
    assert RowsOwned(next);
  }

  /** Calls that leave all points where they are. */
  lemma RowsChangeOwned(st: Stores, next: Stores)
    requires Owned(st) && RowsOwned(next) && Grows(st, next)
    requires forall name :: name in next.collections ==> next.collections[name] == Held(st, name)
    ensures Owned(next)
  {
    forall name
      ensures CollectionOwned(next, name)
    {
      assert CollectionOwned(st, name);
    }
  }

  lemma StepGrows(st: Stores, req: Request, pc: Pc, pick: string)
    requires Running(pc) && Entitled(st, req, pc)
    ensures Grows(st, Advance(st, req, pc, pick).0)
  {}

  lemma StepEntitles(st: Stores, req: Request, pc: Pc, pick: string)
    requires Running(pc) && RowsOwned(st) && Entitled(st, req, pc)
    ensures var (next, pc') := Advance(st, req, pc, pick); Entitled(next, req, pc')
  {
    if req.doc in st.rows {
      assert Registered(st, st.rows[req.doc].key);
    }
  }

  lemma StepRows(st: Stores, req: Request, pc: Pc, pick: string)
    requires Running(pc) && RowsOwned(st) && Entitled(st, req, pc)
    ensures RowsOwned(Advance(st, req, pc, pick).0)
  {
    StepGrows(st, req, pc, pick);
  }

  /** A step touches no collection but its bot's, and that one only where it clears or upserts. */
  lemma StepCollections(st: Stores, req: Request, pc: Pc, pick: string, name: string)
    requires Running(pc)
    ensures var next := Advance(st, req, pc, pick).0;
            Held(next, name) ==
              if name != req.key.Name() then Held(st, name)
              else if (req.Upload? && pc.Clearing?) || (req.Delete? && pc.Removing?) then
                Without(Held(st, name), req.doc)
              else if req.Upload? && pc.Upserting? && name in st.collections then
                Upsert(Held(st, name), req.content.points)
              else Held(st, name)
  {
    assert name !in st.collections ==> Without(Held(st, name), req.doc) == Held(st, name);
  }

  lemma UpsertStep(st: Stores, req: Request, pc: Pc, pick: string)
    requires req.Upload? && pc.Upserting? && req.key.Name() in st.collections
    ensures Advance(st, req, pc, pick).0 == UpsertInto(st, req.key.Name(), req.content.points)
  {}

  lemma StepOwned(env: Env, st: Stores, req: Request, pc: Pc, pick: string)
    requires WellFormed(env, req) && Running(pc) && Owned(st) && Entitled(st, req, pc)
    ensures Owned(Advance(st, req, pc, pick).0)
  {
    var next := Advance(st, req, pc, pick).0;
    StepRows(st, req, pc, pick);
    if req.Upload? && pc.Upserting? && req.key.Name() in st.collections {
      UpsertOwned(env, st, req);
      UpsertStep(st, req, pc, pick);
    } else if (req.Upload? && pc.Clearing?) || (req.Delete? && pc.Removing?) {
      ClearOwned(st, req.key.Name(), req.doc);
      assert next == ClearDoc(st, req.key.Name(), req.doc);
    } else {
      StepGrows(st, req, pc, pick);
      StepKeepsPoints(st, req, pc, pick);
      RowsChangeOwned(st, next);
    }
  }

  lemma StepKeepsPoints(st: Stores, req: Request, pc: Pc, pick: string)
    requires Running(pc) && !(req.Upload? && ((pc.Upserting? && req.key.Name() in st.collections) || pc.Clearing?))
    requires !(req.Delete? && pc.Removing?)
    ensures var next := Advance(st, req, pc, pick).0;
            forall name :: name in next.collections ==> next.collections[name] == Held(st, name)
  {
    var next := Advance(st, req, pc, pick).0;
    forall name | name in next.collections
      ensures next.collections[name] == Held(st, name)
    {
      StepCollections(st, req, pc, pick, name);
    }
  }

  ghost predicate OwnedState(env: Env, s: State) {
    && Owned(s.st)
    && forall pid :: pid in s.procs ==> Welcome(env, s.st, s.procs[pid])
  }

  ghost predicate Welcome(env: Env, st: Stores, p: Process) { WellFormed(env, p.req) && Entitled(st, p.req, p.pc) }

  lemma WorkOwned(env: Env, s: State, pid: nat, fault: Fault, pick: string)
    requires OwnedState(env, s) && pid in s.procs && Running(s.procs[pid].pc)
    ensures var p := s.procs[pid];
            var (st', pc') := Disturb(s.st, Advance(s.st, p.req, p.pc, pick), fault);
            Owned(st') && Grows(s.st, st') && Entitled(st', p.req, pc')
  {
    var p := s.procs[pid];
    assert Welcome(env, s.st, p);
    StepOwned(env, s.st, p.req, p.pc, pick);
    StepGrows(s.st, p.req, p.pc, pick);
    StepEntitles(s.st, p.req, p.pc, pick);
  }

  lemma NextOwned(env: Env, s: State, a: Action)
    requires OwnedState(env, s) && Enabled(env, Arbitrary, s, a) && (a.Start? ==> WellFormed(env, a.req))
    ensures OwnedState(env, Next(env, s, a)) && Grows(s.st, Next(env, s, a).st)
  {
    var s' := Next(env, s, a);
    match a
    case Start(pid, req) =>
    case Work(pid, fault, pick) =>
      WorkOwned(env, s, pid, fault, pick);
      MoveWelcome(env, s, s', pid);
    case Acquire(pid) => MoveWelcome(env, s, s', pid);
    case GiveUp(pid) => MoveWelcome(env, s, s', pid);
    case Unlock(pid) => MoveWelcome(env, s, s', pid);
  }

  lemma MoveWelcome(env: Env, s: State, s': State, pid: nat)
    requires OwnedState(env, s) && Owned(s'.st) && Grows(s.st, s'.st)
    requires pid in s.procs && pid in s'.procs && s'.procs == s.procs[pid := s'.procs[pid]]
    requires s'.procs[pid].req == s.procs[pid].req && Entitled(s'.st, s'.procs[pid].req, s'.procs[pid].pc)
    ensures OwnedState(env, s')
  {
    assert Welcome(env, s.st, s.procs[pid]);
    forall other | other in s'.procs
      ensures Welcome(env, s'.st, s'.procs[other])
    {
      if other != pid {
        assert Welcome(env, s.st, s.procs[other]);
        EntitledGrows(s.st, s'.st, s.procs[other].req, s.procs[other].pc);
      }
    }
  }

  /** The invariant of every run, from any owned stores. */
  lemma {:induction false} RunOwned(env: Env, st0: Stores, actions: seq<Action>)
    requires CollisionFree(env) && Owned(st0) && Legal(env, Arbitrary, Begin(st0), actions)
    ensures OwnedState(env, Run(env, Begin(st0), actions))
  {
    if actions != [] {
      var front, a := actions[..|actions| - 1], actions[|actions| - 1];
      RunOwned(env, st0, front);
      if a.Start? {
        GenuineWellFormed(env, a.req);
      }
      NextOwned(env, Run(env, Begin(st0), front), a);
    }
  }

  /**
   * Exclusive ownership, arbitrary faults, any interleaving: in every reachable state any two points of one
   * collection carry the same tenant and bot, although the collection name alone does not identify them.
   */
  lemma {:induction false} CollectionsExclusive(env: Env, st0: Stores, actions: seq<Action>, name: string,
                                                id: PointId, id': PointId)
    requires CollisionFree(env) && Owned(st0) && Legal(env, Arbitrary, Begin(st0), actions)
    requires var c := Held(Run(env, Begin(st0), actions).st, name); id in c && id' in c
    ensures var c := Held(Run(env, Begin(st0), actions).st, name); c[id].key == c[id'].key
  {
    RunOwned(env, st0, actions);
    assert CollectionOwned(Run(env, Begin(st0), actions).st, name);
  }

  /** A step adds, changes or removes only points of its own bot. */
  lemma StepsStayHome(env: Env, st0: Stores, actions: seq<Action>, a: Action, name: string, id: PointId)
    requires CollisionFree(env) && Owned(st0) && Legal(env, Arbitrary, Begin(st0), actions)
    requires Enabled(env, Arbitrary, Run(env, Begin(st0), actions), a)
    ensures var s := Run(env, Begin(st0), actions);
            var c, c' := Held(s.st, name), Held(Next(env, s, a).st, name);
            (id in c) != (id in c') || (id in c && c[id] != c'[id]) ==>
              && a.Work?
              && (id in c ==> c[id].key == s.procs[a.pid].req.key)
              && (id in c' ==> c'[id].key == s.procs[a.pid].req.key)
  {
    var s := Run(env, Begin(st0), actions);
    RunOwned(env, st0, actions);
    if a.Work? {
      WorkStaysHome(env, s, a, name, id);
    }
  }

  lemma WorkStaysHome(env: Env, s: State, a: Action, name: string, id: PointId)
    requires OwnedState(env, s) && a.Work? && Enabled(env, Arbitrary, s, a)
    ensures var c, c' := Held(s.st, name), Held(Next(env, s, a).st, name);
            (id in c) != (id in c') || (id in c && c[id] != c'[id]) ==>
              && (id in c ==> c[id].key == s.procs[a.pid].req.key)
              && (id in c' ==> c'[id].key == s.procs[a.pid].req.key)
  {
    var p := s.procs[a.pid];
    assert Welcome(env, s.st, p);
    StepStaysHome(env, s.st, p.req, p.pc, a.pick, name, id);
    var next := Disturb(s.st, Advance(s.st, p.req, p.pc, a.pick), a.fault);
    assert Next(env, s, a).st == next.0;
  }

  lemma StepStaysHome(env: Env, st: Stores, req: Request, pc: Pc, pick: string, name: string, id: PointId)
    requires WellFormed(env, req) && Running(pc) && Owned(st) && Entitled(st, req, pc)
    ensures var c, c' := Held(st, name), Held(Advance(st, req, pc, pick).0, name);
            (id in c) != (id in c') || (id in c && c[id] != c'[id]) ==>
              (id in c ==> c[id].key == req.key) && (id in c' ==> c'[id].key == req.key)
  {
    StepCollections(st, req, pc, pick, name);
    StepOwned(env, st, req, pc, pick);
    StepGrows(st, req, pc, pick);
    assert CollectionOwned(st, name) && CollectionOwned(Advance(st, req, pc, pick).0, name);
  }

  /** Row state machine, arbitrary faults, any interleaving: every row keeps its shape, and no row disappears. */
  lemma {:induction false} RowsKeepShape(env: Env, st0: Stores, actions: seq<Action>, a: Action, doc: string)
    requires CollisionFree(env) && Owned(st0) && Legal(env, Arbitrary, Begin(st0), actions)
    requires Enabled(env, Arbitrary, Run(env, Begin(st0), actions), a)
    requires doc in Run(env, Begin(st0), actions).st.rows
    ensures var next := Next(env, Run(env, Begin(st0), actions), a).st;
            doc in next.rows && RowShape(Run(env, Begin(st0), actions).st.rows[doc]) && RowShape(next.rows[doc])
  {
    RunOwned(env, st0, actions);
    if !a.Start? {
      NextOwned(env, Run(env, Begin(st0), actions), a);
    }
  }
}
