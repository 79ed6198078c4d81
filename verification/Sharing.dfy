/**
 * Documents that several bots request: as long as no two of them are between reading the row and saving it at once,
 * a row stays with its bot, and what each bot sees of a document has a serial history of its own.
 */
module Sharing {
  import opened Effects
  import opened Protocol
  import opened Stores

  // ---- clashes

  /** An upload that has read the row and not saved it yet. */
  predicate Engaged(req: Request, pc: Pc) {
    req.Upload? && (pc.Matching? || pc.Collecting? || pc.Chunking? || pc.Embedding? || pc.Clearing? || pc.Upserting?
                    || pc.Saving?)
  }

  /** Two bots at one document. */
  predicate Clash(p: Process, q: Process) {
    Engaged(p.req, p.pc) && Engaged(q.req, q.pc) && p.req.doc == q.req.doc && p.req.key != q.req.key
  }

  ghost predicate NoClash(s: State) { forall i, j :: i in s.procs && j in s.procs ==> !Clash(s.procs[i], s.procs[j]) }

  /** In no state of the run. */
  ghost predicate NeverClash(env: Env, s: State, actions: seq<Action>) {
    NoClash(Run(env, s, actions)) && (actions != [] ==> NeverClash(env, s, actions[..|actions| - 1]))
  }

  // ---- rows keep their bots

  /** The row that a request is at work on is its bot's, or an upload's yet to be. */
  predicate Claims(st: Stores, req: Request, pc: Pc) {
    && (Engaged(req, pc) && req.doc in st.rows ==> st.rows[req.doc].key == req.key)
    && (req.Delete? && (pc.Removing? || pc.Marking?) ==> req.doc in st.rows && st.rows[req.doc].key == req.key)
  }

  ghost predicate AllClaim(s: State) {
    forall pid :: pid in s.procs ==> Claims(s.st, s.procs[pid].req, s.procs[pid].pc)
  }

  /** Rows stay, and with their bots. */
  ghost predicate KeepsBots(st: Stores, next: Stores) {
    forall doc :: doc in st.rows ==> doc in next.rows && next.rows[doc].key == st.rows[doc].key
  }

  lemma StepKeepsBots(st: Stores, req: Request, pc: Pc, pick: string)
    requires Running(pc) && Claims(st, req, pc)
    ensures KeepsBots(st, Advance(st, req, pc, pick).0)
  {}

  lemma StepClaims(st: Stores, req: Request, pc: Pc, pick: string)
    requires Running(pc) && Claims(st, req, pc)
    ensures var (next, pc') := Advance(st, req, pc, pick); Claims(next, req, pc')
  {}

  /** A new row is the one just saved. */
  lemma StepNewRow(st: Stores, req: Request, pc: Pc, pick: string, doc: string)
    requires Running(pc) && doc !in st.rows && doc in Advance(st, req, pc, pick).0.rows
    ensures doc == req.doc && Engaged(req, pc) && Advance(st, req, pc, pick).0.rows[doc].key == req.key
  {}

  lemma OtherClaims(s: State, pid: nat, pick: string, q: nat)
    requires AllClaim(s) && NoClash(s) && pid in s.procs && Running(s.procs[pid].pc) && q in s.procs
    ensures Claims(Advance(s.st, s.procs[pid].req, s.procs[pid].pc, pick).0, s.procs[q].req, s.procs[q].pc)
  {
    var p, o := s.procs[pid], s.procs[q];
    var next := Advance(s.st, p.req, p.pc, pick).0;
    assert Claims(s.st, p.req, p.pc) && Claims(s.st, o.req, o.pc) && !Clash(p, o);
    StepKeepsBots(s.st, p.req, p.pc, pick);
    if o.req.doc !in s.st.rows && o.req.doc in next.rows {
      StepNewRow(s.st, p.req, p.pc, pick, o.req.doc);
    }
  }

  lemma WorkClaims(s: State, pid: nat, fault: Fault, pick: string)
    requires AllClaim(s) && NoClash(s) && pid in s.procs && Running(s.procs[pid].pc)
    ensures var p := s.procs[pid];
            var (st', pc') := Disturb(s.st, Advance(s.st, p.req, p.pc, pick), fault);
            AllClaim(SetPc(s.(st := st'), pid, pc')) && KeepsBots(s.st, st')
  {
    var p := s.procs[pid];
    var (next, pc') := Advance(s.st, p.req, p.pc, pick);
    assert Claims(s.st, p.req, p.pc);
    StepClaims(s.st, p.req, p.pc, pick);
    StepKeepsBots(s.st, p.req, p.pc, pick);
    forall q | q in s.procs
      ensures Claims(next, s.procs[q].req, s.procs[q].pc)
    {
      OtherClaims(s, pid, pick, q);
    }
    DisturbedClaims(s, pid, next, pc', fault);
  }

  lemma DisturbedClaims(s: State, pid: nat, next: Stores, pc': Pc, fault: Fault)
    requires AllClaim(s) && pid in s.procs && Claims(next, s.procs[pid].req, pc') && KeepsBots(s.st, next)
    requires forall q :: q in s.procs ==> Claims(next, s.procs[q].req, s.procs[q].pc)
    ensures var (st', at) := Disturb(s.st, (next, pc'), fault);
            AllClaim(SetPc(s.(st := st'), pid, at)) && KeepsBots(s.st, st')
  {}

  lemma NextClaims(env: Env, faults: Faults, s: State, a: Action)
    requires AllClaim(s) && NoClash(s) && Enabled(env, faults, s, a)
    ensures AllClaim(Next(env, s, a)) && KeepsBots(s.st, Next(env, s, a).st)
  {
    if a.Work? {
      WorkClaims(s, a.pid, a.fault, a.pick);
    }
  }

  lemma {:induction false} RunClaims(env: Env, faults: Faults, st0: Stores, actions: seq<Action>)
    requires Legal(env, faults, Begin(st0), actions) && NeverClash(env, Begin(st0), actions)
    ensures AllClaim(Run(env, Begin(st0), actions))
  {
    if actions != [] {
      var front := actions[..|actions| - 1];
      RunClaims(env, faults, st0, front);
      NextClaims(env, faults, Run(env, Begin(st0), front), actions[|actions| - 1]);
    }
  }

  /**
   * Arbitrary faults, any interleaving, any bots: as long as no two bots clash, no step takes a row away or gives it
   * to another bot.
   */
  lemma RowsKeepTheirBots(env: Env, faults: Faults, st0: Stores, actions: seq<Action>, a: Action)
    requires Legal(env, faults, Begin(st0), actions) && NeverClash(env, Begin(st0), actions)
    requires Enabled(env, faults, Run(env, Begin(st0), actions), a)
    ensures var s := Run(env, Begin(st0), actions); KeepsBots(s.st, Next(env, s, a).st)
  {
    RunClaims(env, faults, st0, actions);
    NextClaims(env, faults, Run(env, Begin(st0), actions), a);
  }
}
