/**
 * Deduplication in interleaved runs: when no two uploads of one content are at once between their content-match
 * query and their row save, no content is ever active twice.
 */
module Uniqueness {
  import opened Effects
  import opened Ownership
  import opened Protocol
  import opened Stores

  ghost predicate UniqueActive(st: Stores) {
    forall d, e :: d in st.rows && e in st.rows && SameContent(st.rows[d], st.rows[e]) ==> d == e
  }

  predicate SameContent(a: Row, b: Row) {
    a.status == Active && b.status == Active && a.key == b.key && a.hash == b.hash
  }

  /** Past the content-match query, and the row not saved yet. */
  predicate Deciding(req: Request, pc: Pc) {
    req.Upload? && (pc.Collecting? || pc.Chunking? || pc.Embedding? || pc.Clearing? || pc.Upserting? || pc.Saving?)
  }

  /** Two uploads of one bot and one content, under different documents, that may miss each other. */
  predicate Rivals(p: Process, q: Process) {
    && Deciding(p.req, p.pc) && Deciding(q.req, q.pc)
    && p.req.key == q.req.key && p.req.content.hash == q.req.content.hash && p.req.doc != q.req.doc
  }

  ghost predicate NoRivals(s: State) {
    forall i, j :: i in s.procs && j in s.procs ==> !Rivals(s.procs[i], s.procs[j])
  }

  /** In no state of the run. */
  ghost predicate NeverRivals(env: Env, s: State, actions: seq<Action>) {
    NoRivals(Run(env, s, actions)) && (actions != [] ==> NeverRivals(env, s, actions[..|actions| - 1]))
  }

  /** What the content-match query found still holds. */
  predicate Decided(st: Stores, req: Request, pc: Pc) {
    Deciding(req, pc) ==> Duplicates(st, req.key, req.doc, req.content.hash) == {}
  }

  ghost predicate UniqueState(s: State) {
    && RowsOwned(s.st) && UniqueActive(s.st)
    && forall pid :: pid in s.procs ==> Knows(s.st, s.procs[pid])
  }

  ghost predicate Knows(st: Stores, p: Process) { Entitled(st, p.req, p.pc) && Decided(st, p.req, p.pc) }

  /** A new active row joins no other of its content. */
  lemma SaveUnique(st: Stores, key: BotKey, doc: string, c: Content)
    requires RowsOwned(st) && UniqueActive(st) && Duplicates(st, key, doc, c.hash) == {}
    ensures UniqueActive(SaveRow(st, key, doc, c))
  {
    var next := SaveRow(st, key, doc, c);
    forall e | e in st.rows && e != doc
      ensures !SameContent(next.rows[doc], st.rows[e]) && !SameContent(st.rows[e], next.rows[doc])
    {
      assert RowShape(st.rows[e]);
      assert e !in Duplicates(st, key, doc, c.hash);
    }
  }

  lemma StepUnique(st: Stores, req: Request, pc: Pc, pick: string)
    requires Running(pc) && RowsOwned(st) && UniqueActive(st) && Decided(st, req, pc)
    ensures UniqueActive(Advance(st, req, pc, pick).0)
  {
    if req.Upload? && pc.Saving? {
      SaveUnique(st, req.key, req.doc, req.content);
    }
  }

  lemma StepDecides(st: Stores, req: Request, pc: Pc, pick: string)
    requires Running(pc) && Decided(st, req, pc) && PickAllowed(st, req, pc, pick)
    ensures var (next, pc') := Advance(st, req, pc, pick); Decided(next, req, pc')
  {}

  /** A step leaves another upload's finding true, unless it saves a row of the same content under a third document. */
  lemma StepLeavesDecided(st: Stores, req: Request, pc: Pc, pick: string, other: Request, at: Pc)
    requires Running(pc) && Decided(st, other, at) && Deciding(other, at)
    requires req.Upload? && pc.Saving? && req.key == other.key && req.content.hash == other.content.hash ==>
               req.doc == other.doc
    ensures Decided(Advance(st, req, pc, pick).0, other, at)
  {
    var next := Advance(st, req, pc, pick).0;
    forall e | e in next.rows && Duplicate(next, other.key, other.doc, other.content.hash, e)
      ensures e in Duplicates(st, other.key, other.doc, other.content.hash)
    {
      SaveOrOld(st, req, pc, pick, e);
    }
  }

  /** An active row is one from before, last_refreshed_at aside, or the one just saved. */
  lemma SaveOrOld(st: Stores, req: Request, pc: Pc, pick: string, e: string)
    requires Running(pc)
    ensures var next := Advance(st, req, pc, pick).0;
            e in next.rows && next.rows[e].status == Active ==>
              || (e in st.rows && next.rows[e].(refreshed := 0) == st.rows[e].(refreshed := 0))
              || (req.Upload? && pc.Saving? && e == req.doc && next.rows[e].key == req.key
                  && next.rows[e].hash == req.content.hash)
  {}

  lemma WorkUnique(s: State, pid: nat, fault: Fault, pick: string)
    requires UniqueState(s) && NoRivals(s) && pid in s.procs && Running(s.procs[pid].pc)
    requires PickAllowed(s.st, s.procs[pid].req, s.procs[pid].pc, pick)
    ensures var p := s.procs[pid];
            var (st', pc') := Disturb(s.st, Advance(s.st, p.req, p.pc, pick), fault);
            UniqueState(SetPc(s.(st := st'), pid, pc'))
  {
    var p := s.procs[pid];
    var (next, pc') := Advance(s.st, p.req, p.pc, pick);
    assert Knows(s.st, p);
    StepGrows(s.st, p.req, p.pc, pick);
    StepRows(s.st, p.req, p.pc, pick);
    StepEntitles(s.st, p.req, p.pc, pick);
    StepUnique(s.st, p.req, p.pc, pick);
    StepDecides(s.st, p.req, p.pc, pick);
    forall q | q in s.procs && q != pid
      ensures Knows(next, s.procs[q])
    {
      OtherKnows(s, pid, pick, q);
    }
    DisturbedUnique(s, pid, next, pc', fault);
  }

  lemma OtherKnows(s: State, pid: nat, pick: string, q: nat)
    requires UniqueState(s) && NoRivals(s) && pid in s.procs && Running(s.procs[pid].pc) && q in s.procs
    ensures Knows(Advance(s.st, s.procs[pid].req, s.procs[pid].pc, pick).0, s.procs[q])
  {
    var p, o := s.procs[pid], s.procs[q];
    assert Knows(s.st, o) && Knows(s.st, p) && !Rivals(p, o);
    StepGrows(s.st, p.req, p.pc, pick);
    EntitledGrows(s.st, Advance(s.st, p.req, p.pc, pick).0, o.req, o.pc);
    if Deciding(o.req, o.pc) {
      StepLeavesDecided(s.st, p.req, p.pc, pick, o.req, o.pc);
    }
  }

  lemma DisturbedUnique(s: State, pid: nat, next: Stores, pc': Pc, fault: Fault)
    requires UniqueState(s) && pid in s.procs
    requires RowsOwned(next) && UniqueActive(next) && Knows(next, s.procs[pid].(pc := pc'))
    requires forall q :: q in s.procs && q != pid ==> Knows(next, s.procs[q])
    ensures var (st', at) := Disturb(s.st, (next, pc'), fault); UniqueState(SetPc(s.(st := st'), pid, at))
  {}

  lemma NextUnique(env: Env, s: State, a: Action)
    requires UniqueState(s) && NoRivals(s) && Enabled(env, Arbitrary, s, a)
    ensures UniqueState(Next(env, s, a))
  {
    if a.Work? {
      WorkUnique(s, a.pid, a.fault, a.pick);
    }
  }

  /** The invariant, under arbitrary faults, of every run without rivals. */
  lemma {:induction false} RunUnique(env: Env, st0: Stores, actions: seq<Action>)
    requires RowsOwned(st0) && UniqueActive(st0) && Possible(env, Arbitrary, Begin(st0), actions)
    requires NeverRivals(env, Begin(st0), actions)
    ensures UniqueState(Run(env, Begin(st0), actions))
  {
    if actions != [] {
      var front := actions[..|actions| - 1];
      RunUnique(env, st0, front);
      NextUnique(env, Run(env, Begin(st0), front), actions[|actions| - 1]);
    }
  }

  /**
   * Arbitrary faults, any interleaving: as long as no two uploads of one content by one bot, under different
   * documents, are at once between content-match query and row save, at most one active row carries a content.
   */
  lemma OneActiveRowUnlessRivals(env: Env, st0: Stores, actions: seq<Action>, d: string, e: string)
    requires RowsOwned(st0) && UniqueActive(st0) && Legal(env, Arbitrary, Begin(st0), actions)
    requires NeverRivals(env, Begin(st0), actions)
    ensures var rows := Run(env, Begin(st0), actions).st.rows;
            d in rows && e in rows && SameContent(rows[d], rows[e]) ==> d == e
  {
    LegalIsPossible(env, Arbitrary, Begin(st0), actions);
    RunUnique(env, st0, actions);
  }
}
