/**
 * The converses: wherever two uploads of one content, or two bots at one document, are between query and save at once,
 * the run can go on so that both save.
 */
module Races {
  import opened Effects
  import opened Protocol
  import opened Serial
  import opened Sharing
  import opened Stores
  import opened Uniqueness

  /** The run can go on from one state to the other, nobody new being admitted. */
  ghost predicate Later(env: Env, faults: Faults, s: State, t: State) {
    exists actions :: Possible(env, faults, s, actions) && Run(env, s, actions) == t && NoStart(actions)
  }

  ghost predicate NoStart(actions: seq<Action>) { forall a :: a in actions ==> !a.Start? }

  lemma LaterSelf(env: Env, faults: Faults, s: State)
    ensures Later(env, faults, s, s)
  {
    assert Possible(env, faults, s, []) && Run(env, s, []) == s && NoStart([]);
  }

  lemma LaterStep(env: Env, faults: Faults, s: State, t: State, a: Action)
    requires Later(env, faults, s, t) && Enabled(env, faults, t, a) && !a.Start?
    ensures Later(env, faults, s, Next(env, t, a))
  {
    var actions :| Possible(env, faults, s, actions) && Run(env, s, actions) == t && NoStart(actions);
    var more := actions + [a];
    assert more[..|actions|] == actions && more[|actions|] == a;
    assert Possible(env, faults, s, more) && Run(env, s, more) == Next(env, t, a) && NoStart(more);
  }

  lemma LaterTwice(env: Env, faults: Faults, s: State, t: State, u: State)
    requires Later(env, faults, s, t) && Later(env, faults, t, u)
    ensures Later(env, faults, s, u)
  {
    var actions :| Possible(env, faults, t, actions) && Run(env, t, actions) == u && NoStart(actions);
    LaterOn(env, faults, s, t, actions);
  }

  lemma {:induction false} LaterOn(env: Env, faults: Faults, s: State, t: State, actions: seq<Action>)
    requires Later(env, faults, s, t) && Possible(env, faults, t, actions) && NoStart(actions)
    ensures Later(env, faults, s, Run(env, t, actions))
  {
    if actions != [] {
      var front, a := actions[..|actions| - 1], actions[|actions| - 1];
      assert a in actions;
      LaterOn(env, faults, s, t, front);
      LaterStep(env, faults, s, Run(env, t, front), a);
    }
  }

  // ---- the collection stays there

  ghost predicate AllReady(s: State) {
    forall pid :: pid in s.procs && Holding(s.procs[pid].pc) ==> Ready(s.st, s.procs[pid].req, s.procs[pid].pc)
  }

  lemma StepReady(st: Stores, req: Request, pc: Pc, pick: string)
    requires Running(pc) && Ready(st, req, pc)
    ensures var (next, pc') := Advance(st, req, pc, pick);
            Ready(next, req, pc') && st.collections.Keys <= next.collections.Keys
  {}

  lemma NextReady(env: Env, faults: Faults, s: State, a: Action)
    requires AllReady(s) && Enabled(env, faults, s, a)
    ensures AllReady(Next(env, s, a))
  {
    if a.Work? {
      var p := s.procs[a.pid];
      StepReady(s.st, p.req, p.pc, a.pick);
    }
  }

  lemma {:induction false} RunReady(env: Env, faults: Faults, st0: Stores, actions: seq<Action>)
    requires Legal(env, faults, Begin(st0), actions)
    ensures AllReady(Run(env, Begin(st0), actions))
  {
    if actions != [] {
      var front := actions[..|actions| - 1];
      RunReady(env, faults, st0, front);
      NextReady(env, faults, Run(env, Begin(st0), front), actions[|actions| - 1]);
    }
  }

  // ---- an upload goes on to its row save

  /** Nothing but a failure can keep this upload from saving its row. */
  ghost predicate Bound(st: Stores, p: Process) {
    && Engaged(p.req, p.pc) && Ready(st, p.req, p.pc) && Writable(p.req.content.points) && Storable(p.req.content)
    && (p.pc.Matching? ==> Duplicates(st, p.req.key, p.req.doc, p.req.content.hash) == {})
  }

  lemma BoundStep(st: Stores, p: Process, pick: string)
    requires Bound(st, p) && !p.pc.Saving?
    ensures var (next, pc') := Advance(st, p.req, p.pc, pick);
            && next.rows == st.rows && st.collections.Keys <= next.collections.Keys
            && Bound(next, p.(pc := pc')) && Rank(pc') < Rank(p.pc)
  {}

  /** The state once the process has saved its row. */
  ghost predicate Saved(s: State, t: State, pid: nat)
    requires pid in s.procs && s.procs[pid].req.Upload?
  {
    var req := s.procs[pid].req;
    && t.procs.Keys == s.procs.Keys && (forall q :: q in s.procs && q != pid ==> t.procs[q] == s.procs[q])
    && t.st.rows == SaveRow(s.st, req.key, req.doc, req.content).rows
    && s.st.collections.Keys <= t.st.collections.Keys
  }

  lemma {:induction false} GoesOnToSave(env: Env, faults: Faults, s0: State, s: State, pid: nat) returns (t: State)
    requires Later(env, faults, s0, s) && pid in s.procs && Bound(s.st, s.procs[pid])
    ensures Later(env, faults, s0, t) && Saved(s, t, pid)
    decreases Rank(s.procs[pid].pc)
  {
    var p, a := s.procs[pid], Work(pid, Ok, "");
    assert Enabled(env, faults, s, a);
    LaterStep(env, faults, s0, s, a);
    t := Next(env, s, a);
    if !p.pc.Saving? {
      var s' := t;
      BoundStep(s.st, p, "");
      t := GoesOnToSave(env, faults, s0, s', pid);
      SaveSame(s, s', t, pid);
    }
  }

  /** A step that leaves the rows alone before the save makes no difference to it. */
  lemma SaveSame(s: State, s': State, t: State, pid: nat)
    requires pid in s.procs && s.procs[pid].req.Upload? && pid in s'.procs && s'.procs[pid].req == s.procs[pid].req
    requires s'.procs == s.procs[pid := s'.procs[pid]] && s'.st.rows == s.st.rows
    requires s.st.collections.Keys <= s'.st.collections.Keys && Saved(s', t, pid)
    ensures Saved(s, t, pid)
  {}

  /** Another upload, of another bot or another document, is as bound after the save as before. */
  lemma StaysBound(s: State, t: State, pid: nat, q: nat)
    requires pid in s.procs && s.procs[pid].req.Upload? && Saved(s, t, pid) && q in s.procs && q != pid
    requires Bound(s.st, s.procs[q]) && (s.procs[q].req.key != s.procs[pid].req.key || !s.procs[q].pc.Matching?)
    ensures Bound(t.st, t.procs[q])
  {
    var o := s.procs[q];
    if o.pc.Matching? {
      forall e | e in t.st.rows && Duplicate(t.st, o.req.key, o.req.doc, o.req.content.hash, e)
        ensures e in Duplicates(s.st, o.req.key, o.req.doc, o.req.content.hash)
      {}
    }
  }

  /** Both save, one after the other. */
  lemma BothSave(env: Env, faults: Faults, s: State, p: nat, q: nat) returns (mid: State, end: State)
    requires p in s.procs && q in s.procs && p != q && Bound(s.st, s.procs[p]) && Bound(s.st, s.procs[q])
    requires s.procs[q].req.key != s.procs[p].req.key || !s.procs[q].pc.Matching?
    ensures Later(env, faults, s, mid) && Later(env, faults, s, end) && Later(env, faults, mid, end)
    ensures mid.st.rows == SaveRow(s.st, s.procs[p].req.key, s.procs[p].req.doc, s.procs[p].req.content).rows
    ensures end.st.rows == SaveRow(mid.st, s.procs[q].req.key, s.procs[q].req.doc, s.procs[q].req.content).rows
  {
    LaterSelf(env, faults, s);
    mid := GoesOnToSave(env, faults, s, s, p);
    StaysBound(s, mid, p, q);
    LaterSelf(env, faults, mid);
    end := GoesOnToSave(env, faults, mid, mid, q);
    LaterTwice(env, faults, s, mid, end);
  }

  // ---- the converses

  /** The embedder and the database have nothing against the upload. */
  predicate Acceptable(p: Process) {
    p.req.Upload? && Writable(p.req.content.points) && Storable(p.req.content)
  }

  /**
   * Any two rivals can defeat deduplication, under every fault model and from any stores: wherever a run has two
   * uploads of one content by one bot, under different documents, between content-match query and row save, it can go
   * on to a state in which both are active.
   */
  lemma RivalsDefeatDedup(env: Env, faults: Faults, st0: Stores, actions: seq<Action>, p: nat, q: nat)
    returns (end: State)
    requires Legal(env, faults, Begin(st0), actions)
    requires var s := Run(env, Begin(st0), actions);
             && p in s.procs && q in s.procs && Rivals(s.procs[p], s.procs[q])
             && Acceptable(s.procs[p]) && Acceptable(s.procs[q])
    ensures Later(env, faults, Run(env, Begin(st0), actions), end) && !UniqueActive(end.st)
  {
    var s := Run(env, Begin(st0), actions);
    var mid;
    RunReady(env, faults, st0, actions);
    mid, end := BothSave(env, faults, s, p, q);
    var d, e := s.procs[p].req.doc, s.procs[q].req.doc;
    assert SameContent(end.st.rows[d], end.st.rows[e]);
  }

  /** The content-match query has nothing to answer, or lies behind. */
  predicate Unmatched(st: Stores, p: Process)
    requires p.req.Upload?
  {
    p.pc.Matching? ==> Duplicates(st, p.req.key, p.req.doc, p.req.content.hash) == {}
  }

  /**
   * Any clash can move a row, under every fault model and from any stores: wherever a run has two bots' uploads of one
   * document between reading the row and saving it, it can go on so that the row is one bot's and then the other's.
   */
  lemma ClashMovesRow(env: Env, faults: Faults, st0: Stores, actions: seq<Action>, p: nat, q: nat)
    returns (mid: State, end: State)
    requires Legal(env, faults, Begin(st0), actions)
    requires var s := Run(env, Begin(st0), actions);
             && p in s.procs && q in s.procs && Clash(s.procs[p], s.procs[q])
             && Acceptable(s.procs[p]) && Unmatched(s.st, s.procs[p])
             && Acceptable(s.procs[q]) && Unmatched(s.st, s.procs[q])
    ensures var s := Run(env, Begin(st0), actions);
            var doc := s.procs[p].req.doc;
            && Later(env, faults, s, mid) && Later(env, faults, mid, end)
            && doc in mid.st.rows && mid.st.rows[doc].key == s.procs[p].req.key
            && doc in end.st.rows && end.st.rows[doc].key == s.procs[q].req.key != s.procs[p].req.key
  {
    var s := Run(env, Begin(st0), actions);
    RunReady(env, faults, st0, actions);
    mid, end := BothSave(env, faults, s, p, q);
  }
}
