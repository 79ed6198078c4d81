/**
 * Deduplication of uploads that come one after the other, whatever failed on the way: one active row per content,
 * and repeating an upload changes nothing.
 */
module Dedup {
  import opened Answers
  import opened Chunker
  import opened Conservation
  import opened Effects
  import opened Ownership
  import opened Protocol
  import opened Results
  import opened Serial
  import opened Stores
  import opened Uniqueness

  // ---- the invariant

  /** The foreign key from bots to tenants. */
  ghost predicate Parents(st: Stores) { forall name :: name in st.bots ==> st.bots[name].tenant in st.tenants }

  ghost predicate Orderly(st: Stores) { RowsOwned(st) && Parents(st) }

  ghost predicate Sound(st: Stores) { Orderly(st) && UniqueActive(st) }

  /** An active row of this bot with this content and these counts. */
  predicate Carries(st: Stores, key: BotKey, hash: string, doc: string, chunks: int, items: int) {
    && doc in st.rows
    && var row := st.rows[doc];
       && row.key == key && row.hash == hash && row.status == Active
       && row.chunkCount == chunks > 0 && row.itemCount == items
  }

  /** The document that a successful upload reports, and its counts. */
  function Named(req: Request, o: Outcome): Option<(string, int, int)> {
    match o
    case Created(n, m) => Some((req.doc, n, m))
    case Replaced(n, m) => Some((req.doc, n, m))
    case NoChange(doc, n, m) => Some((doc, n, m))
    case _ => None
  }

  function Promised(req: Request, pc: Pc): Option<(string, int, int)> {
    match pc
    case Refreshing(doc, n, m) => Some((doc, n, m))
    case Releasing(o) => Named(req, o)
    case _ => None
  }

  /** What an upload knows of the rows on its way. */
  ghost predicate Informed(st: Stores, req: Request, pc: Pc) {
    && Entitled(st, req, pc)
    && (pc.AddingBot? ==> req.key.tenant in st.tenants)
    && (req.Upload? ==>
          var p := Promised(req, pc);
          p.Some? ==> Carries(st, req.key, req.content.hash, p.value.0, p.value.1, p.value.2))
  }

  lemma StepParents(st: Stores, req: Request, pc: Pc, pick: string)
    requires Running(pc) && Parents(st) && (pc.AddingBot? ==> req.key.tenant in st.tenants)
    ensures Parents(Advance(st, req, pc, pick).0)
    ensures Advance(st, req, pc, pick).1.AddingBot? ==> req.key.tenant in Advance(st, req, pc, pick).0.tenants
  {}

  lemma StepInforms(st: Stores, req: Request, pc: Pc, luck: Luck)
    requires Running(pc) && RowsOwned(st) && Informed(st, req, pc) && req.Upload? && Chooses(luck)
    ensures var (next, pc') := Advance(st, req, pc, Pick(st, req, luck));
            var p := Promised(req, pc');
            p.Some? ==> Carries(next, req.key, req.content.hash, p.value.0, p.value.1, p.value.2)
  {
    if req.doc in st.rows {
      assert RowShape(st.rows[req.doc]);
    }
  }

  lemma StepOrderly(st: Stores, req: Request, pc: Pc, luck: Luck)
    requires Running(pc) && Orderly(st) && Informed(st, req, pc) && Chooses(luck)
    ensures var (next, pc') := Step(st, req, pc, luck); Orderly(next) && Informed(next, req, pc')
  {
    var pick := Pick(st, req, luck);
    var (next, pc') := Advance(st, req, pc, pick);
    StepRows(st, req, pc, pick);
    StepEntitles(st, req, pc, pick);
    StepParents(st, req, pc, pick);
    if req.Upload? {
      StepInforms(st, req, pc, luck);
    }
    DisturbOrderly(st, req, pc, next, pc', luck.fault(pc));
  }

  lemma DisturbOrderly(st: Stores, req: Request, pc: Pc, next: Stores, pc': Pc, fault: Fault)
    requires Orderly(st) && Orderly(next) && Informed(next, req, pc')
    ensures var (st', at) := Disturb(st, (next, pc'), fault); Orderly(st') && Informed(st', req, at)
  {}

  lemma {:induction false} AloneOrderly(st: Stores, req: Request, pc: Pc, luck: Luck)
    requires Holding(pc) && Orderly(st) && Informed(st, req, pc) && Chooses(luck)
    ensures var (end, o) := Alone(st, req, pc, luck); Orderly(end) && Informed(end, req, Releasing(o))
    decreases Rank(pc)
  {
    if !pc.Releasing? {
      StepOrderly(st, req, pc, luck);
      StepRanks(st, req, pc, luck);
      var (next, pc') := Step(st, req, pc, luck);
      AloneOrderly(next, req, pc', luck);
    }
  }

  /** A call keeps content unique, and what a successful upload reports is an active row with that content. */
  lemma CallSound(st: Stores, req: Request, luck: Luck)
    requires Sound(st) && Chooses(luck)
    ensures var (end, o) := Perform(st, req, luck);
            && Sound(end)
            && (req.Upload? && Named(req, o).Some? ==>
                  var (doc, n, m) := Named(req, o).value; Carries(end, req.key, req.content.hash, doc, n, m))
  {
    AloneOrderly(st, req, FirstPc(req), luck);
    CallUnique(st, req, luck);
  }

  /** A request served alone has no rivals. */
  lemma CallUnique(st: Stores, req: Request, luck: Luck)
    requires RowsOwned(st) && UniqueActive(st) && Chooses(luck)
    ensures UniqueActive(Perform(st, req, luck).0)
  {
    var env := Env(Tools(_ => 0, (_, _, _) => []), id => id, _ => seq(32, _ => 0), (_, _, _) => Success((0, 0)));
    var actions := PerformIsRun(env, Arbitrary, st, req, luck);
    OneProcessNoRivals(env, st, actions);
    RunUnique(env, st, actions);
  }

  lemma {:induction false} OneProcessNoRivals(env: Env, st: Stores, actions: seq<Action>)
    requires Possible(env, Arbitrary, Begin(st), actions)
    requires forall a :: a in actions && a.Start? ==> a.pid == 0
    ensures Run(env, Begin(st), actions).procs.Keys <= {0} && NeverRivals(env, Begin(st), actions)
  {
    if actions != [] {
      var front, a := actions[..|actions| - 1], actions[|actions| - 1];
      assert a in actions && forall b :: b in front ==> b in actions;
      OneProcessNoRivals(env, st, front);
    }
  }

  // ---- serial histories

  datatype Turn = Turn(req: Request, luck: Luck)

  /** The stores after the turns, in order; a request with an invalid name never gets a lock. */
  function Tale(env: Env, st: Stores, turns: seq<Turn>): Stores {
    if turns == [] then st
    else
      var before, t := Tale(env, st, turns[..|turns| - 1]), turns[|turns| - 1];
      Serve(env, before, {}, t.req, t.luck).0
  }

  lemma {:induction false} TaleSound(env: Env, st: Stores, turns: seq<Turn>)
    requires Sound(st) && forall t :: t in turns ==> Chooses(t.luck)
    ensures Sound(Tale(env, st, turns))
  {
    if turns != [] {
      var front, t := turns[..|turns| - 1], turns[|turns| - 1];
      assert t in turns;
      TaleSound(env, st, front);
      CallSound(Tale(env, st, front), t.req, t.luck);
    }
  }

  /** At most one active row per bot and content, after any serial history with any failures. */
  lemma {:induction false} OneActiveRow(env: Env, turns: seq<Turn>, d: string, e: string)
    requires forall t :: t in turns ==> Chooses(t.luck)
    requires var rows := Tale(env, EMPTY, turns).rows; d in rows && e in rows && SameContent(rows[d], rows[e])
    ensures d == e
  {
    TaleSound(env, EMPTY, turns);
  }

  // ---- idempotence

  lemma CalmStep(st: Stores, req: Request, pc: Pc, luck: Luck)
    requires Running(pc) && req.Upload? && Calm(luck)
    ensures Step(st, req, pc, luck) == AdvanceUpload(st, req, pc, Pick(st, req, luck))
  {
    assert !Strikes(luck.fault(pc));
  }

  /**
   * While a document carries a content, every further upload of that content under any document id of the bot is
   * answered with that document and its counts, and moves only its last_refreshed_at; under an id that belongs
   * to another bot it is refused and changes nothing.
   */
  lemma UploadAgain(st: Stores, req: Request, luck: Luck, doc: string, n: int, m: int)
    requires Sound(st) && Calm(luck) && Chooses(luck) && req.Upload?
    requires Carries(st, req.key, req.content.hash, doc, n, m)
    ensures var (end, o) := Perform(st, req, luck);
            if req.doc in st.rows && st.rows[req.doc].key != req.key then end == st && o == Raised(Collision)
            else OnlyRefreshed(st, end, doc) && o == NoChange(doc, n, m)
  {
    RegisterAgain(st, req, luck, doc);
    if req.doc in st.rows && st.rows[req.doc].key != req.key {
      CalmStep(st, req, Looking, luck);
    } else {
      FindAgain(st, req, luck, doc, n, m);
    }
  }

  lemma RegisterAgain(st: Stores, req: Request, luck: Luck, doc: string)
    requires Sound(st) && Calm(luck) && req.Upload? && doc in st.rows && st.rows[doc].key == req.key
    ensures Perform(st, req, luck) == Alone(st, req, Looking, luck)
  {
    assert Registered(st, st.rows[doc].key);
    CalmStep(st, req, AddingTenant, luck);
    assert AddTenant(st, req.key) == st;
    CalmStep(st, req, AddingBot, luck);
    assert AddBot(st, req.key) == st;
  }

  lemma {:induction false} FindAgain(st: Stores, req: Request, luck: Luck, doc: string, n: int, m: int)
    requires Sound(st) && Calm(luck) && Chooses(luck) && req.Upload?
    requires Carries(st, req.key, req.content.hash, doc, n, m)
    requires req.doc in st.rows ==> st.rows[req.doc].key == req.key
    ensures Alone(st, req, Looking, luck) == (Touch(st, doc), NoChange(doc, n, m))
  {
    CalmStep(st, req, Looking, luck);
    CalmStep(st, req, Refreshing(doc, n, m), luck);
    if doc != req.doc {
      OnlyDuplicate(st, req, doc, n, m);
      CalmStep(st, req, Matching(req.doc in st.rows), luck);
    }
  }

  /** The content-match query has one answer. */
  lemma OnlyDuplicate(st: Stores, req: Request, doc: string, n: int, m: int)
    requires Sound(st) && req.Upload? && doc != req.doc && Carries(st, req.key, req.content.hash, doc, n, m)
    ensures Duplicates(st, req.key, req.doc, req.content.hash) == {doc}
    ensures req.doc in st.rows && st.rows[req.doc].key == req.key ==>
              !(st.rows[req.doc].chunkCount > 0 && st.rows[req.doc].hash == req.content.hash)
  {
    var dups := Duplicates(st, req.key, req.doc, req.content.hash);
    forall e | e in dups
      ensures e == doc
    {
      assert SameContent(st.rows[e], st.rows[doc]);
    }
    assert doc in dups;
    assert req.doc in st.rows ==> RowShape(st.rows[req.doc]) && !SameContent(st.rows[req.doc], st.rows[doc]);
  }

  /**
   * Idempotence: repeating a successful upload without failures, under the same document id or any other that
   * is fresh or the bot's own, reports the same document and the same counts.
   */
  lemma RepeatIsNoChange(env: Env, turns: seq<Turn>, req: Request, luck: Luck, again: Request, luck': Luck)
    requires (forall t :: t in turns ==> Chooses(t.luck)) && Chooses(luck) && Chooses(luck') && Calm(luck')
    requires req.Upload? && again.Upload? && again.key == req.key && again.content.hash == req.content.hash
    ensures var (end, o) := Perform(Tale(env, EMPTY, turns), req, luck);
            Named(req, o).Some? && (again.doc in end.rows ==> end.rows[again.doc].key == again.key) ==>
              var (doc, n, m) := Named(req, o).value;
              var (end', o') := Perform(end, again, luck');
              OnlyRefreshed(end, end', doc) && o' == NoChange(doc, n, m)
  {
    var st := Tale(env, EMPTY, turns);
    var (end, o) := Perform(st, req, luck);
    TaleSound(env, EMPTY, turns);
    CallSound(st, req, luck);
    if Named(req, o).Some? {
      var (doc, n, m) := Named(req, o).value;
      UploadAgain(end, again, luck', doc, n, m);
    }
  }
}
