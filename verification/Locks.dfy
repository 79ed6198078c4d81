/** The polled advisory lock around every pipeline call: how long it polls, and that it is always given back. */
module Locks {
  import opened Naming
  import opened Results

  /** The answer to one pg_try_advisory_lock. */
  datatype Try = Granted | Refused | Failed

  /** How entering the lock ends. */
  datatype Entry = Entered | TimedOut | Lost

  /** What the database and the clock do: the k-th try, and the time read after it if it was refused. */
  datatype Polls = Polls(tries: nat -> Try, clock: nat -> real)

  /** The clock never runs back, and between two readings lies at least one poll interval. */
  ghost predicate Paced(p: Polls, start: real, interval: real) {
    p.clock(0) >= start && forall k: nat :: p.clock(k + 1) >= p.clock(k) + interval
  }

  lemma {:induction false} ClockRuns(p: Polls, start: real, interval: real, k: nat)
    requires Paced(p, start, interval)
    ensures p.clock(k) >= start + k as real * interval
  {
    if k > 0 {
      ClockRuns(p, start, interval, k - 1);
      assert p.clock(k) >= p.clock(k - 1) + interval;
      assert k as real * interval == (k - 1) as real * interval + interval;
    }
  }

  function Ceil(x: real): int { -(-x).Floor }

  /** Once the deadline must have passed, every reading says so. */
  lemma DeadlinePasses(p: Polls, start: real, interval: real, timeout: real, k: nat)
    requires Paced(p, start, interval) && interval > 0.0 && k >= Ceil(timeout / interval)
    ensures p.clock(k) >= start + timeout
  {
    ClockRuns(p, start, interval, k);
    assert k as real >= timeout / interval;
    Multiply(k as real, timeout / interval, interval);
    assert timeout / interval * interval == timeout;
  }

  lemma Multiply(a: real, b: real, c: real)
    requires a >= b && c >= 0.0
    ensures a * c >= b * c
  {}

  /** The k-th try ends the polling: granted, failed, or refused when the deadline has passed. */
  ghost predicate Ends(p: Polls, deadline: real, k: nat) {
    p.tries(k) != Refused || p.clock(k) >= deadline
  }

  /** The first such try. */
  ghost predicate Decides(p: Polls, deadline: real, k: nat) {
    Ends(p, deadline, k) && forall i: nat :: i < k ==> !Ends(p, deadline, i)
  }

  /** The polling ends with the first answer other than a refusal, or with a refusal at the deadline or after it. */
  lemma DecidesMeans(p: Polls, deadline: real, k: nat)
    requires Decides(p, deadline, k)
    ensures forall i: nat :: i < k ==> p.tries(i) == Refused && p.clock(i) < deadline
    ensures p.tries(k) == Refused ==> p.clock(k) >= deadline
    ensures EntryAt(p, k) == if p.tries(k) == Granted then Entered else if p.tries(k) == Failed then Lost else TimedOut
  {
    forall i: nat | i < k
      ensures p.tries(i) == Refused && p.clock(i) < deadline
    {
      assert !Ends(p, deadline, i);
    }
  }

  function EntryAt(p: Polls, k: nat): Entry {
    match p.tries(k) case Granted => Entered case Failed => Lost case Refused => TimedOut
  }

  function MaxTries(timeout: real, interval: real): int {
    if interval > 0.0 && timeout > 0.0 then Ceil(timeout / interval) + 1 else 1
  }

  /** The polling loop: the first try that is not refused decides, unless the deadline passes before it. */
  method Poll(p: Polls, start: real, timeout: real, interval: real) returns (e: Entry, tries: nat)
    requires Paced(p, start, interval) && interval > 0.0
    ensures 1 <= tries <= MaxTries(timeout, interval)
    ensures tries > 1 ==> (tries - 2) as real * interval < timeout
    ensures Decides(p, start + timeout, tries - 1)
    ensures e == EntryAt(p, tries - 1)
  {
    var deadline := start + timeout;
    tries := 0;
    while true
      invariant forall k: nat :: k < tries ==> !Ends(p, deadline, k)
      invariant tries < MaxTries(timeout, interval)
      invariant tries > 0 ==> (tries - 1) as real * interval < timeout
      decreases MaxTries(timeout, interval) - tries
    {
      var answer := p.tries(tries);
      tries := tries + 1;
      if answer == Granted {
        return Entered, tries;
      } else if answer == Failed {
        return Lost, tries;
      } else if p.clock(tries - 1) >= deadline {
        return TimedOut, tries;
      }
      NotYet(p, start, timeout, interval, tries - 1);
    }
  }

  lemma NotYet(p: Polls, start: real, timeout: real, interval: real, k: nat)
    requires Paced(p, start, interval) && interval > 0.0 && p.clock(k) < start + timeout
    ensures k + 1 < MaxTries(timeout, interval)
    ensures k as real * interval < timeout
  {
    ClockRuns(p, start, interval, k);
    assert k as real * interval >= 0.0;
    if k >= Ceil(timeout / interval) {
      DeadlinePasses(p, start, interval, timeout, k);
    }
  }

  /** A statement of the code under the lock. */
  datatype Statement = Passes | Raises(error: string)

  /** The first exception that the code raises, if it raises one; what follows it does not run. */
  ghost predicate Raised(code: seq<Statement>, raised: Option<nat>) {
    match raised
    case None => forall i :: 0 <= i < |code| ==> code[i].Passes?
    case Some(at) => at < |code| && code[at].Raises? && forall i :: 0 <= i < at ==> code[i].Passes?
  }

  /** How a request under the lock ends: before it, or as the code inside ends. */
  datatype Exit = Unnamed(error: NameError) | Unlocked(entry: Entry) | Inside(raised: Option<nat>)

  /** One database session and the advisory locks it holds, which stack. */
  class Session {
    var held: multiset<(Int32, Int32)>
    var acquired: nat
    var released: nat

    constructor ()
      ensures held == multiset{} && acquired == 0 && released == 0
    {
      held, acquired, released := multiset{}, 0, 0;
    }

    /**
     * upload_lock around code that may raise at any statement. On every exit the session holds what it held before,
     * and unlocks equal acquisitions: one each if the code was entered, else none. An exception of the code comes
     * out, once the lock is given back.
     */
    method UploadLock(key: Result<(Int32, Int32), NameError>, p: Polls, start: real, timeout: real, interval: real,
                      code: seq<Statement>) returns (x: Exit)
      requires Paced(p, start, interval) && interval > 0.0
      modifies this
      ensures held == old(held)
      ensures acquired - old(acquired) == released - old(released) == if x.Inside? then 1 else 0
      ensures x.Unnamed? <==> key.Failure?
      ensures x.Inside? ==> Raised(code, x.raised)
      ensures key.Success? ==>
                exists k: nat :: k < MaxTries(timeout, interval) && Decides(p, start + timeout, k)
                  && (x.Inside? <==> p.tries(k) == Granted) && (!x.Inside? ==> x == Unlocked(EntryAt(p, k)))
    {
      if key.Failure? {
        return Unnamed(key.error);
      }
      var entry, tries := Poll(p, start, timeout, interval);
      if entry != Entered {
        return Unlocked(entry);
      }
      held, acquired := held + multiset{key.value}, acquired + 1;
      var raised: Option<nat> := None;
      for i := 0 to |code|
        invariant raised.None? && forall j :: 0 <= j < i ==> code[j].Passes?
      {
        if code[i].Raises? {
          raised := Some(i);
          break;
        }
      }
      held, released := held - multiset{key.value}, released + 1;
      x := Inside(raised);
    }
  }
}
