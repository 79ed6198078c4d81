/** The retry decorator: which outcome it delivers, how often it calls, how long it sleeps. */
module Retry {
  import opened Results

  datatype Code = Unavailable | DeadlineExceeded | ResourceExhausted | OtherCode

  /** An exception as the decorator sees it: a gRPC error with or without a code, or the name of its class. */
  datatype Exception = Rpc(code: Option<Code>) | Class(name: string, status: Option<int>)

  predicate IsTransient(e: Exception) {
    match e
    case Rpc(None) => false
    case Rpc(Some(code)) => !code.OtherCode?
    case Class(name, _) => name in {"ResponseHandlingException", "ConnectionError", "TimeoutException"}
  }

  const EXHAUSTED := Class("QdrantConnectionError", None)

  /** Lost connections, deadlines and exhaustion are retried; conflicts and the decorator's own failure are not. */
  lemma WhatIsRetried()
    ensures IsTransient(Rpc(Some(Unavailable))) && IsTransient(Rpc(Some(DeadlineExceeded)))
    ensures IsTransient(Rpc(Some(ResourceExhausted))) && !IsTransient(Rpc(Some(OtherCode))) && !IsTransient(Rpc(None))
    ensures forall name, status :: IsTransient(Class(name, status)) <==>
              name == "ResponseHandlingException" || name == "ConnectionError" || name == "TimeoutException"
    ensures !IsTransient(EXHAUSTED) && !IsTransient(Class("UnexpectedResponse", Some(409)))
  {}

  type Reply<T> = Result<T, Exception>

  predicate Passing<T>(r: Reply<T>) { r.Failure? && IsTransient(r.error) }

  // ---- sleeping

  function Pow(b: real, m: nat): real { if m == 0 then 1.0 else Pow(b, m - 1) * b }

  /** The nominal delay after the first m. */
  function Delay(initial: real, backoff: real, m: nat): real {
    if m == 0 then initial else Delay(initial, backoff, m - 1) * backoff
  }

  /** The first m sleeps, each stretched or shrunk by its jitter. */
  function Slept(initial: real, backoff: real, jitter: nat -> real, m: nat): real {
    if m == 0 then 0.0
    else Slept(initial, backoff, jitter, m - 1) + Delay(initial, backoff, m - 1) * (1.0 + jitter(m - 1))
  }

  function NoJitter(k: nat): real { 0.0 }

  lemma {:induction false} DelayGrows(initial: real, backoff: real, m: nat)
    ensures Delay(initial, backoff, m) == initial * Pow(backoff, m)
  {
    if m > 0 {
      DelayGrows(initial, backoff, m - 1);
    }
  }

  /** The geometric series, its denominator multiplied out. */
  lemma {:induction false} GeometricSeries(initial: real, backoff: real, m: nat)
    ensures (backoff - 1.0) * Slept(initial, backoff, NoJitter, m) == initial * (Pow(backoff, m) - 1.0)
  {
    if m > 0 {
      GeometricSeries(initial, backoff, m - 1);
      DelayGrows(initial, backoff, m - 1);
      DelayGrows(initial, backoff, m);
      NextTerm(backoff, Slept(initial, backoff, NoJitter, m - 1), Delay(initial, backoff, m - 1));
    }
  }

  lemma NextTerm(backoff: real, s: real, d: real)
    ensures (backoff - 1.0) * (s + d) == (backoff - 1.0) * s + d * backoff - d
  {}

  lemma {:induction false} DelayPositive(initial: real, backoff: real, m: nat)
    requires initial >= 0.0 && backoff > 0.0
    ensures Delay(initial, backoff, m) >= 0.0
  {
    if m > 0 {
      DelayPositive(initial, backoff, m - 1);
    }
  }

  /** The total sleep is within a fifth of the geometric sum. */
  lemma {:induction false} SleptBounds(initial: real, backoff: real, jitter: nat -> real, m: nat)
    requires initial >= 0.0 && backoff > 0.0 && forall k: nat :: k < m ==> -0.2 <= jitter(k) <= 0.2
    ensures var g := Slept(initial, backoff, NoJitter, m);
            0.8 * g <= Slept(initial, backoff, jitter, m) <= 1.2 * g
  {
    if m > 0 {
      SleptBounds(initial, backoff, jitter, m - 1);
      DelayPositive(initial, backoff, m - 1);
      Stretch(Slept(initial, backoff, NoJitter, m - 1), Slept(initial, backoff, jitter, m - 1),
              Delay(initial, backoff, m - 1), jitter(m - 1));
    }
  }

  /** One more sleep keeps the sum within a fifth. */
  lemma Stretch(g: real, s: real, delay: real, jitter: real)
    requires 0.8 * g <= s <= 1.2 * g && delay >= 0.0 && -0.2 <= jitter <= 0.2
    ensures 0.8 * (g + delay * (1.0 + 0.0)) <= s + delay * (1.0 + jitter) <= 1.2 * (g + delay * (1.0 + 0.0))
  {
    assert delay * (0.2 + jitter) >= 0.0;
    assert delay * (0.2 - jitter) >= 0.0;
  }

  // ---- the loop

  /** The k-th call ends the loop: it succeeds, or fails for good. */
  ghost predicate Ends<T(!new)>(replies: nat -> Reply<T>, k: nat) {
    !Passing(replies(k)) && forall i: nat :: i < k ==> Passing(replies(i))
  }

  /**
   * with_retry around a function whose k-th call would reply replies(k). It stops at the first reply that is a
   * success or a final failure and hands that on; if the first attempts replies all pass, it calls exactly
   * attempts times and gives up. It sleeps between calls and nowhere else.
   */
  method WithRetry<T(!new)>(replies: nat -> Reply<T>, attempts: nat, initial: real, backoff: real, jitter: nat -> real)
    returns (r: Reply<T>, calls: nat, slept: real)
    ensures calls <= attempts && (attempts >= 1 ==> calls >= 1)
    ensures forall k: nat :: k < attempts && Ends(replies, k) ==> r == replies(k) && calls == k + 1
    ensures (forall k: nat :: k < attempts ==> Passing(replies(k))) ==> r == Failure(EXHAUSTED) && calls == attempts
    ensures slept == Slept(initial, backoff, jitter, if calls == 0 then 0 else calls - 1)
    ensures r.Failure? ==> !IsTransient(r.error)
  {
    var delay := initial;
    calls, slept := 0, 0.0;
    for attempt := 0 to attempts
      invariant calls == attempt && forall i: nat :: i < attempt ==> Passing(replies(i))
      invariant delay == Delay(initial, backoff, attempt)
      invariant attempts > 0 ==> attempt < attempts
      invariant slept == Slept(initial, backoff, jitter, attempt)
    {
      r := replies(attempt);
      calls := calls + 1;
      if r.Success? || !IsTransient(r.error) {
        return;
      }
      if attempt == attempts - 1 {
        break;
      }
      slept := slept + delay * (1.0 + jitter(attempt));
      delay := delay * backoff;
    }
    r := Failure(EXHAUSTED);
  }
}
