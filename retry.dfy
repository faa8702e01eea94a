/** `retryWithBackoff` and `RETRY_CONFIG` of src/lib/langchain/creativeAgent.ts:
    bounded retry of one unit of work, only for the provider-overload error code,
    with capped exponential backoff between attempts. */
module RetryPolicy {
  import opened Js

  const MaxAttempts: nat := 3
  const InitialDelayMs: nat := 1000
  const MaxDelayMs: nat := 5000
  /** The overload code, the only one that is retried. */
  const OverloadCode: string := "1031"
  /** The literal part of the pattern `/error code: (\d+)/`. */
  const CodeMarker: string := "error code: "

  predicate IsDigit(c: char)
  {
    '0' <= c <= '9'
  }

  /** The longest prefix of `s` made of decimal digits (the greedy `\d+`). */
  function DigitRun(s: string): (r: string)
    ensures |r| <= |s| && r == s[..|r|]
    ensures forall i :: 0 <= i < |r| ==> IsDigit(r[i])
    ensures |r| == |s| || !IsDigit(s[|r|])
  {
    if |s| > 0 && IsDigit(s[0]) then [s[0]] + DigitRun(s[1..]) else []
  }

  /** The pattern matches at index `i`: the marker followed by at least one digit. */
  predicate MatchesAt(msg: string, i: nat)
  {
    i + |CodeMarker| < |msg| && msg[i..i + |CodeMarker|] == CodeMarker && IsDigit(msg[i + |CodeMarker|])
  }

  /** `msg.match(/error code: (\d+)/)?.[1]`: the digits of the leftmost match, if any. */
  function ErrorCode(msg: string): (r: Option<string>)
    ensures r.Some? ==> |r.value| > 0
    decreases |msg|
  {
    if |msg| <= |CodeMarker| then None
    else if MatchesAt(msg, 0) then Some(DigitRun(msg[|CodeMarker|..]))
    else ErrorCode(msg[1..])
  }

  /** The retry test: the extracted code is exactly "1031". */
  predicate IsOverload(msg: string)
  {
    ErrorCode(msg) == Some(OverloadCode)
  }

  lemma {:induction false} NoMatchNoCode(msg: string)
    ensures ErrorCode(msg) == None <==> forall i: nat :: i < |msg| ==> !MatchesAt(msg, i)
    decreases |msg|
  {
    if |msg| <= |CodeMarker| {
    } else if MatchesAt(msg, 0) {
    } else {
      NoMatchNoCode(msg[1..]);
      forall i: nat | i < |msg| - 1
        ensures MatchesAt(msg[1..], i) == MatchesAt(msg, i + 1)
      {
        if i + |CodeMarker| < |msg| - 1 {
          assert msg[1..][i..i + |CodeMarker|] == msg[i + 1..i + 1 + |CodeMarker|];
        }
      }
      if ErrorCode(msg) == None {
        forall i: nat | i < |msg| ensures !MatchesAt(msg, i) {
          if i > 0 { assert !MatchesAt(msg[1..], i - 1); }
        }
      } else {
        var j: nat :| j < |msg| - 1 && MatchesAt(msg[1..], j);
        assert MatchesAt(msg, j + 1);
      }
    }
  }

  /** A message without any "error code: N" is never retried. */
  lemma NoCodeNotOverload(msg: string)
    requires forall i: nat :: i < |msg| ==> !MatchesAt(msg, i)
    ensures !IsOverload(msg)
  {
    NoMatchNoCode(msg);
  }

  /** A message that starts with "error code: 1031" and whose code ends there is retried;
      one whose code merely starts with 1031 (such as 10310) is not. */
  lemma {:induction false} LeadingCode(rest: string)
    ensures IsOverload(CodeMarker + OverloadCode + rest) <==> (rest == [] || !IsDigit(rest[0]))
  {
    var msg := CodeMarker + OverloadCode + rest;
    assert MatchesAt(msg, 0);
    var tail := msg[|CodeMarker|..];
    assert tail == OverloadCode + rest;
    var d := DigitRun(tail);
    assert tail[1..] == "031" + rest;
    assert tail[2..] == "31" + rest;
    assert tail[3..] == "1" + rest;
    assert tail[4..] == rest;
    if rest == [] || !IsDigit(rest[0]) {
      assert d == OverloadCode;
    } else {
      assert |d| > 4;
    }
  }

  /** `2^n` */
  function Pow2(n: nat): (r: nat)
    ensures r >= 1
  {
    if n == 0 then 1 else 2 * Pow2(n - 1)
  }

  /** The delay after failed attempt `attempt`, before attempt `attempt + 1`:
      `min(initialDelayMs * 2^(attempt - 1), maxDelayMs)`. */
  function BackoffDelay(attempt: nat): (r: nat)
    requires attempt >= 1
    ensures r <= MaxDelayMs
    ensures r == MaxDelayMs || r == InitialDelayMs * Pow2(attempt - 1)
  {
    var d := InitialDelayMs * Pow2(attempt - 1);
    if d < MaxDelayMs then d else MaxDelayMs
  }

  /** What one run of the policy did: the settled result, how many times the work
      was called, and the delays slept between attempts, in order. */
  datatype RetryTrace<T> = RetryTrace(result: Outcome<T>, attempts: nat, delays: seq<nat>)

  /** The policy from attempt `attempt` on. `work(a)` is the outcome of the a-th call. */
  function RetryFrom<T>(work: nat -> Outcome<T>, attempt: nat): RetryTrace<T>
    requires 1 <= attempt <= MaxAttempts
    decreases MaxAttempts - attempt
  {
    match work(attempt)
    case Ok(v) => RetryTrace(Ok(v), attempt, [])
    case Fail(m) =>
      if !IsOverload(m) || attempt == MaxAttempts then RetryTrace(Fail(m), attempt, [])
      else
        var rest := RetryFrom(work, attempt + 1);
        RetryTrace(rest.result, rest.attempts, [BackoffDelay(attempt)] + rest.delays)
  }

  /** The specification of `retryWithBackoff(fn)`. */
  function Retry<T>(work: nat -> Outcome<T>): RetryTrace<T>
  {
    RetryFrom(work, 1)
  }

  /** `retryWithBackoff`: calls `work` with attempt numbers 1, 2, ... until it succeeds,
      fails with a code other than 1031, or the last attempt fails; sleeping is recorded
      in `delays`, not performed. */
  method RetryWithBackoff<T>(work: nat -> Outcome<T>) returns (r: Outcome<T>, attempts: nat, delays: seq<nat>)
    ensures RetryTrace(r, attempts, delays) == Retry(work)
  {
    delays := [];
    var attempt := 1;
    while true
      invariant 1 <= attempt <= MaxAttempts
      invariant var t := RetryFrom(work, attempt);
        Retry(work) == RetryTrace(t.result, t.attempts, delays + t.delays)
      decreases MaxAttempts - attempt
    {
      var outcome := work(attempt);
      if outcome.Ok? {
        return outcome, attempt, delays;
      }
      if !IsOverload(outcome.message) || attempt == MaxAttempts {
        return Fail(outcome.message), attempt, delays;
      }
      delays := delays + [BackoffDelay(attempt)];
      attempt := attempt + 1;
    }
  }

  /** The policy's whole behaviour, attempt by attempt: between 1 and 3 calls; every call
      but the last failed with 1031; the result is exactly the last call's outcome; the
      run stopped early only on a success or a non-1031 error; and the k-th delay is
      `BackoffDelay(k)`, one per retry. */
  lemma {:induction false} RetryFromShape<T>(work: nat -> Outcome<T>, attempt: nat)
    requires 1 <= attempt <= MaxAttempts
    ensures var t := RetryFrom(work, attempt);
      && attempt <= t.attempts <= MaxAttempts
      && t.result == work(t.attempts)
      && (forall a :: attempt <= a < t.attempts ==> work(a).Fail? && IsOverload(work(a).message))
      && (t.attempts < MaxAttempts ==> t.result.Ok? || !IsOverload(t.result.message))
      && |t.delays| == t.attempts - attempt
      && (forall k :: 0 <= k < |t.delays| ==> t.delays[k] == BackoffDelay(attempt + k))
    decreases MaxAttempts - attempt
  {
    match work(attempt)
    case Ok(v) =>
    case Fail(m) =>
      if !IsOverload(m) || attempt == MaxAttempts {
      } else {
        RetryFromShape(work, attempt + 1);
        var rest := RetryFrom(work, attempt + 1);
        var ds := [BackoffDelay(attempt)] + rest.delays;
        forall k | 0 <= k < |ds| ensures ds[k] == BackoffDelay(attempt + k) {
          if k > 0 { assert ds[k] == rest.delays[k - 1]; }
        }
      }
  }

  lemma RetryShape<T>(work: nat -> Outcome<T>)
    ensures var t := Retry(work);
      && 1 <= t.attempts <= MaxAttempts
      && t.result == work(t.attempts)
      && (forall a :: 1 <= a < t.attempts ==> work(a).Fail? && IsOverload(work(a).message))
      && (t.attempts < MaxAttempts ==> t.result.Ok? || !IsOverload(t.result.message))
      && |t.delays| == t.attempts - 1
      && (forall k :: 0 <= k < |t.delays| ==> t.delays[k] == BackoffDelay(k + 1))
  {
    RetryFromShape(work, 1);
  }

  /** A first success is returned unchanged, after one call and no delay. */
  lemma FirstSuccess<T>(work: nat -> Outcome<T>, v: T)
    requires work(1) == Ok(v)
    ensures Retry(work) == RetryTrace(Ok(v), 1, [])
  {
  }

  /** An error that is not tagged 1031 is rethrown after exactly one attempt. */
  lemma NonOverloadFailsFast<T>(work: nat -> Outcome<T>, m: string)
    requires work(1) == Fail(m) && !IsOverload(m)
    ensures Retry(work) == RetryTrace(Fail(m), 1, [])
  {
  }

  /** Every attempt failing with 1031: exactly three calls, the last error is thrown,
      after sleeping 1000 ms and then 2000 ms. */
  lemma Exhaustion<T>(work: nat -> Outcome<T>)
    requires forall a :: 1 <= a <= MaxAttempts ==> work(a).Fail? && IsOverload(work(a).message)
    ensures Retry(work) == RetryTrace(work(3), 3, [1000, 2000])
  {
    assert work(1).Fail? && work(2).Fail? && work(3).Fail?;
    assert BackoffDelay(1) == 1000 && BackoffDelay(2) == 2000;
  }

  /** Two 1031 failures, then a success: the success is returned after three calls. */
  lemma RecoveryOnThirdAttempt<T>(work: nat -> Outcome<T>, v: T)
    requires work(1).Fail? && IsOverload(work(1).message)
    requires work(2).Fail? && IsOverload(work(2).message)
    requires work(3) == Ok(v)
    ensures Retry(work) == RetryTrace(Ok(v), 3, [1000, 2000])
  {
    assert BackoffDelay(1) == 1000 && BackoffDelay(2) == 2000;
  }

  /** The backoff sequence doubles from 1000 ms and is capped at 5000 ms. */
  lemma BackoffValues()
    ensures BackoffDelay(1) == 1000 && BackoffDelay(2) == 2000 && BackoffDelay(3) == 4000
    ensures forall a :: a >= 4 ==> BackoffDelay(a) == MaxDelayMs
  {
    forall a | a >= 4 ensures BackoffDelay(a) == MaxDelayMs {
      Pow2Grows(a - 1);
    }
  }

  lemma {:induction false} Pow2Grows(n: nat)
    requires n >= 3
    ensures Pow2(n) >= 8
  {
    if n > 3 { Pow2Grows(n - 1); }
  }
}
