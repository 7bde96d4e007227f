/**
 The retry loop around every AI call: which errors stop it, how long it sleeps, and what
 the whole run therefore costs.
 */
module Retry {
  import opened Wrappers

  /** The two headers the service looks at; None stands for a missing or non-numeric value. */
  datatype Headers = NoHeaders | Headers(retryAfter: Option<real>, resetTokens: Option<real>)

  /** A rejected call. `tooLarge` says whether its message contains "Request too large". */
  datatype ApiError = ApiError(status: Option<int>, tooLarge: bool, headers: Headers)

  datatype Attempt<+T> = Answer(value: T) | Failure(error: ApiError)

  datatype Outcome<+T> = Returned(value: T) | Thrown(error: ApiError) | NeverCalled

  function Ceil(x: real): int {
    -((-x).Floor)
  }

  predicate Positive(seconds: Option<real>) {
    seconds.Some? && seconds.value > 0.0
  }

  function ExtractRetryAfterMs(headers: Headers): (ms: Option<int>)
    ensures ms.Some? <==> headers.Headers? && (Positive(headers.retryAfter) || Positive(headers.resetTokens))
    ensures ms.Some? ==>
              var seconds := if Positive(headers.retryAfter) then headers.retryAfter else headers.resetTokens;
              ms.value > 0 && (ms.value - 1) as real < seconds.value * 1000.0 <= ms.value as real
  {
    if headers.NoHeaders? then None
    else if Positive(headers.retryAfter) then Some(Ceil(headers.retryAfter.value * 1000.0))
    else if Positive(headers.resetTokens) then Some(Ceil(headers.resetTokens.value * 1000.0))
    else None
  }

  /** Errors after which no further attempt is made, whatever is left of the budget. */
  predicate Terminal(error: ApiError) {
    || (error.status == Some(429) && error.tooLarge)
    || (error.status.Some? && 400 <= error.status.value < 500 && error.status.value != 429)
  }

  predicate GivesUp(error: ApiError, attempt: nat, maxRetries: nat) {
    Terminal(error) || attempt == maxRetries
  }

  function Pow(base: nat, exponent: nat): nat {
    if exponent == 0 then 1 else base * Pow(base, exponent - 1)
  }

  function Multiplier(error: ApiError): nat {
    if error.status == Some(429) then 3 else 2
  }

  /** The sleep after failed attempt number `attempt`, counted from 1. */
  function Delay(error: ApiError, attempt: nat, baseDelayMs: nat): int
    requires attempt >= 1
  {
    match ExtractRetryAfterMs(error.headers)
    case Some(ms) => ms
    case None => baseDelayMs * Pow(Multiplier(error), attempt - 1)
  }

  /**
   What it means for (outcome, calls, sleeps) to be the run of the retry loop on a stream of
   attempts: it goes on exactly while attempts fail retryably and the budget lasts.
   */
  ghost predicate IsRun<T(!new)>(attempts: nat -> Attempt<T>, maxRetries: nat, baseDelayMs: nat,
                                 outcome: Outcome<T>, calls: nat, sleeps: seq<int>)
  {
    && calls <= maxRetries
    && (forall i :: 0 <= i < |sleeps| ==>
                      && attempts(i).Failure? && !Terminal(attempts(i).error)
                      && sleeps[i] == Delay(attempts(i).error, i + 1, baseDelayMs))
    && match outcome
       case NeverCalled => maxRetries == 0 && sleeps == []
       case Returned(value) => |sleeps| == calls - 1 && attempts(calls - 1) == Answer(value)
       case Thrown(error) =>
         && |sleeps| == calls - 1
         && attempts(calls - 1) == Failure(error)
         && GivesUp(error, calls, maxRetries)
  }

  method ExecuteWithRetry<T(!new)>(attempts: nat -> Attempt<T>, maxRetries: nat, baseDelayMs: nat)
    returns (outcome: Outcome<T>, calls: nat, sleeps: seq<int>)
    ensures IsRun(attempts, maxRetries, baseDelayMs, outcome, calls, sleeps)
  {
    sleeps := [];
    var attempt := 1;
    while attempt <= maxRetries
      invariant 1 <= attempt <= maxRetries + 1
      invariant maxRetries > 0 ==> attempt <= maxRetries
      invariant |sleeps| == attempt - 1
      invariant forall i :: 0 <= i < |sleeps| ==>
                              && attempts(i).Failure? && !Terminal(attempts(i).error)
                              && sleeps[i] == Delay(attempts(i).error, i + 1, baseDelayMs)
    {
      match attempts(attempt - 1) {
        case Answer(value) =>
          return Returned(value), attempt, sleeps;
        case Failure(error) =>
          if error.status == Some(429) && error.tooLarge {
            return Thrown(error), attempt, sleeps;
          }
          if error.status.Some? && 400 <= error.status.value < 500 && error.status.value != 429 {
            return Thrown(error), attempt, sleeps;
          }
          if attempt == maxRetries {
            return Thrown(error), attempt, sleeps;
          }
          sleeps := sleeps + [Delay(error, attempt, baseDelayMs)];
      }
      attempt := attempt + 1;
    }
    return NeverCalled, 0, [];
  }

  /** The stream of attempts determines the run, so IsRun leaves the loop no freedom. */
  lemma RunIsDetermined<T(!new)>(attempts: nat -> Attempt<T>, maxRetries: nat, base: nat,
                                 o1: Outcome<T>, c1: nat, s1: seq<int>, o2: Outcome<T>, c2: nat, s2: seq<int>)
    requires IsRun(attempts, maxRetries, base, o1, c1, s1)
    requires IsRun(attempts, maxRetries, base, o2, c2, s2)
    requires maxRetries > 0
    ensures o1 == o2 && c1 == c2 && s1 == s2
  {
  }

  /** A request the server will not accept however often it is sent: a 4xx other than 429, or one too large. */
  predicate Refused<T>(attempt: Attempt<T>) {
    && attempt.Failure? && attempt.error.status.Some?
    && var status := attempt.error.status.value;
       (400 <= status <= 499 && status != 429) || (status == 429 && attempt.error.tooLarge)
  }

  /**
   Which failures end a run: after a refused request there is no further call and its error is thrown;
   any other failure is followed by another call while the budget lasts; and a run that throws before
   its budget is used up ended on a refused request.
   */
  lemma RefusalEndsTheRun<T(!new)>(attempts: nat -> Attempt<T>, maxRetries: nat, base: nat,
                                   outcome: Outcome<T>, calls: nat, sleeps: seq<int>, i: nat)
    requires IsRun(attempts, maxRetries, base, outcome, calls, sleeps) && i < calls
    ensures Refused(attempts(i)) ==> calls == i + 1 && outcome == Thrown(attempts(i).error)
    ensures attempts(i).Failure? && !Refused(attempts(i)) && i + 1 < maxRetries ==> calls > i + 1
    ensures attempts(i).Answer? ==> calls == i + 1 && outcome == Returned(attempts(i).value)
    ensures outcome.Thrown? && calls < maxRetries ==> Refused(attempts(calls - 1))
  {
    if i < |sleeps| {
      assert attempts(i).Failure? && !Terminal(attempts(i).error);
    }
  }

  /**
   The sleep after a failed attempt is what the first positive header asks for, in milliseconds rounded
   up; without one it is the base delay times 3 per earlier attempt after a 429, times 2 after others.
   */
  lemma SleepsFollowTheError<T(!new)>(attempts: nat -> Attempt<T>, maxRetries: nat, base: nat,
                                      outcome: Outcome<T>, calls: nat, sleeps: seq<int>, i: nat)
    requires IsRun(attempts, maxRetries, base, outcome, calls, sleeps) && i < |sleeps|
    ensures attempts(i).Failure?
    ensures var headers := attempts(i).error.headers;
            if headers.Headers? && Positive(headers.retryAfter) then IsCeilMs(sleeps[i], headers.retryAfter.value)
            else if headers.Headers? && Positive(headers.resetTokens) then IsCeilMs(sleeps[i], headers.resetTokens.value)
            else sleeps[i] == base * Pow(if attempts(i).error.status == Some(429) then 3 else 2, i)
  {
    assert sleeps[i] == Delay(attempts(i).error, i + 1, base);
  }

  predicate IsCeilMs(ms: int, seconds: real) {
    (ms - 1) as real < seconds * 1000.0 <= ms as real
  }

  function Sum(sleeps: seq<int>): int {
    if sleeps == [] then 0 else Sum(sleeps[..|sleeps| - 1]) + sleeps[|sleeps| - 1]
  }

  lemma {:induction false} PowBounds(multiplier: nat, exponent: nat)
    requires 2 <= multiplier <= 3
    ensures 1 <= Pow(2, exponent) <= Pow(multiplier, exponent) <= Pow(3, exponent)
  {
    if exponent > 0 { PowBounds(multiplier, exponent - 1); }
  }

  lemma Scale(base: nat, a: int, b: int)
    requires a <= b
    ensures base * a <= base * b
  {
  }

  lemma BackoffStep(base: nat, low: nat, term: nat, high: nat, sum: int)
    requires low <= term <= high
    requires base * (low - 1) <= sum && 2 * sum <= base * (high - 1)
    ensures base * (2 * low - 1) <= sum + base * term
    ensures 2 * (sum + base * term) <= base * (3 * high - 1)
  {
    Scale(base, low, term);
    Scale(base, term, high);
    assert base * (2 * low - 1) == base * (low - 1) + base * low;
    assert base * (3 * high - 1) == base * (high - 1) + 2 * (base * high);
  }

  /** Backoff without retry headers lies between the all-times-2 and the all-times-3 series. */
  lemma {:induction false} BackoffBounds(errors: seq<ApiError>, base: nat, sleeps: seq<int>)
    requires |errors| == |sleeps|
    requires forall i :: 0 <= i < |sleeps| ==> sleeps[i] == Delay(errors[i], i + 1, base)
    requires forall i :: 0 <= i < |errors| ==> ExtractRetryAfterMs(errors[i].headers).None?
    ensures base * (Pow(2, |sleeps|) - 1) <= Sum(sleeps)
    ensures 2 * Sum(sleeps) <= base * (Pow(3, |sleeps|) - 1)
  {
    if sleeps != [] {
      var n := |sleeps| - 1;
      BackoffBounds(errors[..n], base, sleeps[..n]);
      var m := Multiplier(errors[n]);
      PowBounds(m, n);
      BackoffStep(base, Pow(2, n), Pow(m, n), Pow(3, n), Sum(sleeps[..n]));
    }
  }

  lemma {:induction false} PowMonotone(m: nat, n: nat)
    requires m <= n
    ensures 1 <= Pow(3, m) <= Pow(3, n)
  {
    if m < n { PowMonotone(m, n - 1); } else if m > 0 { PowMonotone(m - 1, n - 1); }
  }

  function Failures<T>(attempts: nat -> Attempt<T>, n: nat): seq<ApiError>
    requires forall i: nat :: i < n ==> attempts(i).Failure?
  {
    seq(n, (i: nat) requires i < n && attempts(i).Failure? => attempts(i).error)
  }

  /**
   The whole run: at most maxRetries calls; without retry headers the total sleep is at most
   base*(3^(n-1)-1)/2, and a run that used up its budget has slept at least base*(2^(n-1)-1).
   */
  lemma TotalBackoff<T(!new)>(attempts: nat -> Attempt<T>, maxRetries: nat, base: nat,
                              outcome: Outcome<T>, calls: nat, sleeps: seq<int>)
    requires IsRun(attempts, maxRetries, base, outcome, calls, sleeps)
    requires maxRetries > 0
    requires forall i: nat :: i < |sleeps| && attempts(i).Failure? ==> ExtractRetryAfterMs(attempts(i).error.headers).None?
    ensures 1 <= calls <= maxRetries
    ensures 2 * Sum(sleeps) <= base * (Pow(3, maxRetries - 1) - 1)
    ensures outcome.Thrown? && !Terminal(outcome.error) ==>
              calls == maxRetries && base * (Pow(2, maxRetries - 1) - 1) <= Sum(sleeps)
  {
    BackoffBounds(Failures(attempts, |sleeps|), base, sleeps);
    PowMonotone(|sleeps|, maxRetries - 1);
    Scale(base, Pow(3, |sleeps|) - 1, Pow(3, maxRetries - 1) - 1);
    assert outcome.Thrown? && !Terminal(outcome.error) ==> |sleeps| == maxRetries - 1;
  }

  const EMBEDDING_BASE_DELAY_MS: nat := 3000
  const EMBEDDING_MAX_RETRIES: nat := 3

  predicate Retryable<T>(attempt: Attempt<T>) {
    attempt.Failure? && !Terminal(attempt.error)
  }

  /** The sleep after the first n attempts of an embedding call, if each of them fails retryably. */
  function SleepAfter<T>(attempts: nat -> Attempt<T>, n: nat): int
    requires n >= 1 && attempts(n - 1).Failure?
  {
    Delay(attempts(n - 1).error, n, EMBEDDING_BASE_DELAY_MS)
  }

  /**
   An embedding call sleeps as long as a 10 second lock lives exactly when its first failure is
   retryable and asks for that long, or its second one is retryable too and both together do.
   */
  lemma EmbeddingBackoffOutlastsTenSeconds<T(!new)>(attempts: nat -> Attempt<T>,
                                                    outcome: Outcome<T>, calls: nat, sleeps: seq<int>)
    requires IsRun(attempts, EMBEDDING_MAX_RETRIES, EMBEDDING_BASE_DELAY_MS, outcome, calls, sleeps)
    ensures Sum(sleeps) >= 10000 <==>
            && Retryable(attempts(0))
            && (|| SleepAfter(attempts, 1) >= 10000
                || (Retryable(attempts(1)) && SleepAfter(attempts, 1) + SleepAfter(attempts, 2) >= 10000))
  {
    if |sleeps| >= 1 {
      assert sleeps[0] == SleepAfter(attempts, 1);
      assert sleeps[..1][..0] == [];
      assert Sum(sleeps[..1]) == sleeps[0];
    }
    if |sleeps| == 2 {
      assert sleeps[1] == SleepAfter(attempts, 2);
      assert Sum(sleeps) == sleeps[0] + sleeps[1];
      DelayNonNegative(attempts(1).error, 2, EMBEDDING_BASE_DELAY_MS);
    } else if |sleeps| == 1 {
      assert sleeps == sleeps[..1];
    }
  }

  lemma DelayNonNegative(error: ApiError, attempt: nat, base: nat)
    requires attempt >= 1
    ensures Delay(error, attempt, base) >= 0
  {
    Scale(base, 0, Pow(Multiplier(error), attempt - 1));
  }

  /** Without retry headers that is: two retryable failures, of which the second is a 429. */
  lemma HeaderlessBackoffOutlastsTenSeconds<T(!new)>(attempts: nat -> Attempt<T>,
                                                     outcome: Outcome<T>, calls: nat, sleeps: seq<int>)
    requires IsRun(attempts, EMBEDDING_MAX_RETRIES, EMBEDDING_BASE_DELAY_MS, outcome, calls, sleeps)
    requires forall i: nat :: attempts(i).Failure? ==> ExtractRetryAfterMs(attempts(i).error.headers).None?
    ensures Sum(sleeps) >= 10000 <==>
            Retryable(attempts(0)) && Retryable(attempts(1)) && attempts(1).error.status == Some(429)
  {
    EmbeddingBackoffOutlastsTenSeconds(attempts, outcome, calls, sleeps);
    if Retryable(attempts(0)) {
      assert SleepAfter(attempts, 1) == 3000 * Pow(Multiplier(attempts(0).error), 0) == 3000;
    }
    if Retryable(attempts(1)) {
      var m := Multiplier(attempts(1).error);
      assert Pow(m, 1) == m * Pow(m, 0) == m;
      assert SleepAfter(attempts, 2) == 3000 * m;
    }
  }
}
