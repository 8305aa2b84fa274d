/** `run_with_retries`: a bounded number of calls, repeated on validation errors only. */
module Retry {
  import opened Wrappers
  import opened Schemas

  /** The outcome, and how many calls were made to reach it. */
  datatype Retried<+T> = Retried(outcome: Result<T, AIError>, made: nat)

  function Attempts(maxAttempts: int): (n: nat)
    ensures n >= 1 && n >= maxAttempts
    ensures n == 1 || n == maxAttempts
  {
    Max(1, maxAttempts)
  }

  function RetryFrom<T>(calls: seq<Call<T>>, attempt: nat, attempts: nat): Retried<T>
    requires 1 <= attempt <= attempts
    decreases attempts - attempt
  {
    match CallAt(calls, attempt - 1)
    case Returned(v) => Retried(Ok(v), attempt)
    case Raised(e) =>
      if e != ValidationFailed then Retried(Err(e), attempt)
      else if attempt == attempts then Retried(Err(RetryExhausted(attempts)), attempts)
      else RetryFrom(calls, attempt + 1, attempts)
  }

  function Retrying<T>(calls: seq<Call<T>>, maxAttempts: int): Retried<T> {
    RetryFrom(calls, 1, Attempts(maxAttempts))
  }

  method RunWithRetries<T>(calls: seq<Call<T>>, maxAttempts: int) returns (outcome: Result<T, AIError>, made: nat)
    ensures Retried(outcome, made) == Retrying(calls, maxAttempts)
    ensures 1 <= made <= Attempts(maxAttempts)
  {
    var attempts := Max(1, maxAttempts);
    var attempt := 1;
    made := attempts;
    while attempt <= attempts
      invariant 1 <= attempt <= attempts + 1
      invariant made == attempts
      invariant attempt <= attempts ==> RetryFrom(calls, attempt, attempts) == Retrying(calls, maxAttempts)
      invariant attempt > attempts ==> Retrying(calls, maxAttempts) == Retried(Err(RetryExhausted(attempts)), attempts)
    {
      match CallAt(calls, attempt - 1)
      case Returned(v) =>
        return Ok(v), attempt;
      case Raised(e) =>
        if e != ValidationFailed {
          return Err(e), attempt;
        }
        attempt := attempt + 1;
    }
    outcome := Err(RetryExhausted(attempts));
  }

  /**
   The last call made decides the outcome, every earlier one failed validation,
   and the budget is exceeded only when every permitted call failed validation.
   */
  lemma RetryMeaning<T>(calls: seq<Call<T>>, maxAttempts: int)
    ensures var r := Retrying(calls, maxAttempts);
            && 1 <= r.made <= Attempts(maxAttempts)
            && (forall i | 0 <= i < r.made - 1 :: CallAt(calls, i) == Raised(ValidationFailed))
            && (match CallAt(calls, r.made - 1)
                case Returned(v) => r.outcome == Ok(v)
                case Raised(ValidationFailed) =>
                  r.made == Attempts(maxAttempts) && r.outcome == Err(RetryExhausted(r.made))
                case Raised(e) => r.outcome == Err(e))
  {
    RetryFromMeaning(calls, 1, Attempts(maxAttempts));
  }

  lemma {:induction false} RetryFromMeaning<T>(calls: seq<Call<T>>, attempt: nat, attempts: nat)
    requires 1 <= attempt <= attempts
    ensures var r := RetryFrom(calls, attempt, attempts);
            && attempt <= r.made <= attempts
            && (forall i | attempt - 1 <= i < r.made - 1 :: CallAt(calls, i) == Raised(ValidationFailed))
            && (match CallAt(calls, r.made - 1)
                case Returned(v) => r.outcome == Ok(v)
                case Raised(ValidationFailed) => r.made == attempts && r.outcome == Err(RetryExhausted(attempts))
                case Raised(e) => r.outcome == Err(e))
    decreases attempts - attempt
  {
    if CallAt(calls, attempt - 1) == Raised(ValidationFailed) && attempt < attempts {
      RetryFromMeaning(calls, attempt + 1, attempts);
    }
  }
}
