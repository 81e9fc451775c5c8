/** The retry engine shared by every provider adapter: an operation is run up
    to the configured number of attempts, with a backoff wait between failed
    attempts that the caller's context can cut short.

    The operation and the context are effects, so they become parameters:
    `op(k)` is what the k-th call of the operation returns (None = success),
    and `cancel(k)` is `Some(ctx.Err())` when the context is done during the
    wait that follows the k-th call. Waiting itself is recorded as the list
    of delays the engine waited for. */
module Retry {
  import opened Errors
  import opened Text
  import opened Config

  function Pow2(n: nat): (r: nat)
    ensures r >= 1
  {
    if n == 0 then 1 else 2 * Pow2(n - 1)
  }

  /** `calculateDelay`: the wait after attempt `attempt`, in nanoseconds.
      "linear" multiplies the initial delay by the attempt number, "constant"
      keeps it, and "exponential" and every other value double it per
      attempt. For an attempt below 1 the exponential shift count wraps
      around as an unsigned number and the multiplier becomes 0. */
  function CalculateDelay(retry: RetryConfig, attempt: int): int
  {
    if retry.backoff == "linear" then retry.initialDelay * attempt
    else if retry.backoff == "constant" then retry.initialDelay
    else retry.initialDelay * (if attempt >= 1 then Pow2(attempt - 1) else 0)
  }

  lemma {:induction false} Pow2Monotone(a: nat, b: nat)
    requires a <= b
    ensures Pow2(a) <= Pow2(b)
  {
    if a < b {
      Pow2Monotone(a, b - 1);
    }
  }

  /** With a non-negative initial delay, no strategy ever shortens the wait
      from one attempt to a later one. */
  lemma DelayMonotone(retry: RetryConfig, a: int, b: int)
    requires retry.initialDelay >= 0
    requires 1 <= a <= b
    ensures 0 <= CalculateDelay(retry, a) <= CalculateDelay(retry, b)
  {
    if retry.backoff != "constant" && retry.backoff != "linear" {
      Pow2Monotone(a - 1, b - 1);
      MulMonotone(retry.initialDelay, Pow2(a - 1), Pow2(b - 1));
    } else if retry.backoff == "linear" {
      MulMonotone(retry.initialDelay, a, b);
    }
  }

  lemma MulMonotone(k: int, x: int, y: int)
    requires k >= 0 && 0 <= x <= y
    ensures 0 <= k * x <= k * y
  {
  }

  /** Exponential backoff doubles the wait from each attempt to the next;
      linear backoff adds the initial delay. */
  lemma DelaySteps(retry: RetryConfig, attempt: int)
    requires attempt >= 1
    ensures retry.backoff == "linear" ==>
              CalculateDelay(retry, attempt + 1) == CalculateDelay(retry, attempt) + retry.initialDelay
    ensures retry.backoff != "linear" && retry.backoff != "constant" ==>
              CalculateDelay(retry, attempt + 1) == 2 * CalculateDelay(retry, attempt)
  {
  }

  /** The error returned once every attempt has failed; `last` is the last
      attempt's error, None when no attempt ran. */
  function FailedAfter(attempts: int, last: Option<Error>): Error
  {
    Wrap("failed after " + IntToString(attempts) + " attempts", last)
  }

  /** The error returned when the context ends a backoff wait. */
  function Cancelled(cause: Error): Error
  {
    Wrap("retry cancelled", Some(cause))
  }

  /** What a run of the engine did: its outcome, how many times it called the
      operation, and the delays it waited for (a wait cut short by the context
      is included). */
  datatype Trace = Trace(result: Option<Error>, calls: nat, waits: seq<int>)

  /** The remainder of a run, from attempt number `attempt` on, when the
      previous attempt failed with `last`. */
  function RunFrom(retry: RetryConfig, op: nat -> Option<Error>, cancel: nat -> Option<Error>,
                   attempt: nat, last: Option<Error>): (t: Trace)
    requires attempt >= 1
    ensures attempt > retry.attempts ==> t == Trace(Some(FailedAfter(retry.attempts, last)), 0, [])
    ensures attempt <= retry.attempts ==> 1 <= t.calls <= retry.attempts - attempt + 1
    ensures |t.waits| <= t.calls
    decreases retry.attempts - attempt
  {
    if attempt > retry.attempts then
      Trace(Some(FailedAfter(retry.attempts, last)), 0, [])
    else
      if op(attempt).None? then Trace(None, 1, [])
      else if attempt == retry.attempts then
        Trace(Some(FailedAfter(retry.attempts, op(attempt))), 1, [])
      else
        var d := CalculateDelay(retry, attempt);
        match cancel(attempt)
        case Some(ce) => Trace(Some(Cancelled(ce)), 1, [d])
        case None =>
          var rest := RunFrom(retry, op, cancel, attempt + 1, op(attempt));
          Trace(rest.result, rest.calls + 1, [d] + rest.waits)
  }

  /** A run ends without error exactly when its last call succeeded. */
  lemma {:induction false} RunFromResult(retry: RetryConfig, op: nat -> Option<Error>, cancel: nat -> Option<Error>,
                                         attempt: nat, last: Option<Error>)
    requires attempt >= 1
    ensures var t := RunFrom(retry, op, cancel, attempt, last);
            t.result.None? <==> t.calls >= 1 && op(attempt + t.calls - 1).None?
    decreases retry.attempts - attempt
  {
    if attempt < retry.attempts && op(attempt).Some? && cancel(attempt).None? {
      RunFromResult(retry, op, cancel, attempt + 1, op(attempt));
    }
  }

  /** A whole run of `RetryWithBackoff`. */
  function Run(retry: RetryConfig, op: nat -> Option<Error>, cancel: nat -> Option<Error>): Trace
  {
    RunFrom(retry, op, cancel, 1, None)
  }

  /** The trace `t` of the rest of a run, preceded by `n` calls and the waits `ds`. */
  function Resume(t: Trace, n: nat, ds: seq<int>): Trace
  {
    Trace(t.result, t.calls + n, ds + t.waits)
  }

  /** One failed, uncancelled attempt followed by the rest of the run. */
  lemma RunFromStep(retry: RetryConfig, op: nat -> Option<Error>, cancel: nat -> Option<Error>,
                    attempt: nat, last: Option<Error>)
    requires 1 <= attempt < retry.attempts
    requires op(attempt).Some? && cancel(attempt).None?
    ensures RunFrom(retry, op, cancel, attempt, last)
         == Resume(RunFrom(retry, op, cancel, attempt + 1, op(attempt)), 1, [CalculateDelay(retry, attempt)])
  {
  }

  /** The backoff delays after attempts `a` up to, not including, `k`. */
  function Delays(retry: RetryConfig, a: int, k: int): (ds: seq<int>)
    ensures |ds| == if a < k then k - a else 0
    decreases k - a
  {
    if a >= k then [] else [CalculateDelay(retry, a)] + Delays(retry, a + 1, k)
  }

  lemma {:induction false} DelaysAt(retry: RetryConfig, a: int, k: int, i: int)
    requires 0 <= i < k - a
    ensures Delays(retry, a, k)[i] == CalculateDelay(retry, a + i)
    decreases k - a
  {
    if i > 0 {
      DelaysAt(retry, a + 1, k, i - 1);
    }
  }

  /** Every wait of a run is the backoff delay of the attempt it follows. */
  lemma {:induction false} RunFromWaits(retry: RetryConfig, op: nat -> Option<Error>, cancel: nat -> Option<Error>,
                                        attempt: nat, last: Option<Error>)
    requires attempt >= 1
    ensures var t := RunFrom(retry, op, cancel, attempt, last);
            t.waits == Delays(retry, attempt, attempt + |t.waits|)
    decreases retry.attempts - attempt
  {
    var t := RunFrom(retry, op, cancel, attempt, last);
    if attempt < retry.attempts && op(attempt).Some? && cancel(attempt).None? {
      var rest := RunFrom(retry, op, cancel, attempt + 1, op(attempt));
      RunFromStep(retry, op, cancel, attempt, last);
      RunFromWaits(retry, op, cancel, attempt + 1, op(attempt));
      assert t.waits == [CalculateDelay(retry, attempt)] + rest.waits;
      assert Delays(retry, attempt, attempt + |t.waits|)
          == [CalculateDelay(retry, attempt)] + Delays(retry, attempt + 1, attempt + 1 + |rest.waits|);
      assert t.waits == Delays(retry, attempt, attempt + |t.waits|);
    } else if t.waits != [] {
      assert t.waits == [CalculateDelay(retry, attempt)];
      assert Delays(retry, attempt + 1, attempt + 1) == [];
      assert Delays(retry, attempt, attempt + 1) == [CalculateDelay(retry, attempt)] + [];
      assert t.waits == Delays(retry, attempt, attempt + |t.waits|);
    } else {
      assert t.waits == Delays(retry, attempt, attempt + |t.waits|);
    }
  }

  /** Every call of a run but the last failed, and no wait before the last
      call was cancelled. */
  lemma {:induction false} RunFromRetriesOnlyFailures(retry: RetryConfig, op: nat -> Option<Error>,
                                                      cancel: nat -> Option<Error>, attempt: nat, last: Option<Error>)
    requires attempt >= 1
    ensures var t := RunFrom(retry, op, cancel, attempt, last);
            forall k :: attempt <= k < attempt + t.calls - 1 ==> op(k).Some? && cancel(k).None?
    decreases retry.attempts - attempt
  {
    if attempt < retry.attempts && op(attempt).Some? && cancel(attempt).None? {
      RunFromStep(retry, op, cancel, attempt, last);
      RunFromRetriesOnlyFailures(retry, op, cancel, attempt + 1, op(attempt));
    }
  }

  /** Running through attempts `a` .. `k - 1` that all fail without being
      cancelled calls the operation `k - a` times and waits the backoff
      delay after each, then continues from attempt `k`. */
  lemma {:induction false} RunFromFailing(retry: RetryConfig, op: nat -> Option<Error>, cancel: nat -> Option<Error>,
                                          a: nat, k: nat, last: Option<Error>)
    requires 1 <= a < k <= retry.attempts
    requires forall j :: a <= j < k ==> op(j).Some? && cancel(j).None?
    ensures RunFrom(retry, op, cancel, a, last)
         == Resume(RunFrom(retry, op, cancel, k, op(k - 1)), k - a, Delays(retry, a, k))
    decreases k - a
  {
    assert op(a).Some? && cancel(a).None?;
    RunFromStep(retry, op, cancel, a, last);
    assert Delays(retry, a, k) == [CalculateDelay(retry, a)] + Delays(retry, a + 1, k);
    if a + 1 < k {
      var rest := RunFrom(retry, op, cancel, k, op(k - 1));
      RunFromFailing(retry, op, cancel, a + 1, k, op(a));
      ResumeResume(rest, k - a - 1, Delays(retry, a + 1, k), 1, [CalculateDelay(retry, a)]);
    } else {
      assert Delays(retry, a + 1, k) == [];
    }
  }

  lemma ResumeResume(t: Trace, n: nat, ds: seq<int>, m: nat, es: seq<int>)
    ensures Resume(Resume(t, n, ds), m, es) == Resume(t, n + m, es + ds)
  {
    assert es + (ds + t.waits) == (es + ds) + t.waits;
  }

  /** The first successful attempt ends the run with no error, after one
      backoff wait per earlier failure. */
  lemma RunSucceedsAt(retry: RetryConfig, op: nat -> Option<Error>, cancel: nat -> Option<Error>, k: nat)
    requires 1 <= k <= retry.attempts
    requires forall j :: 1 <= j < k ==> op(j).Some? && cancel(j).None?
    requires op(k).None?
    ensures Run(retry, op, cancel) == Trace(None, k, Delays(retry, 1, k))
  {
    if k > 1 {
      RunFromFailing(retry, op, cancel, 1, k, None);
    }
  }

  /** When every attempt fails the run makes exactly the configured number of
      calls, waits between consecutive ones, and reports the last error. */
  lemma RunAlwaysFails(retry: RetryConfig, op: nat -> Option<Error>, cancel: nat -> Option<Error>)
    requires retry.attempts >= 1
    requires forall j :: 1 <= j <= retry.attempts ==> op(j).Some?
    requires forall j :: 1 <= j < retry.attempts ==> cancel(j).None?
    ensures Run(retry, op, cancel)
         == Trace(Some(FailedAfter(retry.attempts, op(retry.attempts))), retry.attempts,
                  Delays(retry, 1, retry.attempts))
  {
    if retry.attempts > 1 {
      RunFromFailing(retry, op, cancel, 1, retry.attempts, None);
    }
  }

  /** A context that ends the wait after attempt `k` stops the run there with
      the context's error; no further call is made. */
  lemma RunCancelledAt(retry: RetryConfig, op: nat -> Option<Error>, cancel: nat -> Option<Error>, k: nat)
    requires 1 <= k < retry.attempts
    requires forall j :: 1 <= j < k ==> op(j).Some? && cancel(j).None?
    requires op(k).Some? && cancel(k).Some?
    ensures Run(retry, op, cancel) == Trace(Some(Cancelled(cancel(k).value)), k, Delays(retry, 1, k + 1))
  {
    if k > 1 {
      RunFromFailing(retry, op, cancel, 1, k, None);
    }
    assert Delays(retry, 1, k) + [CalculateDelay(retry, k)] == Delays(retry, 1, k + 1) by {
      DelaysSnoc(retry, 1, k);
    }
  }

  lemma {:induction false} DelaysSnoc(retry: RetryConfig, a: int, k: int)
    requires a <= k
    ensures Delays(retry, a, k) + [CalculateDelay(retry, k)] == Delays(retry, a, k + 1)
    decreases k - a
  {
    if a < k {
      DelaysSnoc(retry, a + 1, k);
      assert [CalculateDelay(retry, a)] + Delays(retry, a + 1, k) + [CalculateDelay(retry, k)]
          == [CalculateDelay(retry, a)] + (Delays(retry, a + 1, k) + [CalculateDelay(retry, k)]);
    }
  }

  /** With no attempts configured the operation is never called and the
      error wraps a nil cause. */
  lemma RunNoAttempts(retry: RetryConfig, op: nat -> Option<Error>, cancel: nat -> Option<Error>)
    requires retry.attempts <= 0
    ensures Run(retry, op, cancel) == Trace(Some(FailedAfter(retry.attempts, None)), 0, [])
  {
  }

  /** `RetryWithBackoff`: the loop, proved to behave as `Run`. */
  method RetryWithBackoff(retry: RetryConfig, op: nat -> Option<Error>, cancel: nat -> Option<Error>)
    returns (err: Option<Error>, calls: nat, waits: seq<int>)
    ensures Trace(err, calls, waits) == Run(retry, op, cancel)
  {
    var lastErr: Option<Error> := None;
    calls, waits := 0, [];
    var attempt: nat := 1;
    while attempt <= retry.attempts
      invariant attempt >= 1
      invariant Resume(RunFrom(retry, op, cancel, attempt, lastErr), calls, waits) == Run(retry, op, cancel)
      decreases retry.attempts - attempt
    {
      ghost var here := RunFrom(retry, op, cancel, attempt, lastErr);
      var e := op(attempt);
      calls := calls + 1;
      if e.None? {
        assert here == Trace(None, 1, []);
        assert waits + [] == waits;
        return None, calls, waits;
      }
      if attempt == retry.attempts {
        assert here == Trace(Some(FailedAfter(retry.attempts, e)), 1, []);
        assert waits + [] == waits;
        lastErr := e;
        break;
      }
      var delay := CalculateDelay(retry, attempt);
      var c := cancel(attempt);
      if c.Some? {
        assert here == Trace(Some(Cancelled(c.value)), 1, [delay]);
        return Some(Cancelled(c.value)), calls, waits + [delay];
      }
      RunFromStep(retry, op, cancel, attempt, lastErr);
      ResumeResume(RunFrom(retry, op, cancel, attempt + 1, e), 1, [delay], calls - 1, waits);
      waits := waits + [delay];
      lastErr := e;
      attempt := attempt + 1;
    }
    assert waits + [] == waits;
    err := Some(FailedAfter(retry.attempts, lastErr));
  }
}
