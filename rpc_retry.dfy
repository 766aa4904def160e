/** rpc/client/base.py: the timeout-and-retry wrapper put around RPC client calls.

    The wrapped coroutine's behaviour on each attempt is a parameter (`outcome(k)` is
    what attempt `k`, counted from 0, returns or raises, a timeout of `wait_for` being
    a raised `TimeoutError`); the sleeps between attempts are recorded as the list of
    their lengths instead of being slept. */
module RpcRetry {
  import opened Text
  import opened Values

  /** `RPCConfig` */
  const DefaultTimeout: int := 30
  const MaxRetries: int := 2
  const RetryDelay: real := 1.0

  /** One attempt: the coroutine returned a value, or raised. */
  datatype Attempt<T> = Returned(value: T) | Threw(error: PyError)

  /** What the wrapped call gives its caller. */
  datatype Call<T> = Success(value: T) | Failure(error: PyError)

  /** The built-in subclasses of `OSError`; `ConnectionError` and `TimeoutError` are
      among them, and `asyncio.TimeoutError` is `TimeoutError`. */
  predicate IsOsError(kind: string)
  {
    kind in {"OSError", "BlockingIOError", "ChildProcessError", "ConnectionError", "BrokenPipeError",
             "ConnectionAbortedError", "ConnectionRefusedError", "ConnectionResetError",
             "FileExistsError", "FileNotFoundError", "InterruptedError", "IsADirectoryError",
             "NotADirectoryError", "PermissionError", "ProcessLookupError", "TimeoutError"}
  }

  /** The default `retry_on = (asyncio.TimeoutError, ConnectionError, OSError)`: an
      exception is caught when its class is one of these or derives from one. */
  predicate DefaultRetryOn(kind: string)
  {
    IsOsError(kind)
  }

  /** The `RPCTimeoutError` an attempt that timed out records; `timeoutText` is
      `str(timeout)`. */
  function TimeoutError(name: string, timeoutText: string): PyError
  {
    PyError("RPCTimeoutError", "RPC " + name + " timed out after " + timeoutText + "s")
  }

  /** What a raised exception stores in `last_error`, or None when it is not caught
      and propagates at once. A timeout is caught by the first handler even when
      `retry_on` also lists it. */
  function Recorded(e: PyError, retryOn: string -> bool, name: string, timeoutText: string): (r: Option<PyError>)
    ensures e.kind == "TimeoutError" ==> r == Some(TimeoutError(name, timeoutText))
    ensures e.kind != "TimeoutError" && retryOn(e.kind) ==> r == Some(PyError("RPCError", "RPC " + name + " failed: " + e.message))
    ensures r.None? <==> e.kind != "TimeoutError" && !retryOn(e.kind)
  {
    if e.kind == "TimeoutError" then Some(TimeoutError(name, timeoutText))
    else if retryOn(e.kind) then Some(PyError("RPCError", "RPC " + name + " failed: " + e.message))
    else None
  }

  /** An attempt that failed in a way that is retried. */
  predicate Retryable<T>(a: Attempt<T>, retryOn: string -> bool, name: string, timeoutText: string)
  {
    a.Threw? && Recorded(a.error, retryOn, name, timeoutText).Some?
  }

  /** What `raise last_error` raises when the loop ran no attempt and `last_error` is
      still None. */
  const RaiseNone: PyError := PyError("TypeError", "exceptions must derive from BaseException")

  /** The call's result, attempt by attempt from attempt `k`. */
  function RetryFrom<T>(outcome: nat -> Attempt<T>, maxRetries: int, retryOn: string -> bool,
                        name: string, timeoutText: string, k: nat): Call<T>
    requires k <= maxRetries
    decreases maxRetries - k
  {
    match outcome(k)
    case Returned(v) => Success(v)
    case Threw(e) =>
      match Recorded(e, retryOn, name, timeoutText)
      case None => Failure(e)
      case Some(recorded) =>
        if k == maxRetries then Failure(recorded) else RetryFrom(outcome, maxRetries, retryOn, name, timeoutText, k + 1)
  }

  /** The result of a call through `with_timeout_and_retry`. */
  function RetryResult<T>(outcome: nat -> Attempt<T>, maxRetries: int, retryOn: string -> bool,
                          name: string, timeoutText: string): Call<T>
  {
    if maxRetries < 0 then Failure(RaiseNone) else RetryFrom(outcome, maxRetries, retryOn, name, timeoutText, 0)
  }

  /** The wrapper's attempt loop. `calls` is the number of attempts made and `delays`
      the sleeps between them, in order. */
  method CallWithRetry<T>(outcome: nat -> Attempt<T>, maxRetries: int, retryDelay: real,
                          retryOn: string -> bool, name: string, timeoutText: string)
    returns (result: Call<T>, calls: nat, delays: seq<real>)
    ensures result == RetryResult(outcome, maxRetries, retryOn, name, timeoutText)
    // at most max_retries + 1 attempts, and every attempt but the last was retried
    ensures calls <= if maxRetries < 0 then 0 else maxRetries + 1
    ensures forall i :: 0 <= i < calls - 1 ==> Retryable(outcome(i), retryOn, name, timeoutText)
    // the first success is returned at once
    ensures result.Success? <==> calls > 0 && outcome(calls - 1).Returned?
    ensures result.Success? ==> result.value == outcome(calls - 1).value
    // an exception that is not caught propagates at once, unchanged
    ensures (calls > 0 && outcome(calls - 1).Threw? && !Retryable(outcome(calls - 1), retryOn, name, timeoutText))
              ==> result == Failure(outcome(calls - 1).error)
    // when every attempt fails, the last recorded error is raised
    ensures (calls > 0 && Retryable(outcome(calls - 1), retryOn, name, timeoutText))
              ==> calls == maxRetries + 1
                  && result == Failure(Recorded(outcome(calls - 1).error, retryOn, name, timeoutText).value)
    ensures calls == 0 <==> maxRetries < 0
    ensures calls == 0 ==> result == Failure(RaiseNone)
    // a linear back-off between attempts, none after the last one
    ensures |delays| == if calls == 0 then 0 else calls - 1
    ensures forall k :: 0 <= k < |delays| ==> delays[k] == retryDelay * (k + 1) as real
  {
    var lastError: Option<PyError> := None;
    var attempt: nat := 0;
    calls := 0;
    delays := [];
    while attempt < maxRetries + 1
      invariant calls == attempt && (attempt == 0 || attempt <= maxRetries)
      invariant |delays| == attempt
      invariant forall k :: 0 <= k < |delays| ==> delays[k] == retryDelay * (k + 1) as real
      invariant forall i :: 0 <= i < attempt ==> Retryable(outcome(i), retryOn, name, timeoutText)
      invariant attempt > 0 ==> lastError == Recorded(outcome(attempt - 1).error, retryOn, name, timeoutText)
      invariant attempt <= maxRetries ==>
        RetryResult(outcome, maxRetries, retryOn, name, timeoutText) == RetryFrom(outcome, maxRetries, retryOn, name, timeoutText, attempt)
      decreases maxRetries + 1 - attempt
    {
      calls := calls + 1;
      match outcome(attempt) {
        case Returned(v) =>
          return Success(v), calls, delays;
        case Threw(e) =>
          if e.kind == "TimeoutError" {
            lastError := Some(TimeoutError(name, timeoutText));
          } else if retryOn(e.kind) {
            lastError := Some(PyError("RPCError", "RPC " + name + " failed: " + e.message));
          } else {
            return Failure(e), calls, delays;
          }
      }
      if attempt < maxRetries {
        delays := delays + [retryDelay * (attempt + 1) as real];
      } else {
        return Failure(lastError.value), calls, delays;
      }
      attempt := attempt + 1;
    }
    result := Failure(RaiseNone);
  }

  /** `with_timeout`: one attempt, a timeout turned into `RPCTimeoutError`, anything
      else passed through. */
  function WithTimeout<T>(a: Attempt<T>, name: string, timeoutText: string): (r: Call<T>)
    ensures a.Returned? ==> r == Success(a.value)
    ensures a.Threw? && a.error.kind == "TimeoutError" ==> r == Failure(TimeoutError(name, timeoutText))
    ensures a.Threw? && a.error.kind != "TimeoutError" ==> r == Failure(a.error)
  {
    match a
    case Returned(v) => Success(v)
    case Threw(e) => if e.kind == "TimeoutError" then Failure(TimeoutError(name, timeoutText)) else Failure(e)
  }

  /** `with_timeout` behaves as `with_timeout_and_retry` with no retries and nothing
      listed in `retry_on`. */
  lemma WithTimeoutIsOneAttempt<T>(outcome: nat -> Attempt<T>, name: string, timeoutText: string)
    ensures WithTimeout(outcome(0), name, timeoutText) == RetryResult(outcome, 0, _ => false, name, timeoutText)
  {
  }

  /** With the defaults, a call that keeps failing with `ConnectionError` is tried three
      times and raises `RPCError`. */
  lemma {:induction false} DefaultsTryThreeTimes<T>(outcome: nat -> Attempt<T>, name: string, timeoutText: string)
    requires forall k :: outcome(k) == Threw(PyError("ConnectionError", "refused"))
    ensures RetryResult(outcome, MaxRetries, DefaultRetryOn, name, timeoutText)
            == Failure(PyError("RPCError", "RPC " + name + " failed: refused"))
  {
    assert outcome(0).Threw? && outcome(1).Threw? && outcome(2).Threw?;
    assert RetryFrom(outcome, 2, DefaultRetryOn, name, timeoutText, 2) == Failure(PyError("RPCError", "RPC " + name + " failed: refused"));
  }

  /** Attempts after a success or a propagating exception are never consulted: two
      outcome sequences that agree up to that attempt give the same result. */
  lemma {:induction false} RetryIgnoresLaterAttempts<T>(o1: nat -> Attempt<T>, o2: nat -> Attempt<T>, maxRetries: int,
                                                       retryOn: string -> bool, name: string, timeoutText: string, k: nat)
    requires k <= maxRetries
    requires !Retryable(o1(k), retryOn, name, timeoutText)
    requires forall i :: 0 <= i <= k ==> o1(i) == o2(i)
    ensures RetryFrom(o1, maxRetries, retryOn, name, timeoutText, 0) == RetryFrom(o2, maxRetries, retryOn, name, timeoutText, 0)
  {
    AgreeFrom(o1, o2, maxRetries, retryOn, name, timeoutText, k, 0);
  }

  lemma {:induction false} AgreeFrom<T>(o1: nat -> Attempt<T>, o2: nat -> Attempt<T>, maxRetries: int,
                                        retryOn: string -> bool, name: string, timeoutText: string, k: nat, j: nat)
    requires j <= k <= maxRetries
    requires !Retryable(o1(k), retryOn, name, timeoutText)
    requires forall i :: 0 <= i <= k ==> o1(i) == o2(i)
    ensures RetryFrom(o1, maxRetries, retryOn, name, timeoutText, j) == RetryFrom(o2, maxRetries, retryOn, name, timeoutText, j)
    decreases k - j
  {
    if j < k {
      AgreeFrom(o1, o2, maxRetries, retryOn, name, timeoutText, k, j + 1);
    }
  }
}
