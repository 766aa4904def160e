/** libs/exception_middleware.py: the middleware that turns an unhandled exception into
    a JSON error response, and the circuit breaker that rejects requests for a while
    after repeated server failures.

    A request's passage through the breaker is one atomic step here. What `call_next`
    produced (a status code or a raised exception) and the clock reading are
    parameters. */
module ExceptionMiddleware {
  import opened Text
  import opened Values

  // ---------------------------------------------------------------------------
  // GlobalExceptionMiddleware
  // ---------------------------------------------------------------------------

  /** What the wrapped application did with a request. */
  datatype Downstream = Responded(status: int) | Raised(error: PyError)

  /** What a middleware hands back: the downstream response, a JSON response of its
      own, or the exception re-raised to the server. */
  datatype Response =
    | PassedThrough(status: int)
    | JsonResponse(status: int, body: seq<(string, Value)>)
    | Propagated(error: PyError)

  /** The exception classes that derive from `BaseException` but not from `Exception`,
      so that `except Exception` does not catch them. */
  predicate IsBaseOnly(kind: string)
  {
    kind in {"CancelledError", "KeyboardInterrupt", "SystemExit", "GeneratorExit", "BaseExceptionGroup"}
  }

  const MemoryMessage: string := "Service temporarily unavailable due to resource constraints"
  const InternalMessage: string := "Internal server error"

  /** `GlobalExceptionMiddleware.dispatch`: the request's trace id, when the request
      state has one, is reported as `request_id`. */
  function GuardRequest(result: Downstream, traceId: Option<string>): (r: Response)
  {
    match result
    case Responded(status) => PassedThrough(status)
    case Raised(e) =>
      if e.kind == "CancelledError" || IsBaseOnly(e.kind) then Propagated(e)
      else if e.kind == "MemoryError" then JsonResponse(503, [("error", VStr(MemoryMessage))])
      else
        var requestId := if traceId.Some? then VStr(traceId.value) else VNone;
        JsonResponse(500, [("error", VStr(InternalMessage)), ("type", VStr(e.kind)), ("request_id", requestId)])
  }

  /** A response passes through untouched, cancellation and the other non-`Exception`
      classes propagate, memory exhaustion becomes 503, and every other exception
      becomes 500 naming only the exception's class and the request id: the
      exception's message never reaches the client. */
  lemma GuardRequestOutcomes(result: Downstream, traceId: Option<string>)
    ensures var r := GuardRequest(result, traceId);
      && (result.Responded? ==> r == PassedThrough(result.status))
      && (result.Raised? && (result.error.kind == "CancelledError" || IsBaseOnly(result.error.kind)) ==> r == Propagated(result.error))
      && (result.Raised? && result.error.kind == "MemoryError" ==>
            r.JsonResponse? && r.status == 503 && Lookup(r.body, "error") == Some(VStr(MemoryMessage)))
      && (result.Raised? && !IsBaseOnly(result.error.kind) && result.error.kind != "MemoryError" ==>
            && r.JsonResponse? && r.status == 500
            && Lookup(r.body, "error") == Some(VStr(InternalMessage))
            && Lookup(r.body, "type") == Some(VStr(result.error.kind))
            && Lookup(r.body, "request_id") == (if traceId.Some? then Some(VStr(traceId.value)) else Some(VNone))
            && forall i :: 0 <= i < |r.body| ==> r.body[i].0 in {"error", "type", "request_id"})
      && (r.JsonResponse? ==> r.status >= 500)
  {
    var r := GuardRequest(result, traceId);
    if result.Raised? && !IsBaseOnly(result.error.kind) && result.error.kind != "MemoryError" {
      LookupFirst(r.body, 2, "request_id");
    }
  }

  // ---------------------------------------------------------------------------
  // CircuitBreakerMiddleware
  // ---------------------------------------------------------------------------

  /** The constructor's settings: `failure_threshold`, `reset_timeout` (seconds) and
      `half_open_requests`. */
  datatype Config = Config(failureThreshold: int, resetTimeout: real, halfOpenRequests: int)

  /** The constructor's defaults. */
  const DefaultConfig: Config := Config(10, 60.0, 3)

  /** The four fields a breaker updates. */
  datatype Breaker = Breaker(failureCount: int, lastFailureTime: real, circuitOpen: bool, halfOpenSuccesses: int)

  /** The fields as the constructor sets them. */
  const Initial: Breaker := Breaker(0, 0.0, false, 0)

  const OpenMessage: string := "Service temporarily unavailable (circuit open)"

  /** `_record_failure(now)`. */
  function WithFailure(b: Breaker, cfg: Config, now: real): (r: Breaker)
    ensures r.failureCount == b.failureCount + 1 && r.lastFailureTime == now
    ensures r.circuitOpen <==> b.circuitOpen || r.failureCount >= cfg.failureThreshold
    ensures r.halfOpenSuccesses == b.halfOpenSuccesses
  {
    var counted := b.(failureCount := b.failureCount + 1, lastFailureTime := now);
    if counted.failureCount >= cfg.failureThreshold then counted.(circuitOpen := true) else counted
  }

  /** The check before `call_next`: None when the request is rejected with 503,
      otherwise the state the request is forwarded in. */
  function Admit(b: Breaker, cfg: Config, now: real): Option<Breaker>
  {
    if !b.circuitOpen then Some(b)
    else if now - b.lastFailureTime > cfg.resetTimeout then Some(b.(circuitOpen := false, halfOpenSuccesses := 0))
    else None
  }

  /** The bookkeeping after `call_next`, from the state `b` it finds then. */
  function Settled(b: Breaker, cfg: Config, now: real, result: Downstream): Breaker
  {
    match result
    case Responded(status) =>
      if status < 500 then
        if !b.circuitOpen then b.(failureCount := 0)
        else
          var counted := b.(halfOpenSuccesses := b.halfOpenSuccesses + 1);
          if counted.halfOpenSuccesses >= cfg.halfOpenRequests then counted.(circuitOpen := false, failureCount := 0)
          else counted
      else WithFailure(b, cfg, now)
    case Raised(e) => if IsBaseOnly(e.kind) then b else WithFailure(b, cfg, now)
  }

  /** One request through `CircuitBreakerMiddleware.dispatch`: the new fields and the
      response. `result` is what `call_next` gives when it is called. */
  function Step(b: Breaker, cfg: Config, now: real, result: Downstream): (Breaker, Response)
  {
    match Admit(b, cfg, now)
    case None => (b, JsonResponse(503, [("error", VStr(OpenMessage))]))
    case Some(admitted) =>
      var after := Settled(admitted, cfg, now, result);
      (after, if result.Responded? then PassedThrough(result.status) else Propagated(result.error))
  }

  /** A request is rejected, without calling downstream and without changing any
      field, exactly when the circuit is open and the reset timeout has not yet
      passed since the last failure. */
  lemma RejectsExactlyWhileOpen(b: Breaker, cfg: Config, now: real, result: Downstream)
    ensures var (after, response) := Step(b, cfg, now, result);
      && (response == JsonResponse(503, [("error", VStr(OpenMessage))])
          <==> b.circuitOpen && now - b.lastFailureTime <= cfg.resetTimeout)
      && (b.circuitOpen && now - b.lastFailureTime <= cfg.resetTimeout ==> after == b)
  {
  }

  /** A forwarded request's own response or exception is what the client sees, and
      the breaker counts exactly one failure for a 5xx status or an exception caught
      by `except Exception`, clears the count for any other status, and leaves the
      fields as the admission check left them when a cancellation or another
      non-`Exception` raise passes through. */
  lemma ForwardedOutcome(b: Breaker, cfg: Config, now: real, result: Downstream)
    requires Admit(b, cfg, now).Some?
    ensures var (after, response) := Step(b, cfg, now, result);
      && (result.Responded? ==> response == PassedThrough(result.status))
      && (result.Raised? ==> response == Propagated(result.error))
      && (result.Responded? && result.status < 500 ==> after.failureCount == 0 && !after.circuitOpen)
      && (result.Raised? && IsBaseOnly(result.error.kind) ==>
            after == Admit(b, cfg, now).value && after.failureCount == b.failureCount
            && after.lastFailureTime == b.lastFailureTime && !after.circuitOpen)
      && (!(result.Responded? && result.status < 500) && !(result.Raised? && IsBaseOnly(result.error.kind)) ==>
            after.failureCount == b.failureCount + 1 && after.lastFailureTime == now
            && (after.circuitOpen <==> after.failureCount >= cfg.failureThreshold))
  {
  }

  /** Once the timeout has passed, the circuit closes before the request is forwarded;
      the failure count is left as it was, and half-open successes restart at zero. */
  lemma TimeoutClosesBeforeForwarding(b: Breaker, cfg: Config, now: real)
    requires b.circuitOpen && now - b.lastFailureTime > cfg.resetTimeout
    ensures Admit(b, cfg, now) == Some(Breaker(b.failureCount, b.lastFailureTime, false, 0))
  {
  }

  /** In one request, the check before `call_next` always leaves the circuit closed, so
      the half-open success branch never runs and `half_open_successes` is never
      incremented: `half_open_requests` has no effect. */
  lemma HalfOpenBranchUnreachable(b: Breaker, cfg: Config, now: real, result: Downstream)
    ensures Admit(b, cfg, now).Some? ==> !Admit(b, cfg, now).value.circuitOpen
    ensures Step(b, cfg, now, result).0.halfOpenSuccesses in {b.halfOpenSuccesses, 0}
  {
  }

  /** The states the breaker can reach from its constructor: an open circuit has
      counted at least `failure_threshold` failures, the count is never negative, and
      `half_open_successes` is still zero. */
  ghost predicate Reachable(b: Breaker, cfg: Config)
  {
    && b.failureCount >= 0
    && (b.circuitOpen ==> b.failureCount >= cfg.failureThreshold)
    && b.halfOpenSuccesses == 0
  }

  lemma DispatchKeepsReachable(b: Breaker, cfg: Config, now: real, result: Downstream)
    requires Reachable(b, cfg)
    ensures Reachable(Step(b, cfg, now, result).0, cfg)
  {
  }

  /** A sequence of requests, each with its clock reading and downstream outcome. */
  function Run(b: Breaker, cfg: Config, requests: seq<(real, Downstream)>): Breaker
    decreases |requests|
  {
    if |requests| == 0 then b
    else Run(Step(b, cfg, requests[0].0, requests[0].1).0, cfg, requests[1..])
  }

  /** Every state a run of requests reaches from the constructor's state satisfies
      `Reachable`; in particular `half_open_successes` stays zero forever. */
  lemma {:induction false} RunKeepsReachable(b: Breaker, cfg: Config, requests: seq<(real, Downstream)>)
    requires Reachable(b, cfg)
    ensures Reachable(Run(b, cfg, requests), cfg)
    ensures Run(b, cfg, requests).halfOpenSuccesses == 0
    decreases |requests|
  {
    if |requests| > 0 {
      DispatchKeepsReachable(b, cfg, requests[0].0, requests[0].1);
      RunKeepsReachable(Step(b, cfg, requests[0].0, requests[0].1).0, cfg, requests[1..]);
    }
  }

  lemma InitialReachable(cfg: Config)
    requires cfg.failureThreshold > 0
    ensures Reachable(Initial, cfg)
  {
  }

  /** Because the count is not cleared when the timeout closes the circuit, a single
      failing request after the timeout opens it again straight away. */
  lemma FailureAfterTimeoutReopens(b: Breaker, cfg: Config, now: real, result: Downstream)
    requires Reachable(b, cfg)
    requires b.circuitOpen && now - b.lastFailureTime > cfg.resetTimeout
    requires !(result.Responded? && result.status < 500)
    requires !(result.Raised? && IsBaseOnly(result.error.kind))
    ensures Step(b, cfg, now, result).0.circuitOpen
    ensures Step(b, cfg, now, result).0.lastFailureTime == now
  {
  }

  /** A cancellation after the timeout is not a failure: the circuit stays closed and
      the count and the time of the last failure are those from before. */
  lemma CancellationAfterTimeoutStaysClosed(b: Breaker, cfg: Config, now: real, e: PyError)
    requires b.circuitOpen && now - b.lastFailureTime > cfg.resetTimeout
    requires IsBaseOnly(e.kind)
    ensures var after := Step(b, cfg, now, Raised(e)).0;
      !after.circuitOpen && after.failureCount == b.failureCount && after.lastFailureTime == b.lastFailureTime
  {
  }

  /** A single successful request after the timeout closes the circuit for good and
      clears the count, whatever `half_open_requests` says. */
  lemma SuccessAfterTimeoutCloses(b: Breaker, cfg: Config, now: real, status: int)
    requires b.circuitOpen && now - b.lastFailureTime > cfg.resetTimeout && status < 500
    ensures var after := Step(b, cfg, now, Responded(status)).0;
      !after.circuitOpen && after.failureCount == 0
  {
  }

  /** `n` server errors arriving at the same instant. */
  function Burst(now: real, n: nat): (r: seq<(real, Downstream)>)
    ensures |r| == n
    ensures forall i :: 0 <= i < n ==> r[i] == (now, Responded(500))
  {
    seq(n, i => (now, Responded(500)))
  }

  /** From a closed circuit, a burst of at least `failure_threshold − failure_count`
      server errors opens it, and it is still open at the end of the burst (the
      requests after the opening one are rejected). */
  lemma {:induction false} BurstOpens(b: Breaker, cfg: Config, now: real, n: nat)
    requires !b.circuitOpen && cfg.resetTimeout >= 0.0 && b.lastFailureTime <= now
    requires n >= 1 && b.failureCount + n >= cfg.failureThreshold
    ensures Run(b, cfg, Burst(now, n)).circuitOpen
    ensures Run(b, cfg, Burst(now, n)).lastFailureTime == now
    decreases n
  {
    var next := Step(b, cfg, now, Responded(500)).0;
    assert Burst(now, n)[1..] == Burst(now, n - 1);
    if next.circuitOpen {
      StaysOpenWithinTimeout(next, cfg, now, n - 1);
    } else {
      BurstOpens(next, cfg, now, n - 1);
    }
  }

  /** Requests at the instant of the last failure keep an open circuit as it is. */
  lemma {:induction false} StaysOpenWithinTimeout(b: Breaker, cfg: Config, now: real, n: nat)
    requires b.circuitOpen && b.lastFailureTime == now && cfg.resetTimeout >= 0.0
    ensures Run(b, cfg, Burst(now, n)) == b
  {
    if n > 0 {
      assert Burst(now, n)[1..] == Burst(now, n - 1);
      StaysOpenWithinTimeout(b, cfg, now, n - 1);
    }
  }

  /** `CircuitBreakerMiddleware`, with the four fields `dispatch` updates. */
  class CircuitBreakerMiddleware {
    const failureThreshold: int
    const resetTimeout: real
    const halfOpenRequests: int

    var failureCount: int
    var lastFailureTime: real
    var circuitOpen: bool
    var halfOpenSuccesses: int

    function Settings(): Config
    {
      Config(failureThreshold, resetTimeout, halfOpenRequests)
    }

    function State(): Breaker
      reads this
    {
      Breaker(failureCount, lastFailureTime, circuitOpen, halfOpenSuccesses)
    }

    constructor (cfg: Config)
      ensures Settings() == cfg && State() == Initial
    {
      failureThreshold := cfg.failureThreshold;
      resetTimeout := cfg.resetTimeout;
      halfOpenRequests := cfg.halfOpenRequests;
      failureCount := 0;
      lastFailureTime := 0.0;
      circuitOpen := false;
      halfOpenSuccesses := 0;
    }

    /** `_record_failure(now)` */
    method RecordFailure(now: real)
      modifies this
      ensures State() == WithFailure(old(State()), Settings(), now)
    {
      failureCount := failureCount + 1;
      lastFailureTime := now;
      if failureCount >= failureThreshold {
        circuitOpen := true;
      }
    }

    /** `dispatch`: `result` is what `call_next` gives when it is called. */
    method Dispatch(now: real, result: Downstream) returns (response: Response)
      modifies this
      ensures (State(), response) == Step(old(State()), Settings(), now, result)
    {
      if circuitOpen {
        if now - lastFailureTime > resetTimeout {
          circuitOpen := false;
          halfOpenSuccesses := 0;
        } else {
          return JsonResponse(503, [("error", VStr(OpenMessage))]);
        }
      }
      Settle(now, result);
      response := if result.Responded? then PassedThrough(result.status) else Propagated(result.error);
    }

    /** The part of `dispatch` after `call_next` returns or raises, from whatever the
        fields are by then. */
    method Settle(now: real, result: Downstream)
      modifies this
      ensures State() == Settled(old(State()), Settings(), now, result)
    {
      match result
      case Responded(status) =>
        if status < 500 {
          if !circuitOpen {
            failureCount := 0;
          } else {
            halfOpenSuccesses := halfOpenSuccesses + 1;
            if halfOpenSuccesses >= halfOpenRequests {
              circuitOpen := false;
              failureCount := 0;
            }
          }
        } else {
          RecordFailure(now);
        }
      case Raised(e) =>
        if !IsBaseOnly(e.kind) {
          RecordFailure(now);
        }
    }
  }
}
