/** CurlHttpClient::Execute: borrowing a handle, one transfer at a time, with bounded retries
    and back-off under one deadline. libcurl, the pool and the scheduler are an adversary that
    answers each blocking call from the whole history so far. */
module HttpExecute {
  import opened Options

  /** steady_clock counts nanoseconds; every timeout is a whole number of milliseconds. */
  const TICKS_PER_MS := 1_000_000
  const MIN_HTTP_STATUS_CODE := 100
  const MAX_HTTP_STATUS_CODE := 599

  datatype RetryConfig = RetryConfig(maxAttempts: int, delay: int)
  datatype Config = Config(
    acquireTimeout: int, requestTimeout: int,
    acquireRetry: RetryConfig, connectRetry: RetryConfig, requestRetry: RetryConfig)
  datatype Request = Request(url: string, timeout: Option<int>)

  predicate ValidRetry(retry: RetryConfig) {
    retry.maxAttempts > 0 && retry.delay >= 0
  }

  /** What the constructor checks; it throws otherwise. */
  predicate Validated(config: Config) {
    ValidRetry(config.acquireRetry) && ValidRetry(config.connectRetry) && ValidRetry(config.requestRetry)
  }

  datatype ConfigFault = AttemptsNotPositive(retry: string) | NegativeDelay(retry: string)

  method ValidateRetryConfig(name: string, retry: RetryConfig) returns (fault: Option<ConfigFault>)
    ensures fault == None <==> ValidRetry(retry)
    ensures fault == Some(AttemptsNotPositive(name)) <==> retry.maxAttempts < 1
    ensures fault == Some(NegativeDelay(name)) <==> 1 <= retry.maxAttempts && retry.delay < 0
  {
    if retry.maxAttempts <= 0 {
      return Some(AttemptsNotPositive(name));
    }
    if retry.delay < 0 {
      return Some(NegativeDelay(name));
    }
    return None;
  }

  /** A client can be built exactly if every retry allows an attempt and no delay is negative;
      otherwise the fault is that of the first retry that has one. */
  method ValidateCurlHttpClientConfig(config: Config) returns (fault: Option<ConfigFault>)
    ensures fault == None <==> Validated(config)
    ensures fault == None <==>
            && 1 <= config.acquireRetry.maxAttempts && 1 <= config.connectRetry.maxAttempts
            && 1 <= config.requestRetry.maxAttempts && 0 <= config.acquireRetry.delay
            && 0 <= config.connectRetry.delay && 0 <= config.requestRetry.delay
    ensures !ValidRetry(config.acquireRetry) <==>
            fault in {Some(AttemptsNotPositive("acquire_retry")), Some(NegativeDelay("acquire_retry"))}
    ensures ValidRetry(config.acquireRetry) && !ValidRetry(config.connectRetry) <==>
            fault in {Some(AttemptsNotPositive("connect_retry")), Some(NegativeDelay("connect_retry"))}
    ensures ValidRetry(config.acquireRetry) && ValidRetry(config.connectRetry) && !ValidRetry(config.requestRetry) <==>
            fault in {Some(AttemptsNotPositive("request_retry")), Some(NegativeDelay("request_retry"))}
  {
    fault := ValidateRetryConfig("acquire_retry", config.acquireRetry);
    if fault.Some? {
      assert "acquire_retry"[0] != "connect_retry"[0] && "acquire_retry"[0] != "request_retry"[0];
      return;
    }
    fault := ValidateRetryConfig("connect_retry", config.connectRetry);
    if fault.Some? {
      assert "connect_retry"[0] != "acquire_retry"[0] && "connect_retry"[0] != "request_retry"[0];
      return;
    }
    fault := ValidateRetryConfig("request_retry", config.requestRetry);
    assert "request_retry"[0] != "connect_retry"[0] && "request_retry"[0] != "acquire_retry"[0];
  }

  // ----- one transfer ----------------------------------------------------------------------

  datatype CurlCode =
    | CurlOk | CouldntResolveProxy | CouldntResolveHost | CouldntConnect | SslConnectError
    | SendError | RecvError | GotNothing | PartialFile | OperationTimedOut | OtherError(code: int)
  datatype Outcome = ListAllocationFailed | Performed(code: CurlCode, status: int)
  datatype RetryStage = NoRetry | ConnectRetry | RequestRetry
  datatype Answer = Success(status: int) | StatusError(status: int) | TransportError | BadRequest
  datatype Attempt = Attempt(answer: Answer, stage: RetryStage)
  datatype Result = Answered(answer: Answer) | EmptyUrl | DeadlineExceeded | PoolAcquireTimeout

  predicate IsRetryableConnectError(code: CurlCode) {
    code.CouldntResolveProxy? || code.CouldntResolveHost? || code.CouldntConnect? || code.SslConnectError?
  }

  predicate IsRetryableRequestError(code: CurlCode) {
    code.SendError? || code.RecvError? || code.GotNothing? || code.PartialFile? || code.OperationTimedOut?
  }

  predicate IsRetryableHttpStatus(status: int) {
    status == 429 || status >= 500
  }

  /** How PerformOnceWithLease reads a finished transfer. */
  function Classify(outcome: Outcome): Attempt {
    match outcome
    case ListAllocationFailed => Attempt(BadRequest, NoRetry)
    case Performed(code, status) =>
      if code != CurlOk then
        Attempt(TransportError,
                if (code == OperationTimedOut && status == 0) || IsRetryableConnectError(code) then ConnectRetry
                else if IsRetryableRequestError(code) then RequestRetry
                else NoRetry)
      else if !(MIN_HTTP_STATUS_CODE <= status <= MAX_HTTP_STATUS_CODE) then
        Attempt(TransportError, NoRetry)
      else if status < 200 || status >= 400 then
        Attempt(StatusError(status), if IsRetryableHttpStatus(status) then RequestRetry else NoRetry)
      else
        Attempt(Success(status), NoRetry)
  }

  // ----- time ------------------------------------------------------------------------------

  /** Whole milliseconds left, rounded down; None without a deadline. */
  function RemainingTimeout(deadline: Option<int>, now: int): (r: Option<int>)
    ensures r.Some? <==> deadline.Some?
    ensures r.Some? ==> r.value >= 0
    ensures r.Some? && now <= deadline.value ==>
              now + r.value * TICKS_PER_MS <= deadline.value < now + (r.value + 1) * TICKS_PER_MS
    ensures r.Some? && deadline.value < now + TICKS_PER_MS ==> r.value == 0
  {
    match deadline
    case None => None
    case Some(d) => Some(if d - now <= 0 then 0 else (d - now) / TICKS_PER_MS)
  }

  predicate HasTimeRemaining(deadline: Option<int>, now: int) {
    var r := RemainingTimeout(deadline, now);
    r.None? || r.value > 0
  }

  function BoundByDeadline(timeout: int, deadline: Option<int>, now: int): (bound: int)
    ensures bound <= timeout
    ensures deadline.Some? && bound > 0 ==> now + bound * TICKS_PER_MS <= deadline.value
    ensures deadline.None? ==> bound == timeout
  {
    match RemainingTimeout(deadline, now)
    case None => timeout
    case Some(r) => if timeout <= r then timeout else r
  }

  // ----- histories -------------------------------------------------------------------------

  /** `begin` and `end` are clock readings, `bound` the timeout handed to the call. */
  datatype Event =
    | Acquire(begin: int, bound: int, end: int, handle: Option<nat>)
    | Transfer(begin: int, bound: int, end: int, lease: nat, outcome: Outcome)
    | Sleep(begin: int, bound: int, end: int)
    | Release(at: int, lease: nat)

  function EndOf(e: Event): int {
    if e.Release? then e.at else e.end
  }

  function Clock(start: int, trace: seq<Event>): int {
    if trace == [] then start else EndOf(trace[|trace| - 1])
  }

  /** Handles borrowed and not yet returned. */
  function Held(trace: seq<Event>): multiset<nat> {
    if trace == [] then multiset{}
    else
      var before := Held(trace[..|trace| - 1]);
      match trace[|trace| - 1]
      case Acquire(_, _, _, Some(h)) => before + multiset{h}
      case Release(_, h) => before - multiset{h}
      case _ => before
  }

  function Transfers(trace: seq<Event>): nat {
    if trace == [] then 0
    else Transfers(trace[..|trace| - 1]) + if trace[|trace| - 1].Transfer? then 1 else 0
  }

  function StageOf(e: Event): RetryStage {
    if e.Transfer? then Classify(e.outcome).stage else NoRetry
  }

  /** Transfers that asked to be retried at `stage`. */
  function Failures(trace: seq<Event>, stage: RetryStage): nat {
    if trace == [] then 0
    else
      var last := trace[|trace| - 1];
      Failures(trace[..|trace| - 1], stage) + if last.Transfer? && StageOf(last) == stage then 1 else 0
  }

  /** Calls to Acquire since the last transfer. */
  function AcquiresThisRound(trace: seq<Event>): nat {
    if trace == [] || trace[|trace| - 1].Transfer? then 0
    else AcquiresThisRound(trace[..|trace| - 1]) + if trace[|trace| - 1].Acquire? then 1 else 0
  }

  // ----- the retry policy ------------------------------------------------------------------

  datatype Action =
    | DoAcquire(bound: int)
    | DoTransfer(lease: nat, bound: int)
    | DoSleep(bound: int)
    | DoRelease(lease: nat)
    | Finish(result: Result)

  function TryAcquire(config: Config, deadline: Option<int>, now: int): Action {
    var bound := BoundByDeadline(config.acquireTimeout, deadline, now);
    if bound <= 0 then Finish(DeadlineExceeded) else DoAcquire(bound)
  }

  function BeginRound(config: Config, deadline: Option<int>, now: int): Action {
    if HasTimeRemaining(deadline, now) then TryAcquire(config, deadline, now) else Finish(DeadlineExceeded)
  }

  function RetryOf(config: Config, stage: RetryStage): RetryConfig {
    if stage == ConnectRetry then config.connectRetry else config.requestRetry
  }

  /** Back off for `delay`, or go straight to `onward` when no whole millisecond is left to wait. */
  function BackOff(delay: int, deadline: Option<int>, now: int, onward: Action): Action {
    var bound := BoundByDeadline(delay, deadline, now);
    if bound > 0 then DoSleep(bound) else onward
  }

  /** What must happen next, as a function of the history alone: no counters, no loops. */
  function NextAction(config: Config, deadline: Option<int>, start: int, trace: seq<Event>): Action {
    var now := Clock(start, trace);
    if trace == [] then BeginRound(config, deadline, now)
    else
      var n := |trace|;
      match trace[n - 1]
      case Acquire(_, _, _, Some(h)) =>
        var bound := BoundByDeadline(config.requestTimeout, deadline, now);
        if bound <= 0 then DoRelease(h) else DoTransfer(h, bound)
      case Acquire(_, _, _, None) =>
        if AcquiresThisRound(trace) >= config.acquireRetry.maxAttempts then Finish(PoolAcquireTimeout)
        else BackOff(config.acquireRetry.delay, deadline, now, TryAcquire(config, deadline, now))
      case Transfer(_, _, _, h, _) => DoRelease(h)
      case Release(_, _) =>
        if n < 2 || !trace[n - 2].Transfer? then Finish(DeadlineExceeded)
        else
          var attempt := Classify(trace[n - 2].outcome);
          if attempt.stage == NoRetry || Failures(trace, attempt.stage) >= RetryOf(config, attempt.stage).maxAttempts
          then Finish(Answered(attempt.answer))
          else BackOff(RetryOf(config, attempt.stage).delay, deadline, now, BeginRound(config, deadline, now))
      case Sleep(_, _, _) =>
        if n >= 2 && trace[n - 2].Acquire? then TryAcquire(config, deadline, now)
        else BeginRound(config, deadline, now)
  }

  predicate Carries(action: Action, now: int, e: Event) {
    match e
    case Acquire(begin, bound, end, _) => action == DoAcquire(bound) && begin == now <= end
    case Transfer(begin, bound, end, lease, _) => action == DoTransfer(lease, bound) && begin == now <= end
    case Sleep(begin, bound, end) => action == DoSleep(bound) && begin == now <= end
    case Release(at, lease) => action == DoRelease(lease) && at == now
  }

  /** Every event of the history is the one the policy asked for. */
  predicate Follows(config: Config, deadline: Option<int>, start: int, trace: seq<Event>) {
    trace == [] ||
    (var before := trace[..|trace| - 1];
     Follows(config, deadline, start, before) &&
     Carries(NextAction(config, deadline, start, before), Clock(start, before), trace[|trace| - 1]))
  }

  // ----- the loop --------------------------------------------------------------------------

  /** How each blocking call turns out and how many ticks it takes. */
  datatype World = World(
    acquire: seq<Event> -> (Option<nat>, nat),
    transfer: seq<Event> -> (Outcome, nat),
    sleep: seq<Event> -> nat)

  predicate AnswerOf(world: World, trace: seq<Event>, e: Event) {
    match e
    case Acquire(begin, _, end, handle) =>
      handle == world.acquire(trace).0 && end == begin + world.acquire(trace).1
    case Transfer(begin, _, end, _, outcome) =>
      outcome == world.transfer(trace).0 && end == begin + world.transfer(trace).1
    case Sleep(begin, _, end) => end == begin + world.sleep(trace)
    case Release(_, _) => true
  }

  /** Every call of the history turned out as the world decides after what came before it. */
  predicate AnsweredBy(world: World, trace: seq<Event>) {
    trace == [] ||
    (AnsweredBy(world, trace[..|trace| - 1]) && AnswerOf(world, trace[..|trace| - 1], trace[|trace| - 1]))
  }

  function Deadline(request: Request, start: int): Option<int> {
    if request.timeout.Some? then Some(start + request.timeout.value * TICKS_PER_MS) else None
  }

  lemma {:induction false} Extend(config: Config, deadline: Option<int>, start: int, world: World, trace: seq<Event>,
          e: Event)
    requires Follows(config, deadline, start, trace) && AnsweredBy(world, trace)
    requires AnswerOf(world, trace, e)
    requires Carries(NextAction(config, deadline, start, trace), Clock(start, trace), e)
    ensures Follows(config, deadline, start, trace + [e]) && AnsweredBy(world, trace + [e])
    ensures Clock(start, trace + [e]) == EndOf(e)
    ensures Transfers(trace + [e]) == Transfers(trace) + if e.Transfer? then 1 else 0
    ensures forall s :: Failures(trace + [e], s) == Failures(trace, s) + if e.Transfer? && StageOf(e) == s then 1 else 0
    ensures AcquiresThisRound(trace + [e]) ==
            if e.Transfer? then 0 else AcquiresThisRound(trace) + if e.Acquire? then 1 else 0
  {
    hide NextAction, Carries, AnswerOf;
    assert (trace + [e])[..|trace|] == trace;
  }

  lemma {:induction false} NothingYet(config: Config, deadline: Option<int>, start: int)
    ensures Follows(config, deadline, start, [])
    ensures forall world :: AnsweredBy(world, [])
    ensures Clock(start, []) == start
    ensures NextAction(config, deadline, start, []) == BeginRound(config, deadline, start)
    ensures forall s :: Failures([], s) == 0
    ensures AcquiresThisRound([]) == 0 && Transfers([]) == 0
  {
  }

  /** What is a success, what is retried, and at which stage: a timeout counts as a connect
      failure exactly when no response status had arrived, and a success is never retried. */
  lemma {:induction false} Verdicts(outcome: Outcome)
    ensures var a := Classify(outcome);
            && (a.answer.Success? <==> outcome.Performed? && outcome.code == CurlOk && 200 <= outcome.status < 400)
            && (a.answer.Success? ==> a.stage == NoRetry)
            && (outcome.ListAllocationFailed? ==> a.stage == NoRetry)
    ensures Classify(outcome).stage == ConnectRetry <==>
              outcome.Performed? &&
              (outcome.code in {CouldntResolveProxy, CouldntResolveHost, CouldntConnect, SslConnectError} ||
               (outcome.code == OperationTimedOut && outcome.status == 0))
    ensures Classify(outcome).stage == RequestRetry <==>
              outcome.Performed? &&
              (outcome.code in {SendError, RecvError, GotNothing, PartialFile} ||
               (outcome.code == OperationTimedOut && outcome.status != 0) ||
               (outcome.code == CurlOk && (outcome.status == 429 || 500 <= outcome.status <= 599)))
    ensures Classify(outcome).answer ==
            if outcome.ListAllocationFailed? then BadRequest
            else if outcome.code != CurlOk || outcome.status < 100 || outcome.status > 599 then TransportError
            else if outcome.status < 200 || outcome.status > 399 then StatusError(outcome.status)
            else Success(outcome.status)
  {
  }

  /** Sleeps only while the policy says so, and then goes on to `onward`. */
  method SleepBeforeRetry(config: Config, delay: int, deadline: Option<int>, start: int, world: World,
                          trace: seq<Event>, ghost onward: int -> Action)
    returns (after: seq<Event>, end: int)
    requires Follows(config, deadline, start, trace) && AnsweredBy(world, trace) && trace != []
    requires var now := Clock(start, trace);
             NextAction(config, deadline, start, trace) == BackOff(delay, deadline, now, onward(now))
    requires forall e: Event :: e.Sleep? ==> NextAction(config, deadline, start, trace + [e]) == onward(e.end)
    ensures Follows(config, deadline, start, after) && AnsweredBy(world, after)
    ensures end == Clock(start, after) >= Clock(start, trace)
    ensures NextAction(config, deadline, start, after) == onward(end)
    ensures forall s :: Failures(after, s) == Failures(trace, s)
    ensures AcquiresThisRound(after) == AcquiresThisRound(trace)
  {
    hide NextAction, Failures, AcquiresThisRound, Follows, AnsweredBy, BoundByDeadline;
    var now := Clock(start, trace);
    after, end := trace, now;
    var bound := BoundByDeadline(delay, deadline, now);
    if bound > 0 {
      end := now + world.sleep(trace);
      var e := Sleep(now, bound, end);
      Extend(config, deadline, start, world, trace, e);
      after := trace + [e];
    }
  }

  /** The inner loop of a round: borrow a handle, backing off between attempts. */
  method BorrowHandle(config: Config, deadline: Option<int>, start: int, world: World, history: seq<Event>)
    returns (lease: Option<nat>, outOfTime: bool, trace: seq<Event>, end: int)
    requires Validated(config) && Follows(config, deadline, start, history) && AnsweredBy(world, history)
    requires NextAction(config, deadline, start, history) == TryAcquire(config, deadline, Clock(start, history))
    requires AcquiresThisRound(history) == 0
    ensures Follows(config, deadline, start, trace) && AnsweredBy(world, trace) && end == Clock(start, trace)
    ensures forall s :: Failures(trace, s) == Failures(history, s)
    ensures lease.Some? ==> trace != [] && trace[|trace| - 1].Acquire? && trace[|trace| - 1].handle == lease
    ensures outOfTime ==> lease == None
    ensures lease == None ==>
              NextAction(config, deadline, start, trace) ==
              Finish(if outOfTime then DeadlineExceeded else PoolAcquireTimeout)
  {
    hide Follows, AnsweredBy, Failures, AcquiresThisRound, Transfers, BoundByDeadline, HasTimeRemaining, Classify;
    lease, outOfTime, trace, end := None, false, history, Clock(start, history);
    var acquireAttempt := 1;
    while acquireAttempt <= config.acquireRetry.maxAttempts
      invariant 1 <= acquireAttempt <= config.acquireRetry.maxAttempts + 1
      invariant Follows(config, deadline, start, trace) && AnsweredBy(world, trace) && end == Clock(start, trace)
      invariant lease == None && acquireAttempt == AcquiresThisRound(trace) + 1
      invariant NextAction(config, deadline, start, trace) ==
                if acquireAttempt <= config.acquireRetry.maxAttempts then TryAcquire(config, deadline, end)
                else Finish(PoolAcquireTimeout)
      invariant forall s :: Failures(trace, s) == Failures(history, s)
    {
      var acquireTimeout := BoundByDeadline(config.acquireTimeout, deadline, end);
      if acquireTimeout <= 0 {
        return None, true, trace, end;
      }
      var answer := world.acquire(trace);
      var e := Acquire(end, acquireTimeout, end + answer.1, answer.0);
      Extend(config, deadline, start, world, trace, e);
      lease, trace, end := answer.0, trace + [e], e.end;
      if lease.Some? {
        break;
      }
      if acquireAttempt < config.acquireRetry.maxAttempts {
        trace, end := SleepBeforeRetry(config, config.acquireRetry.delay, deadline, start, world, trace,
                                       now => TryAcquire(config, deadline, now));
      }
      acquireAttempt := acquireAttempt + 1;
    }
  }

  /** A finished call: its history follows the policy and the world, and its result is the policy's. */
  ghost predicate IsExecution(config: Config, request: Request, start: int, world: World, result: Result,
          trace: seq<Event>, end: int)
  {
    && (if request.url == "" then result == EmptyUrl && trace == []
        else Follows(config, Deadline(request, start), start, trace) && AnsweredBy(world, trace) &&
             NextAction(config, Deadline(request, start), start, trace) == Finish(result))
    && end == Clock(start, trace)
  }

  /** The source's loop follows the policy to its end and returns what the policy says. */
  method Execute(config: Config, request: Request, start: int, world: World)
    returns (result: Result, trace: seq<Event>, end: int)
    requires Validated(config)
    ensures IsExecution(config, request, start, world, result, trace, end)
  {
    hide Follows, AnsweredBy, Failures, AcquiresThisRound, Transfers, BoundByDeadline, HasTimeRemaining, Classify;
    trace, end := [], start;
    if request.url == "" {
      return EmptyUrl, trace, end;
    }
    var connectAttempts, requestAttempts := 0, 0;
    var deadline := Deadline(request, start);
    NothingYet(config, deadline, start);
    while true
      invariant Follows(config, deadline, start, trace) && AnsweredBy(world, trace) && end == Clock(start, trace)
      invariant NextAction(config, deadline, start, trace) == BeginRound(config, deadline, end)
      invariant connectAttempts == Failures(trace, ConnectRetry) < config.connectRetry.maxAttempts
      invariant requestAttempts == Failures(trace, RequestRetry) < config.requestRetry.maxAttempts
      invariant AcquiresThisRound(trace) == 0
      decreases config.connectRetry.maxAttempts + config.requestRetry.maxAttempts - connectAttempts - requestAttempts
    {
      if !HasTimeRemaining(deadline, end) {
        return DeadlineExceeded, trace, end;
      }

      var lease, outOfTime;
      lease, outOfTime, trace, end := BorrowHandle(config, deadline, start, world, trace);
      if outOfTime {
        return DeadlineExceeded, trace, end;
      }
      if lease == None {
        return PoolAcquireTimeout, trace, end;
      }

      var requestTimeout := BoundByDeadline(config.requestTimeout, deadline, end);
      if requestTimeout <= 0 {
        Extend(config, deadline, start, world, trace, Release(end, lease.value));
        trace := trace + [Release(end, lease.value)];
        return DeadlineExceeded, trace, end;
      }

      var answer := world.transfer(trace);
      var e := Transfer(end, requestTimeout, end + answer.1, lease.value, answer.0);
      Extend(config, deadline, start, world, trace, e);
      Extend(config, deadline, start, world, trace + [e], Release(e.end, lease.value));
      trace, end := trace + [e] + [Release(e.end, lease.value)], e.end;
      var attempt := Classify(e.outcome);
      Verdicts(e.outcome);
      if attempt.answer.Success? || attempt.stage == NoRetry {
        return Answered(attempt.answer), trace, end;
      }

      if attempt.stage == ConnectRetry {
        connectAttempts := connectAttempts + 1;
        if connectAttempts >= config.connectRetry.maxAttempts {
          return Answered(attempt.answer), trace, end;
        }
        trace, end := SleepBeforeRetry(config, config.connectRetry.delay, deadline, start, world, trace,
                                         now => BeginRound(config, deadline, now));
        continue;
      }

      requestAttempts := requestAttempts + 1;
      if requestAttempts >= config.requestRetry.maxAttempts {
        return Answered(attempt.answer), trace, end;
      }
      trace, end := SleepBeforeRetry(config, config.requestRetry.delay, deadline, start, world, trace,
                                         now => BeginRound(config, deadline, now));
    }
  }
}
