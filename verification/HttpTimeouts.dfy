/** What a request's own timeout means for the call that Execute makes of it. One tick is a
    nanosecond, a timeout counts milliseconds from the start. */
module HttpTimeouts {
  import opened HttpExecute
  import opened HttpTheorems
  import opened Options
  import opened Orders

  /** With a timeout of t milliseconds, and if no blocking call outlasts its bound by more than
      some slack, the call has ended t milliseconds after its start, plus one slack. */
  lemma {:induction false} WithinTimeout(config: Config, request: Request, start: int, world: World, result: Result,
          trace: seq<Event>, end: int, slack: nat)
    requires IsExecution(config, request, start, world, result, trace, end)
    requires request.timeout.Some? && Honoured(trace, slack)
    ensures end <= start + Max(request.timeout.value, 0) * 1_000_000 + slack
  {
    hide Follows, NextAction, AnsweredBy;
    if request.url != "" {
      ReturnsByDeadline(config, Deadline(request, start), start, trace, slack);
    }
  }

  /** With both configured timeouts positive, an exceeded deadline is reported only for a request
      with a timeout, and not before its last millisecond. */
  lemma {:induction false} ReportedLate(config: Config, request: Request, start: int, world: World,
          trace: seq<Event>, end: int)
    requires Validated(config) && config.acquireTimeout > 0 && config.requestTimeout > 0
    requires IsExecution(config, request, start, world, DeadlineExceeded, trace, end)
    ensures request.timeout.Some? && end > start + (request.timeout.value - 1) * 1_000_000
  {
    hide Follows, NextAction, AnsweredBy;
    ResultMeaning(config, Deadline(request, start), start, trace, DeadlineExceeded);
  }

  /** What the configuration allows event i: its timeout, or the delay of the retry it belongs to. */
  ghost function Allowed(config: Config, trace: seq<Event>, i: nat): int
    requires i < |trace|
  {
    match trace[i]
    case Acquire(_, _, _, _) => config.acquireTimeout
    case Transfer(_, _, _, _, _) => config.requestTimeout
    case Sleep(_, _, _) =>
      if i > 0 && trace[i - 1].Acquire? then config.acquireRetry.delay
      else if i > 1 && trace[i - 2].Transfer? && Classify(trace[i - 2].outcome).stage == ConnectRetry
      then config.connectRetry.delay
      else config.requestRetry.delay
    case Release(_, _) => 0
  }

  lemma {:induction false} AskedBound(config: Config, deadline: Option<int>, start: int, before: seq<Event>, e: Event)
    requires Carries(NextAction(config, deadline, start, before), Clock(start, before), e) && !e.Release?
    ensures var now := Clock(start, before);
            e.begin == now && e.bound == BoundByDeadline(Allowed(config, before + [e], |before|), deadline, now)
    ensures e.bound > 0
  {
    hide AcquiresThisRound, Failures, Classify, BoundByDeadline, HasTimeRemaining, Clock;
    var all := before + [e];
    assert forall j :: 0 <= j < |before| ==> all[j] == before[j];
  }

  lemma {:induction false} BoundMeaning(limit: int, deadline: Option<int>, now: int)
    ensures deadline == None ==> BoundByDeadline(limit, deadline, now) == limit
    ensures deadline.Some? && BoundByDeadline(limit, deadline, now) > 0 ==>
              var bound := BoundByDeadline(limit, deadline, now);
              bound <= limit && now + bound * 1_000_000 <= deadline.value &&
              (bound == limit || now + (bound + 1) * 1_000_000 > deadline.value)
  {
  }

  /** Every blocking call of a request without a timeout is bounded by what the configuration
      allows it; with a timeout by the smaller of that and the whole milliseconds left. */
  lemma {:induction false} CallBounds(config: Config, request: Request, start: int, world: World, result: Result,
          trace: seq<Event>, end: int, i: nat)
    requires IsExecution(config, request, start, world, result, trace, end)
    requires i < |trace| && !trace[i].Release?
    ensures request.timeout == None ==> trace[i].bound == Allowed(config, trace, i)
    ensures request.timeout.Some? ==>
              var limit := start + request.timeout.value * 1_000_000;
              && 1 <= trace[i].bound <= Allowed(config, trace, i)
              && trace[i].begin + trace[i].bound * 1_000_000 <= limit
              && (trace[i].bound == Allowed(config, trace, i) ||
                  trace[i].begin + (trace[i].bound + 1) * 1_000_000 > limit)
  {
    hide Follows, NextAction, AnsweredBy, Carries, Classify, BoundByDeadline, Clock;
    var deadline := Deadline(request, start);
    PrefixFollows(config, deadline, start, trace, i);
    AskedBound(config, deadline, start, trace[..i], trace[i]);
    assert trace[..i + 1] == trace[..i] + [trace[i]];
    assert Allowed(config, trace[..i] + [trace[i]], i) == Allowed(config, trace, i);
    BoundMeaning(Allowed(config, trace, i), deadline, trace[i].begin);
  }
}
