/** What every history that follows the retry policy keeps, whatever the adversary answers. */
module HttpTheorems {
  import opened HttpExecute
  import opened Options

  lemma {:induction false} PrefixFollows(config: Config, deadline: Option<int>, start: int, trace: seq<Event>, n: nat)
    requires Follows(config, deadline, start, trace) && n <= |trace|
    ensures Follows(config, deadline, start, trace[..n])
    ensures n < |trace| ==>
              Carries(NextAction(config, deadline, start, trace[..n]), Clock(start, trace[..n]), trace[n])
    decreases |trace|
  {
    hide NextAction, Carries, Clock;
    if n == |trace| {
      assert trace[..n] == trace;
    } else {
      var before := trace[..|trace| - 1];
      PrefixFollows(config, deadline, start, before, n);
      assert before[..n] == trace[..n];
    }
  }

  // ----- the borrowed handle -----------------------------------------------------------------

  /** The handle in hand after a history: the one just acquired or just used. */
  ghost function InHand(trace: seq<Event>): multiset<nat> {
    if trace == [] then multiset{}
    else match trace[|trace| - 1]
      case Acquire(_, _, _, Some(h)) => multiset{h}
      case Transfer(_, _, _, h, _) => multiset{h}
      case _ => multiset{}
  }

  lemma {:induction false} HandAtStep(config: Config, deadline: Option<int>, start: int, trace: seq<Event>, e: Event)
    requires Carries(NextAction(config, deadline, start, trace), Clock(start, trace), e)
    ensures e.Sleep? || e.Acquire? ==> InHand(trace) == multiset{}
    ensures e.Transfer? || e.Release? ==> InHand(trace) == multiset{e.lease}
  {
    hide AcquiresThisRound, Failures, Classify, BoundByDeadline, HasTimeRemaining, Clock;
  }

  lemma {:induction false} HandAtFinish(config: Config, deadline: Option<int>, start: int, trace: seq<Event>)
    requires NextAction(config, deadline, start, trace).Finish?
    ensures InHand(trace) == multiset{}
  {
    hide AcquiresThisRound, Failures, Classify, BoundByDeadline, HasTimeRemaining, Clock;
  }

  lemma {:induction false} HeldIsInHand(config: Config, deadline: Option<int>, start: int, trace: seq<Event>)
    requires Follows(config, deadline, start, trace)
    ensures Held(trace) == InHand(trace)
  {
    hide NextAction, Carries, Clock;
    if trace != [] {
      var n := |trace| - 1;
      HeldIsInHand(config, deadline, start, trace[..n]);
      HandAtStep(config, deadline, start, trace[..n], trace[n]);
    }
  }

  /** No handle is held while sleeping or queueing for one, each transfer runs on the one handle
      borrowed for it, and when Execute returns everything borrowed is back. */
  lemma {:induction false} HandleSafety(config: Config, deadline: Option<int>, start: int, trace: seq<Event>, i: nat)
    requires Follows(config, deadline, start, trace) && i <= |trace|
    ensures i < |trace| && (trace[i].Sleep? || trace[i].Acquire?) ==> Held(trace[..i]) == multiset{}
    ensures i < |trace| && (trace[i].Transfer? || trace[i].Release?) ==> Held(trace[..i]) == multiset{trace[i].lease}
    ensures NextAction(config, deadline, start, trace).Finish? ==> Held(trace) == multiset{}
  {
    hide NextAction, Carries, Follows, Held, InHand, Clock;
    PrefixFollows(config, deadline, start, trace, i);
    HeldIsInHand(config, deadline, start, trace[..i]);
    HeldIsInHand(config, deadline, start, trace);
    if i < |trace| {
      HandAtStep(config, deadline, start, trace[..i], trace[i]);
    }
    if NextAction(config, deadline, start, trace).Finish? {
      HandAtFinish(config, deadline, start, trace);
    }
  }

  // ----- how often -----------------------------------------------------------------------------

  /** Before each transfer there are attempts of both kinds left, and every earlier transfer
      used up one of them. */
  ghost predicate RetriesLeft(config: Config, trace: seq<Event>) {
    && Failures(trace, ConnectRetry) < config.connectRetry.maxAttempts
    && Failures(trace, RequestRetry) < config.requestRetry.maxAttempts
    && Failures(trace, ConnectRetry) + Failures(trace, RequestRetry) == Transfers(trace)
  }

  /** A history up to its last transfer, when the verdict on that is still open. */
  ghost function Settled(trace: seq<Event>): seq<Event> {
    var n := |trace|;
    if n > 0 && trace[n - 1].Transfer? then trace[..n - 1]
    else if n > 1 && trace[n - 1].Release? && trace[n - 2].Transfer? then trace[..n - 2]
    else trace
  }

  lemma {:induction false} CountsAfterSettled(trace: seq<Event>)
    ensures Settled(trace) != trace ==>
              Transfers(trace) == Transfers(Settled(trace)) + 1 &&
              var last := trace[|Settled(trace)|];
              last.Transfer? &&
              forall s :: Failures(trace, s) == Failures(Settled(trace), s) + if StageOf(last) == s then 1 else 0
  {
    hide StageOf;
    var n := |trace|;
    if n > 1 && trace[n - 1].Release? && trace[n - 2].Transfer? {
      assert trace[..n - 1][..n - 2] == trace[..n - 2];
    }
  }

  lemma {:induction false} RetriesBefore(config: Config, deadline: Option<int>, start: int, trace: seq<Event>)
    requires Validated(config) && Follows(config, deadline, start, trace)
    ensures RetriesLeft(config, Settled(trace))
  {
    hide AcquiresThisRound, BoundByDeadline, HasTimeRemaining, Clock, Classify;
    if trace != [] {
      var n := |trace|;
      var before := trace[..n - 1];
      RetriesBefore(config, deadline, start, before);
      CountsAfterSettled(before);
      if Settled(trace) == trace {
        assert Settled(before) != before ==> before[|before| - 1].Release?;
        assert forall s :: Failures(trace, s) == Failures(before, s);
      } else if trace[n - 1].Release? {
        assert Settled(trace) == Settled(before);
      } else {
        assert Settled(before) == before;
      }
    }
  }

  /** No kind of retry is ever used up more than once over. */
  lemma {:induction false} RetryCounts(config: Config, deadline: Option<int>, start: int, trace: seq<Event>)
    requires Validated(config) && Follows(config, deadline, start, trace)
    ensures Failures(trace, ConnectRetry) <= config.connectRetry.maxAttempts
    ensures Failures(trace, RequestRetry) <= config.requestRetry.maxAttempts
    ensures Transfers(trace) <= config.connectRetry.maxAttempts + config.requestRetry.maxAttempts - 1
  {
    hide NextAction, Carries, Follows, Failures, Transfers;
    RetriesBefore(config, deadline, start, trace);
    CountsAfterSettled(trace);
  }

  /** At most connect_max + request_max - 1 transfers, and at most acquire_max attempts to
      borrow a handle for each of them. */
  lemma {:induction false} AttemptBounds(config: Config, deadline: Option<int>, start: int, trace: seq<Event>)
    requires Validated(config) && Follows(config, deadline, start, trace)
    ensures Transfers(trace) <= config.connectRetry.maxAttempts + config.requestRetry.maxAttempts - 1
    ensures AcquiresThisRound(trace) <= config.acquireRetry.maxAttempts
  {
    hide NextAction, Carries, Follows;
    RetryCounts(config, deadline, start, trace);
    AcquireCount(config, deadline, start, trace);
  }

  ghost predicate AcquiresInOrder(config: Config, trace: seq<Event>) {
    var n := |trace|;
    var max := config.acquireRetry.maxAttempts;
    && AcquiresThisRound(trace) <= max
    && (n > 1 && trace[n - 1].Sleep? && trace[n - 2].Acquire? ==> AcquiresThisRound(trace) < max)
    && (n > 1 && trace[n - 1].Sleep? && !trace[n - 2].Acquire? ==> AcquiresThisRound(trace) == 0)
    && (n > 1 && trace[n - 1].Release? && trace[n - 2].Transfer? ==> AcquiresThisRound(trace) == 0)
  }

  lemma {:induction false} AcquireCount(config: Config, deadline: Option<int>, start: int, trace: seq<Event>)
    requires Validated(config) && Follows(config, deadline, start, trace)
    ensures AcquiresInOrder(config, trace)
  {
    hide Failures, BoundByDeadline, HasTimeRemaining, Clock, Classify;
    if trace != [] {
      AcquireCount(config, deadline, start, trace[..|trace| - 1]);
    }
  }

  // ----- the deadline ------------------------------------------------------------------------

  /** No blocking call outlasts its bound by more than `slack` ticks. */
  ghost predicate Honoured(trace: seq<Event>, slack: nat) {
    forall e :: e in trace && !e.Release? ==> e.end - e.begin <= e.bound * TICKS_PER_MS + slack
  }

  /** Every blocking call is told to end by the deadline, and is given at least a millisecond. */
  lemma {:induction false} BoundsMeetDeadline(config: Config, deadline: Option<int>, start: int, trace: seq<Event>,
          i: nat)
    requires Follows(config, deadline, start, trace) && i < |trace| && !trace[i].Release?
    ensures trace[i].bound >= 1
    ensures deadline.Some? ==> trace[i].begin + trace[i].bound * TICKS_PER_MS <= deadline.value
  {
    hide Follows, Clock, AcquiresThisRound, Failures, Classify, HasTimeRemaining, RemainingTimeout, BoundByDeadline;
    PrefixFollows(config, deadline, start, trace, i);
  }

  /** Execute returns by the deadline, or at once if that has passed, plus the largest overrun
      of a single call: overruns do not add up. */
  lemma {:induction false} ReturnsByDeadline(config: Config, deadline: Option<int>, start: int, trace: seq<Event>,
          slack: nat)
    requires Follows(config, deadline, start, trace) && deadline.Some? && Honoured(trace, slack)
    ensures Clock(start, trace) <= (if deadline.value < start then start else deadline.value) + slack
  {
    hide NextAction;
    if trace != [] {
      var n := |trace| - 1;
      ReturnsByDeadline(config, deadline, start, trace[..n], slack);
      PrefixFollows(config, deadline, start, trace, n);
      if !trace[n].Release? {
        assert trace[n] in trace;
        BoundsMeetDeadline(config, deadline, start, trace, n);
      }
    }
  }

  // ----- what the result means ---------------------------------------------------------------

  /** Only a retryable failure with attempts of its own kind left is followed by anything more. */
  lemma {:induction false} OnlyFailuresRetried(config: Config, deadline: Option<int>, start: int, trace: seq<Event>,
          i: nat)
    requires Follows(config, deadline, start, trace) && i + 2 < |trace| && trace[i].Transfer?
    ensures trace[i + 1] == Release(trace[i].end, trace[i].lease)
    ensures StageOf(trace[i]) != NoRetry
    ensures Failures(trace[..i + 2], StageOf(trace[i])) < RetryOf(config, StageOf(trace[i])).maxAttempts
  {
    hide Follows, AcquiresThisRound, Failures, Classify, BoundByDeadline, HasTimeRemaining;
    PrefixFollows(config, deadline, start, trace, i + 1);
    PrefixFollows(config, deadline, start, trace, i + 2);
  }

  /** The history ends with a transfer whose answer is final or has used up its kind of retry. */
  predicate Spent(config: Config, trace: seq<Event>) {
    var n := |trace|;
    n >= 2 && trace[n - 2].Transfer? &&
    (StageOf(trace[n - 2]) == NoRetry ||
     Failures(trace, StageOf(trace[n - 2])) == RetryOf(config, StageOf(trace[n - 2])).maxAttempts)
  }

  /** The history ends with the last of a round's attempts to borrow, and that failed. */
  predicate NothingLent(config: Config, trace: seq<Event>) {
    var n := |trace|;
    n >= 1 && trace[n - 1].Acquire? && trace[n - 1].handle == None &&
    AcquiresThisRound(trace) == config.acquireRetry.maxAttempts
  }

  /** A finished run returns the last transfer's own answer exactly when that is final or has
      used up its kind of retry, and a pool timeout exactly when every attempt of the round to
      borrow failed. Otherwise it returns a deadline result, and then less than a millisecond
      was left, or a configured timeout is not positive. */
  lemma {:induction false} ResultMeaning(config: Config, deadline: Option<int>, start: int, trace: seq<Event>,
                                         result: Result)
    requires Validated(config) && Follows(config, deadline, start, trace)
    requires NextAction(config, deadline, start, trace) == Finish(result)
    ensures result.Answered? <==> Spent(config, trace)
    ensures result.Answered? ==> result.answer == Classify(trace[|trace| - 2].outcome).answer
    ensures result == PoolAcquireTimeout <==> NothingLent(config, trace)
    ensures result == DeadlineExceeded <==> !Spent(config, trace) && !NothingLent(config, trace)
    ensures result == DeadlineExceeded ==>
              config.acquireTimeout <= 0 || config.requestTimeout <= 0 ||
              (deadline.Some? && deadline.value < Clock(start, trace) + TICKS_PER_MS)
  {
    hide Follows, Classify, Failures, AcquiresThisRound, Transfers, BoundByDeadline, HasTimeRemaining, RemainingTimeout;
    RetryCounts(config, deadline, start, trace);
    AcquireCount(config, deadline, start, trace);
    if trace != [] {
      PrefixFollows(config, deadline, start, trace, |trace| - 1);
    }
    if result == DeadlineExceeded {
      DeadlineReason(config, deadline, start, trace);
    }
  }

  lemma {:induction false} ClockAtRelease(start: int, trace: seq<Event>)
    requires trace != []
    ensures trace[|trace| - 1].Release? ==> Clock(start, trace) == trace[|trace| - 1].at
  {
  }

  lemma {:induction false} DeadlineReason(config: Config, deadline: Option<int>, start: int, trace: seq<Event>)
    requires Follows(config, deadline, start, trace)
    requires NextAction(config, deadline, start, trace) == Finish(DeadlineExceeded)
    ensures config.acquireTimeout <= 0 || config.requestTimeout <= 0 ||
            (deadline.Some? && deadline.value < Clock(start, trace) + TICKS_PER_MS)
  {
    hide Follows, Classify, Failures, AcquiresThisRound, Transfers, Clock;
    if trace != [] {
      ClockAtRelease(start, trace);
      PrefixFollows(config, deadline, start, trace, |trace| - 1);
    }
  }

  lemma {:induction false} SameHistory(config: Config, deadline: Option<int>, start: int, world: World,
                                       one: seq<Event>, two: seq<Event>)
    requires Follows(config, deadline, start, one) && Follows(config, deadline, start, two)
    requires AnsweredBy(world, one) && AnsweredBy(world, two) && |one| <= |two|
    ensures one == two[..|one|]
    decreases |one| + |two|
  {
    hide NextAction, Clock;
    if |one| < |two| {
      SameHistory(config, deadline, start, world, one, two[..|two| - 1]);
      assert two[..|two| - 1][..|one|] == two[..|one|];
    } else if one != [] {
      var n := |one| - 1;
      SameHistory(config, deadline, start, world, one[..n], two[..n]);
      assert one[..n] == two[..n];
      assert one[n] == two[n];
    }
  }

  /** The policy and the world's answers leave room for one complete run only, so the
      history Execute returns is the run. */
  lemma {:induction false} RunIsUnique(config: Config, deadline: Option<int>, start: int, world: World,
                                       one: seq<Event>, two: seq<Event>)
    requires Follows(config, deadline, start, one) && Follows(config, deadline, start, two)
    requires AnsweredBy(world, one) && AnsweredBy(world, two)
    requires NextAction(config, deadline, start, one).Finish? && NextAction(config, deadline, start, two).Finish?
    ensures one == two
  {
    hide NextAction, Follows, AnsweredBy, Clock;
    if |one| <= |two| {
      SameHistory(config, deadline, start, world, one, two);
      PrefixFollows(config, deadline, start, two, |one|);
    } else {
      SameHistory(config, deadline, start, world, two, one);
      PrefixFollows(config, deadline, start, one, |two|);
    }
  }

  // ----- timeouts that are not positive --------------------------------------------------------

  /** The pool lent a handle at some point. */
  ghost predicate Lent(trace: seq<Event>) {
    exists i :: 0 <= i < |trace| && trace[i].Acquire? && trace[i].handle.Some?
  }

  lemma {:induction false} ReleasedUnused(config: Config, deadline: Option<int>, start: int, trace: seq<Event>, i: nat)
    requires config.requestTimeout <= 0 && Follows(config, deadline, start, trace)
    requires i < |trace| && trace[i].Acquire? && trace[i].handle.Some?
    ensures i + 1 < |trace| ==> trace[i + 1].Release? && |trace| == i + 2
    ensures NextAction(config, deadline, start, trace) ==
            if i + 1 == |trace| then DoRelease(trace[i].handle.value) else Finish(DeadlineExceeded)
  {
    hide Follows, Classify, Failures, AcquiresThisRound;
    assert trace[..|trace|] == trace;
    PrefixFollows(config, deadline, start, trace, i + 1);
    if i + 1 < |trace| {
      assert trace[..i + 1][i] == trace[i];
      PrefixFollows(config, deadline, start, trace, i + 2);
    }
  }

  /** A non-positive acquire timeout makes every request report an exceeded deadline, with or
      without one, before anything is borrowed. With a non-positive request timeout nothing is
      ever transferred, and the first handle lent ends the run with that report. */
  lemma {:induction false} NonPositiveTimeouts(config: Config, deadline: Option<int>, start: int, trace: seq<Event>,
                                               result: Result)
    requires Validated(config) && Follows(config, deadline, start, trace)
    requires NextAction(config, deadline, start, trace) == Finish(result)
    ensures config.acquireTimeout <= 0 ==> trace == [] && result == DeadlineExceeded
    ensures config.requestTimeout <= 0 ==> Transfers(trace) == 0 && !result.Answered?
    ensures config.requestTimeout <= 0 && Lent(trace) ==> result == DeadlineExceeded
  {
    hide Follows, NextAction, Classify, Failures, AcquiresThisRound;
    if config.acquireTimeout <= 0 {
      if trace != [] {
        PrefixFollows(config, deadline, start, trace, 0);
        FirstIsAcquire(config, deadline, start, trace[0]);
      }
      StartFinish(config, deadline, start);
    }
    if config.requestTimeout <= 0 {
      NoTransfers(config, deadline, start, trace);
      if result.Answered? {
        ResultMeaning(config, deadline, start, trace, result);
        SomeTransfer(trace, |trace| - 2);
      }
      if Lent(trace) {
        var i :| 0 <= i < |trace| && trace[i].Acquire? && trace[i].handle.Some?;
        ReleasedUnused(config, deadline, start, trace, i);
      }
    }
  }

  lemma {:induction false} NothingLentEver(config: Config, start: int, trace: seq<Event>)
    requires Validated(config) && Follows(config, None, start, trace) && !Lent(trace) && config.acquireTimeout > 0
    ensures NextAction(config, None, start, trace) != Finish(DeadlineExceeded)
  {
    hide Failures, Classify, AcquiresThisRound, Clock;
    if trace != [] {
      var n := |trace| - 1;
      NothingLentEver(config, start, trace[..n]);
    }
  }

  /** Without a deadline, a finished run reports an exceeded one exactly when the acquire
      timeout is not positive, or the request timeout is not and the pool lent a handle. */
  lemma {:induction false} ReportWithoutDeadline(config: Config, start: int, trace: seq<Event>, result: Result)
    requires Validated(config) && Follows(config, None, start, trace)
    requires NextAction(config, None, start, trace) == Finish(result)
    ensures result == DeadlineExceeded <==>
              config.acquireTimeout <= 0 || (config.requestTimeout <= 0 && Lent(trace))
  {
    hide Follows, NextAction, Lent;
    NonPositiveTimeouts(config, None, start, trace, result);
    ResultMeaning(config, None, start, trace, result);
    if config.acquireTimeout > 0 && !Lent(trace) {
      NothingLentEver(config, start, trace);
    }
  }

  lemma {:induction false} UnusedHandle(config: Config, start: int, e: Event)
    requires config.acquireTimeout > 0 && config.requestTimeout <= 0
    requires e == Acquire(start, config.acquireTimeout, start, Some(0))
    ensures Carries(NextAction(config, None, start, []), Clock(start, []), e)
    ensures Carries(NextAction(config, None, start, [e]), Clock(start, [e]), Release(start, 0))
    ensures NextAction(config, None, start, [e] + [Release(start, 0)]) == Finish(DeadlineExceeded)
  {
    hide Failures, Classify, AcquiresThisRound;
  }

  lemma {:induction false} LentAtOnce(config: Config, start: int) returns (world: World, trace: seq<Event>)
    requires Validated(config) && (config.acquireTimeout <= 0 || config.requestTimeout <= 0)
    ensures Follows(config, None, start, trace) && AnsweredBy(world, trace)
    ensures NextAction(config, None, start, trace) == Finish(DeadlineExceeded)
  {
    hide Failures, Classify, AcquiresThisRound, Follows, AnsweredBy, NextAction, Carries, Clock;
    world := World(_ => (Some(0), 0), _ => (ListAllocationFailed, 0), _ => 0);
    NothingYet(config, None, start);
    trace := [];
    if config.acquireTimeout > 0 {
      var e := Acquire(start, config.acquireTimeout, start, Some(0));
      UnusedHandle(config, start, e);
      Extend(config, None, start, world, [], e);
      assert [] + [e] == [e];
      Extend(config, None, start, world, [e], Release(start, 0));
      trace := [e] + [Release(start, 0)];
    } else {
      StartFinish(config, None, start);
    }
  }

  /** Whatever the world answers, no run without a deadline reports one as exceeded: this holds
      exactly when both configured timeouts are positive. */
  lemma {:induction false} NoFalseReportIff(config: Config)
    requires Validated(config)
    ensures (forall world, start, trace :: Follows(config, None, start, trace) && AnsweredBy(world, trace) ==>
               NextAction(config, None, start, trace) != Finish(DeadlineExceeded)) <==>
            config.acquireTimeout > 0 && config.requestTimeout > 0
  {
    hide Follows, AnsweredBy, NextAction;
    if config.acquireTimeout > 0 && config.requestTimeout > 0 {
      forall start, trace | Follows(config, None, start, trace)
        ensures NextAction(config, None, start, trace) != Finish(DeadlineExceeded) {
        if NextAction(config, None, start, trace) == Finish(DeadlineExceeded) {
          ReportWithoutDeadline(config, start, trace, DeadlineExceeded);
        }
      }
    } else {
      var world, trace := LentAtOnce(config, 0);
    }
  }

  lemma {:induction false} FirstIsAcquire(config: Config, deadline: Option<int>, start: int, e: Event)
    requires Carries(NextAction(config, deadline, start, []), Clock(start, []), e)
    ensures e.Acquire? && e.bound > 0 && e.bound <= config.acquireTimeout
  {
  }

  lemma {:induction false} StartFinish(config: Config, deadline: Option<int>, start: int)
    requires config.acquireTimeout <= 0
    ensures NextAction(config, deadline, start, []) == Finish(DeadlineExceeded)
  {
  }

  lemma {:induction false} NoTransfers(config: Config, deadline: Option<int>, start: int, trace: seq<Event>)
    requires config.requestTimeout <= 0 && Follows(config, deadline, start, trace)
    ensures Transfers(trace) == 0
  {
    hide Clock, Classify, Failures, AcquiresThisRound, HasTimeRemaining;
    if trace != [] {
      NoTransfers(config, deadline, start, trace[..|trace| - 1]);
    }
  }

  lemma {:induction false} SomeTransfer(trace: seq<Event>, i: nat)
    requires i < |trace| && trace[i].Transfer?
    ensures Transfers(trace) > 0
  {
    if i < |trace| - 1 {
      SomeTransfer(trace[..|trace| - 1], i);
    }
  }
}
