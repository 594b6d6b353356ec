/**
 The deadline around plugin discovery in `plugin-thread-config-deadline.ts`: one budget for any number of
 requests, which may overlap, and a flag that remembers a timeout even when a reader swallows the error.
 Times are milliseconds of the monotonic clock.
 */
module DiscoveryDeadline {
  import opened Common

  const MAX_TIMEOUT_MS: int := 60_000
  const TIMEOUT_DIVISOR: int := 4
  const MIN_TIMEOUT_MS: int := 100

  /** A JavaScript number, as far as `Number.isFinite` tells. */
  datatype Millis = Finite(value: real) | NotFinite

  /** `resolveCodexPluginThreadConfigTimeoutMs`. */
  function Budget(request: Millis): int {
    var finite := if request.Finite? && request.value > 0.0 then request.value else (MAX_TIMEOUT_MS * TIMEOUT_DIVISOR) as real;
    Min(MAX_TIMEOUT_MS, Max(MIN_TIMEOUT_MS, (finite / TIMEOUT_DIVISOR as real).Floor))
  }

  /** The budget is a quarter of the request timeout, kept between 100 ms and a minute for every input. */
  lemma BudgetIsClampedQuarter(request: Millis)
    ensures 100 <= Budget(request) <= 60_000
    ensures request.NotFinite? || request.value <= 0.0 || request.value >= 240_000.0 ==> Budget(request) == 60_000
    ensures request.Finite? && 0.0 < request.value < 400.0 ==> Budget(request) == 100
    ensures request.Finite? && 400.0 <= request.value < 240_000.0 ==>
              (4 * Budget(request)) as real <= request.value < (4 * Budget(request) + 4) as real
  {
    if request.Finite? && request.value > 0.0 {
      var q := request.value / 4.0;
      assert q.Floor as real <= q < (q.Floor + 1) as real;
      assert request.value == 4.0 * q;
    }
  }

  // ----- the machine -----

  datatype ReplyKind = Running | Replied | TimedOut | FailedOtherwise

  /** A call of the bounded request: refused on the spot, or sent with the budget that remained. */
  datatype Request = Refused(at: real) | Sent(at: real, allowanceMs: real, reply: ReplyKind)

  datatype Result = Returned | Rethrown | FailedClosed | Fallback

  /** Why the awaited promise ended. */
  datatype Ending = BuildReturns | BuildThrows(timeoutError: bool) | TimerFires | AbortRejects

  datatype State = State(
    startMs: real,
    deadlineMs: real,
    nowMs: real,
    failClosed: bool,
    aborted: bool,
    requestTimedOut: bool,
    requests: seq<Request>,
    result: Option<Result>)

  datatype Event =
    | Tick(ms: real)
    | Abort
    | Ask
    | Settle(request: nat, reply: ReplyKind)
    | End(ending: Ending)

  function Start(nowMs: real, requestTimeout: Millis, failClosed: bool): State {
    State(nowMs, nowMs + Budget(requestTimeout) as real, nowMs, failClosed, false, false, [], None)
  }

  /** `boundedRequest` up to its await. */
  function AskStep(s: State): State {
    var remaining := s.deadlineMs - s.nowMs;
    if s.requestTimedOut || remaining <= 0.0 then s.(requests := s.requests + [Refused(s.nowMs)])
    else s.(requests := s.requests + [Sent(s.nowMs, remaining, Running)])
  }

  /** The catch of `boundedRequest`: timeout evidence is kept, and the error goes on to the reader. */
  function SettleStep(s: State, i: nat, reply: ReplyKind): State
    requires i < |s.requests| && s.requests[i].Sent?
  {
    s.(requests := s.requests[i := s.requests[i].(reply := reply)],
       requestTimedOut := s.requestTimedOut || reply == TimedOut)
  }

  /** The catch around the whole build. */
  function Catch(s: State, timeoutError: bool): Result {
    if s.aborted || (!s.requestTimedOut && !timeoutError && s.nowMs < s.deadlineMs) then Rethrown
    else if s.failClosed then FailedClosed
    else Fallback
  }

  function EndStep(s: State, ending: Ending): State {
    var result :=
      match ending
      case BuildReturns => if s.requestTimedOut || s.nowMs >= s.deadlineMs then Catch(s, true) else Returned
      case BuildThrows(timeoutError) => Catch(s, timeoutError)
      case TimerFires => Catch(s, true)
      case AbortRejects => Catch(s, false);
    s.(result := Some(result))
  }

  predicate Enabled(s: State, e: Event) {
    match e
    case Tick(ms) => ms >= 0.0
    case Abort => true
    case Ask => true
    case Settle(i, reply) => i < |s.requests| && s.requests[i].Sent? && s.requests[i].reply == Running && reply != Running
    case End(ending) => s.result == None && (ending == AbortRejects ==> s.aborted)
  }

  function Step(s: State, e: Event): State {
    if !Enabled(s, e) then s
    else
      match e
      case Tick(ms) => s.(nowMs := s.nowMs + ms)
      case Abort => s.(aborted := true)
      case Ask => AskStep(s)
      case Settle(i, reply) => SettleStep(s, i, reply)
      case End(ending) => EndStep(s, ending)
  }

  function Run(start: State, events: seq<Event>): State {
    if events == [] then start else Step(Run(start, events[..|events| - 1]), events[|events| - 1])
  }

  // ----- what holds in every run -----

  ghost predicate SomeTimedOut(s: State) {
    exists i :: 0 <= i < |s.requests| && s.requests[i].Sent? && s.requests[i].reply == TimedOut
  }

  ghost predicate Inv(s: State) {
    && s.startMs <= s.nowMs
    && 100.0 <= s.deadlineMs - s.startMs <= 60_000.0
    && (forall i :: 0 <= i < |s.requests| && s.requests[i].Sent? ==>
          && s.requests[i].at + s.requests[i].allowanceMs == s.deadlineMs
          && s.startMs <= s.requests[i].at < s.deadlineMs)
    && (s.requestTimedOut <==> SomeTimedOut(s))
  }

  lemma AskKeeps(s: State)
    requires Inv(s)
    ensures Inv(AskStep(s))
  {
    var t := AskStep(s);
    if SomeTimedOut(s) {
      var i :| 0 <= i < |s.requests| && s.requests[i].Sent? && s.requests[i].reply == TimedOut;
      assert t.requests[i] == s.requests[i];
    }
  }

  lemma SettleKeeps(s: State, i: nat, reply: ReplyKind)
    requires Inv(s) && Enabled(s, Settle(i, reply))
    ensures Inv(SettleStep(s, i, reply))
  {
    var t := SettleStep(s, i, reply);
    if SomeTimedOut(s) {
      var j :| 0 <= j < |s.requests| && s.requests[j].Sent? && s.requests[j].reply == TimedOut;
      assert t.requests[j] == s.requests[j];
    }
    assert t.requests[i].reply == reply;
  }

  lemma StepKeeps(s: State, e: Event)
    requires Inv(s)
    ensures Inv(Step(s, e))
  {
    if Enabled(s, e) {
      match e
      case Ask => AskKeeps(s);
      case Settle(i, reply) => SettleKeeps(s, i, reply);
      case _ =>
    }
  }

  lemma {:induction false} RunKeeps(nowMs: real, requestTimeout: Millis, failClosed: bool, events: seq<Event>)
    ensures Inv(Run(Start(nowMs, requestTimeout, failClosed), events))
    ensures Run(Start(nowMs, requestTimeout, failClosed), events).deadlineMs == nowMs + Budget(requestTimeout) as real
    ensures Run(Start(nowMs, requestTimeout, failClosed), events).failClosed == failClosed
  {
    BudgetIsClampedQuarter(requestTimeout);
    if events != [] {
      var before := events[..|events| - 1];
      RunKeeps(nowMs, requestTimeout, failClosed, before);
      StepKeeps(Run(Start(nowMs, requestTimeout, failClosed), before), events[|events| - 1]);
    }
  }

  /** However many requests are made and however they overlap, each is allowed exactly the time up to the one deadline. */
  lemma EveryRequestEndsByTheDeadline(nowMs: real, requestTimeout: Millis, failClosed: bool, events: seq<Event>, i: nat)
    requires var s := Run(Start(nowMs, requestTimeout, failClosed), events); i < |s.requests| && s.requests[i].Sent?
    ensures var r := Run(Start(nowMs, requestTimeout, failClosed), events).requests[i];
            && r.at + r.allowanceMs == nowMs + Budget(requestTimeout) as real
            && 0.0 < r.allowanceMs <= Budget(requestTimeout) as real <= 60_000.0
  {
    RunKeeps(nowMs, requestTimeout, failClosed, events);
    BudgetIsClampedQuarter(requestTimeout);
    assert Run(Start(nowMs, requestTimeout, failClosed), events).startMs == nowMs by {
      StartIsKept(Start(nowMs, requestTimeout, failClosed), events);
    }
  }

  lemma {:induction false} StartIsKept(start: State, events: seq<Event>)
    ensures Run(start, events).startMs == start.startMs
  {
    if events != [] {
      StartIsKept(start, events[..|events| - 1]);
    }
  }

  /** Once a request has timed out, no later call is sent, whatever the clock says. */
  lemma {:induction false} NothingIsSentAfterATimeout(s: State, events: seq<Event>)
    requires s.requestTimedOut
    ensures Run(s, events).requestTimedOut && |s.requests| <= |Run(s, events).requests|
    ensures forall i :: |s.requests| <= i < |Run(s, events).requests| ==> Run(s, events).requests[i].Refused?
  {
    if events != [] {
      NothingIsSentAfterATimeout(s, events[..|events| - 1]);
    }
  }

  /**
   A configuration is returned only before the deadline and only if no request so far timed out, even one
   whose error a reader swallowed; and then it is returned.
   */
  lemma ReturnedMeansNoTimeout(nowMs: real, requestTimeout: Millis, failClosed: bool, events: seq<Event>)
    requires Run(Start(nowMs, requestTimeout, failClosed), events).result == None
    ensures var s := Run(Start(nowMs, requestTimeout, failClosed), events);
            Step(s, End(BuildReturns)).result == Some(Returned) <==> !SomeTimedOut(s) && s.nowMs < s.deadlineMs
  {
    RunKeeps(nowMs, requestTimeout, failClosed, events);
  }

  /** Something a run can hold against the deadline: a request or the whole build timed out, or the clock passed it. */
  predicate TimeoutEvent(e: Event) {
    (e.Settle? && e.reply == TimedOut) || (e.End? && (e.ending == TimerFires || e.ending == BuildThrows(true)))
  }

  /** The time that passes in a run. */
  function Elapsed(events: seq<Event>): real {
    if events == [] then 0.0
    else
      var last := events[|events| - 1];
      Elapsed(events[..|events| - 1]) + (if last.Tick? && last.ms >= 0.0 then last.ms else 0.0)
  }

  lemma {:induction false} ClockShowsElapsed(start: State, events: seq<Event>)
    ensures Run(start, events).nowMs == start.nowMs + Elapsed(events)
    ensures Run(start, events).deadlineMs == start.deadlineMs
  {
    if events != [] {
      ClockShowsElapsed(start, events[..|events| - 1]);
    }
  }

  /** The events so far hold nothing against the deadline. */
  predicate WithinBudget(events: seq<Event>, budgetMs: real) {
    Elapsed(events) < budgetMs && forall i :: 0 <= i < |events| ==> !TimeoutEvent(events[i])
  }

  lemma {:induction false} ElapsedGrows(events: seq<Event>)
    ensures events != [] ==> Elapsed(events[..|events| - 1]) <= Elapsed(events)
  {
  }

  /** A turn in which nothing timed out, within the budget, is never told that it did: no fallback and no preflight failure. */
  lemma {:induction false} NoFallbackWithoutATimeout(nowMs: real, requestTimeout: Millis, failClosed: bool, events: seq<Event>)
    requires WithinBudget(events, Budget(requestTimeout) as real)
    ensures var s := Run(Start(nowMs, requestTimeout, failClosed), events);
            !s.requestTimedOut && s.result != Some(Fallback) && s.result != Some(FailedClosed)
  {
    if events != [] {
      var before := events[..|events| - 1];
      ElapsedGrows(events);
      assert forall i :: 0 <= i < |before| ==> before[i] == events[i];
      NoFallbackWithoutATimeout(nowMs, requestTimeout, failClosed, before);
      ClockShowsElapsed(Start(nowMs, requestTimeout, failClosed), before);
    }
  }

  /** A timeout that a run has already seen, or a deadline it has already passed. */
  ghost predicate Late(s: State) {
    SomeTimedOut(s) || s.nowMs >= s.deadlineMs
  }

  /** The result a late turn gets if it is not aborted. */
  function LateResult(failClosed: bool): Result {
    if failClosed then FailedClosed else Fallback
  }

  lemma LateStep(s: State, e: Event)
    requires Inv(s) && Late(s) && !s.aborted && e != Abort
    requires s.result == None || s.result == Some(LateResult(s.failClosed))
    ensures var t := Step(s, e);
            Late(t) && !t.aborted && (t.result == None || t.result == Some(LateResult(t.failClosed)))
  {
    StepKeeps(s, e);
  }

  /**
   A timeout is never hidden: once a request has timed out, even if a reader swallowed the error, or the deadline
   has passed, a turn that is not aborted can only end by failing closed or falling back, as it was asked to;
   whatever the build returns or throws afterwards.
   */
  lemma {:induction false} TimeoutIsNeverHidden(nowMs: real, requestTimeout: Millis, failClosed: bool, before: seq<Event>, after: seq<Event>)
    requires var s := Run(Start(nowMs, requestTimeout, failClosed), before); Late(s) && !s.aborted && s.result == None
    requires Abort !in after
    ensures var t := Run(Start(nowMs, requestTimeout, failClosed), before + after);
            Late(t) && !t.aborted && (t.result == None || t.result == Some(LateResult(failClosed)))
  {
    var start := Start(nowMs, requestTimeout, failClosed);
    if after == [] {
      assert before + after == before;
    } else {
      var last := |after| - 1;
      TimeoutIsNeverHidden(nowMs, requestTimeout, failClosed, before, after[..last]);
      RunKeeps(nowMs, requestTimeout, failClosed, before + after[..last]);
      assert (before + after)[..|before + after| - 1] == before + after[..last];
      LateStep(Run(start, before + after[..last]), after[last]);
    }
  }

  // ----- what is sent, and how a turn ends -----

  /** A request is sent if and only if none has timed out and time is left, and it is given exactly that time. */
  lemma SentIff(nowMs: real, requestTimeout: Millis, failClosed: bool, events: seq<Event>)
    ensures var s := Run(Start(nowMs, requestTimeout, failClosed), events);
            var t := Step(s, Ask);
            t.requests == s.requests + [if Late(s) then Refused(s.nowMs) else Sent(s.nowMs, s.deadlineMs - s.nowMs, Running)]
  {
    RunKeeps(nowMs, requestTimeout, failClosed, events);
  }

  /** The ending is itself a timeout. */
  predicate TimeoutEnding(ending: Ending) {
    ending == TimerFires || ending == BuildThrows(true)
  }

  /**
   How a turn ends: with its configuration if the build returns one in time; else with the error itself if the turn was
   aborted, even after a timeout; else as late turns do if there is a timeout to show for it; else with the error itself.
   */
  lemma EndingIs(nowMs: real, requestTimeout: Millis, failClosed: bool, events: seq<Event>, ending: Ending)
    requires Enabled(Run(Start(nowMs, requestTimeout, failClosed), events), End(ending))
    ensures var s := Run(Start(nowMs, requestTimeout, failClosed), events);
            var result := Step(s, End(ending)).result;
            && (ending == BuildReturns && !Late(s) ==> result == Some(Returned))
            && ((ending != BuildReturns || Late(s)) && s.aborted ==> result == Some(Rethrown))
            && ((ending != BuildReturns || Late(s)) && !s.aborted && (Late(s) || TimeoutEnding(ending)) ==> result == Some(LateResult(failClosed)))
            && (ending != BuildReturns && !s.aborted && !Late(s) && !TimeoutEnding(ending) ==> result == Some(Rethrown))
  {
    RunKeeps(nowMs, requestTimeout, failClosed, events);
  }

  /** A turn ends once: no later event changes its result. */
  lemma {:induction false} ResultIsFinal(s: State, events: seq<Event>)
    requires s.result.Some?
    ensures Run(s, events).result == s.result
  {
    if events != [] {
      ResultIsFinal(s, events[..|events| - 1]);
    }
  }
}
