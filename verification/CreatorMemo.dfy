/**
 The memo around `resolveCreatorAuthorityImpl` in `run-attempt-tool-setup.ts`. Concurrent tool calls share one
 resolution; a call whose own signal aborted must not poison the calls after it. Each event below is one
 uninterrupted piece of JavaScript; promises settle, and their handlers run, in any order the runtime allows.
 */
module CreatorMemo {
  import opened Common

  /** An error or an abort reason, by identity. */
  type Reason = nat

  datatype Outcome = Pending | Fulfilled(value: nat) | Failed(error: Reason)

  /** A resolution: the signal of the call that started it, how it stands, and whether its catch handler has run. */
  datatype Resolution = Resolution(signal: Option<nat>, outcome: Outcome, handled: bool)

  /** What a call with this signal got: a resolution to wait for, or an exception at once. */
  datatype Reply = Shares(signal: Option<nat>, resolution: nat) | Throws(signal: Option<nat>)

  datatype State = State(
    ready: bool,                       // resolveCreatorAuthorityImpl is set
    memo: Option<nat>,                 // creatorAuthorityPromise
    resolutions: seq<Resolution>,
    aborted: map<nat, Reason>,         // aborted signals and their reasons
    replies: seq<Reply>)

  const INIT := State(false, None, [], map[], [])

  datatype Event =
    | SetUp
    | Abort(source: nat, reason: Reason)
    | Call(signal: Option<nat>)
    | Settle(resolution: nat, outcome: Outcome)
    | RunHandler(resolution: nat)

  /** A signal that is given and has aborted. */
  function AbortReason(s: State, signal: Option<nat>): Option<Reason> {
    if signal.Some? && signal.value in s.aborted then Some(s.aborted[signal.value]) else None
  }

  /** The failure of a resolution is the abort reason of the call that started it. */
  predicate OwnAbort(s: State, p: nat)
    requires p < |s.resolutions|
  {
    var r := s.resolutions[p];
    r.outcome.Failed? && AbortReason(s, r.signal) == Some(r.outcome.error)
  }

  function CallStep(s: State, signal: Option<nat>): State {
    if !s.ready || AbortReason(s, signal).Some? then s.(replies := s.replies + [Throws(signal)])
    else
      match s.memo
      case Some(p) => s.(replies := s.replies + [Shares(signal, p)])
      case None =>
        var p := |s.resolutions|;
        s.(memo := Some(p), resolutions := s.resolutions + [Resolution(signal, Pending, false)],
           replies := s.replies + [Shares(signal, p)])
  }

  /** The catch handler attached to a resolution. */
  function HandlerStep(s: State, p: nat): State
    requires p < |s.resolutions|
  {
    s.(resolutions := s.resolutions[p := s.resolutions[p].(handled := true)],
       memo := if s.memo == Some(p) && OwnAbort(s, p) then None else s.memo)
  }

  predicate Enabled(s: State, e: Event) {
    match e
    case SetUp => !s.ready
    case Abort(signal, _) => signal !in s.aborted
    case Call(_) => true
    case Settle(p, outcome) => p < |s.resolutions| && s.resolutions[p].outcome == Pending && outcome != Pending
    case RunHandler(p) => p < |s.resolutions| && s.resolutions[p].outcome.Failed? && !s.resolutions[p].handled
  }

  function Step(s: State, e: Event): State {
    if !Enabled(s, e) then s
    else
      match e
      case SetUp => s.(ready := true)
      case Abort(signal, reason) => s.(aborted := s.aborted[signal := reason])
      case Call(signal) => CallStep(s, signal)
      case Settle(p, outcome) => s.(resolutions := s.resolutions[p := s.resolutions[p].(outcome := outcome)])
      case RunHandler(p) => HandlerStep(s, p)
  }

  function RunFrom(s: State, events: seq<Event>): State {
    if events == [] then s else Step(RunFrom(s, events[..|events| - 1]), events[|events| - 1])
  }

  function Run(events: seq<Event>): State {
    RunFrom(INIT, events)
  }

  // ----- the invariant -----

  /** A resolution that still has something to do: it runs, or its failure has not been looked at. */
  predicate Open(r: Resolution) {
    r.outcome == Pending || (r.outcome.Failed? && !r.handled)
  }

  /** The memo is the last resolution or nothing, and every open resolution is the memo. */
  ghost predicate Inv(s: State) {
    && (s.memo.Some? ==> s.memo.value + 1 == |s.resolutions|)
    && (forall p :: 0 <= p < |s.resolutions| && Open(s.resolutions[p]) ==> s.memo == Some(p))
    && (forall p :: 0 <= p < |s.resolutions| && s.resolutions[p].handled ==> s.resolutions[p].outcome.Failed?)
  }

  lemma StepKeeps(s: State, e: Event)
    requires Inv(s)
    ensures Inv(Step(s, e))
  {
  }

  lemma {:induction false} RunKeeps(events: seq<Event>)
    ensures Inv(Run(events))
  {
    if events != [] {
      RunKeeps(events[..|events| - 1]);
      StepKeeps(Run(events[..|events| - 1]), events[|events| - 1]);
    }
  }

  // ----- what holds in every run -----

  /**
   A call throws at once if and only if the resolver is not set up or its own signal has already aborted, and then it
   changes nothing else; any other call gets the memo, starting a resolution under its own signal if there is none.
   */
  lemma CallIs(events: seq<Event>, signal: Option<nat>)
    ensures var s, t := Run(events), Step(Run(events), Call(signal));
            if !s.ready || (signal.Some? && signal.value in s.aborted)
            then t == s.(replies := s.replies + [Throws(signal)])
            else
              && t.memo.Some? && t.replies == s.replies + [Shares(signal, t.memo.value)]
              && (s.memo.Some? ==> t == s.(replies := t.replies))
              && (s.memo == None ==>
                    t.resolutions == s.resolutions + [Resolution(signal, Pending, false)] && t.memo.value == |s.resolutions|)
  {
  }

  /** At most one resolution is in flight, and a call made meanwhile shares it. */
  lemma OneInFlight(events: seq<Event>, p: nat, signal: Option<nat>)
    requires p < |Run(events).resolutions| && Run(events).resolutions[p].outcome == Pending
    ensures forall q :: 0 <= q < |Run(events).resolutions| && Run(events).resolutions[q].outcome == Pending ==> q == p
    ensures Step(Run(events), Call(signal)).resolutions == Run(events).resolutions
  {
    RunKeeps(events);
    assert Open(Run(events).resolutions[p]);
    forall q | 0 <= q < |Run(events).resolutions| && Run(events).resolutions[q].outcome == Pending ensures q == p {
      assert Open(Run(events).resolutions[q]);
    }
  }

  /** The memo is cleared by exactly one event: the handler of the current resolution, when its failure is its own caller's abort. */
  lemma ClearedOnlyByOwnAbort(events: seq<Event>, e: Event)
    requires Run(events).memo.Some?
    ensures var s := Run(events);
            Step(s, e).memo != s.memo <==> e == RunHandler(s.memo.value) && Enabled(s, e) && OwnAbort(s, s.memo.value)
    ensures Step(Run(events), e).memo != Run(events).memo ==> Step(Run(events), e).memo == None
  {
    RunKeeps(events);
  }

  /** The handler's test that its resolution is still the current one never fails: nothing replaces a memo it has not cleared. */
  lemma HandlerFindsItselfCurrent(events: seq<Event>, p: nat)
    requires Enabled(Run(events), RunHandler(p))
    ensures Run(events).memo == Some(p)
  {
    RunKeeps(events);
    assert Open(Run(events).resolutions[p]);
  }

  /** What later events leave in place: resolutions with their starters and outcomes, abort reasons, and replies. */
  ghost predicate Continues(s: State, t: State) {
    && |s.resolutions| <= |t.resolutions|
    && (forall p :: 0 <= p < |s.resolutions| ==>
          && t.resolutions[p].signal == s.resolutions[p].signal
          && (s.resolutions[p].outcome != Pending ==> t.resolutions[p].outcome == s.resolutions[p].outcome)
          && (s.resolutions[p].handled ==> t.resolutions[p].handled))
    && (forall c :: c in s.aborted ==> c in t.aborted && t.aborted[c] == s.aborted[c])
    && s.replies <= t.replies
  }

  lemma StepContinues(s: State, e: Event)
    ensures Continues(s, Step(s, e))
  {
  }

  lemma ContinuesTransitively(s: State, t: State, u: State)
    requires Continues(s, t) && Continues(t, u)
    ensures Continues(s, u)
  {
  }

  lemma {:induction false} RunContinues(s: State, after: seq<Event>)
    ensures Continues(s, RunFrom(s, after))
  {
    if after != [] {
      var t := RunFrom(s, after[..|after| - 1]);
      RunContinues(s, after[..|after| - 1]);
      StepContinues(t, after[|after| - 1]);
      ContinuesTransitively(s, t, Step(t, after[|after| - 1]));
    }
  }

  /** Every reply from number k on is this resolution or an exception at once. */
  ghost predicate SharedFrom(t: State, k: nat, p: nat) {
    forall i :: k <= i < |t.replies| ==> t.replies[i].Throws? || t.replies[i].resolution == p
  }

  /** Success, or a failure that is already kept, or that is not its own caller's abort. */
  predicate Substantive(s: State, p: nat)
    requires p < |s.resolutions|
  {
    s.resolutions[p].outcome != Pending && (s.resolutions[p].handled || !OwnAbort(s, p))
  }

  lemma SharedStep(s: State, e: Event, p: nat, k: nat)
    requires Inv(s) && s.memo == Some(p) && Substantive(s, p) && SharedFrom(s, k, p)
    ensures Step(s, e).memo == Some(p) && |Step(s, e).resolutions| == |s.resolutions|
    ensures SharedFrom(Step(s, e), k, p)
  {
  }

  lemma SubstantiveBefore(s: State, t: State, p: nat)
    requires Continues(s, t) && p < |s.resolutions| && s.resolutions[p].outcome != Pending
    requires s.resolutions[p].handled || !OwnAbort(t, p)
    ensures Substantive(s, p)
  {
  }

  /**
   From the moment the current resolution has settled, with a success or with a failure that is not its own
   caller's abort, every later call gets that same resolution and no other is ever started. This covers the
   calls made before the failure's handler has run.
   */
  lemma {:induction false} OutcomeIsShared(before: seq<Event>, after: seq<Event>, p: nat)
    requires Run(before).memo == Some(p) && p < |Run(before).resolutions| && Run(before).resolutions[p].outcome != Pending
    requires var t := RunFrom(Run(before), after);
             p < |t.resolutions| && (Run(before).resolutions[p].handled || !OwnAbort(t, p))
    ensures var s, t := Run(before), RunFrom(Run(before), after);
            && t.memo == Some(p)
            && |t.resolutions| == |s.resolutions| && t.resolutions[p].outcome == s.resolutions[p].outcome
            && s.replies <= t.replies && SharedFrom(t, |s.replies|, p)
  {
    var s := Run(before);
    RunKeeps(before);
    if after != [] {
      var front, e := after[..|after| - 1], after[|after| - 1];
      var u := RunFrom(s, front);
      StepContinues(u, e);
      RunContinues(s, front);
      OutcomeIsShared(before, front, p);
      KeepsFrom(s, front);
      SubstantiveBefore(u, Step(u, e), p);
      SharedStep(u, e, p, |s.replies|);
    }
  }

  lemma {:induction false} KeepsFrom(s: State, after: seq<Event>)
    requires Inv(s)
    ensures Inv(RunFrom(s, after))
  {
    if after != [] {
      KeepsFrom(s, after[..|after| - 1]);
      StepKeeps(RunFrom(s, after[..|after| - 1]), after[|after| - 1]);
    }
  }

  /** No memo or one of the resolutions from number m on, and no reply from number k on shares an earlier one. */
  ghost predicate Afresh(t: State, m: nat, k: nat) {
    && (t.memo.Some? ==> m <= t.memo.value)
    && m <= |t.resolutions|
    && forall i :: k <= i < |t.replies| && t.replies[i].Shares? ==> m <= t.replies[i].resolution
  }

  lemma AfreshStep(t: State, e: Event, m: nat, k: nat)
    requires Afresh(t, m, k)
    ensures Afresh(Step(t, e), m, k)
  {
  }

  /** An abort does not poison: once the memo is cleared, no call ever again shares a resolution started before, and nothing is open. */
  lemma {:induction false} AbortDoesNotPoison(before: seq<Event>, after: seq<Event>)
    requires Run(before).memo == None
    ensures Afresh(RunFrom(Run(before), after), |Run(before).resolutions|, |Run(before).replies|)
    ensures forall p :: 0 <= p < |Run(before).resolutions| ==> !Open(Run(before).resolutions[p])
  {
    RunKeeps(before);
    if after != [] {
      AbortDoesNotPoison(before, after[..|after| - 1]);
      AfreshStep(RunFrom(Run(before), after[..|after| - 1]), after[|after| - 1], |Run(before).resolutions|, |Run(before).replies|);
    }
  }

  // ----- one thing the memo does not prevent -----

  /** Call number k, whose own signal has not aborted, waits for a resolution that failed with the abort of its starter. */
  ghost predicate FailsByForeignAbort(t: State, k: nat) {
    && k < |t.replies| && t.replies[k].Shares? && t.replies[k].resolution < |t.resolutions|
    && AbortReason(t, t.replies[k].signal) == None
    && OwnAbort(t, t.replies[k].resolution)
  }

  /** The state after a call and whatever follows it. */
  function AfterCall(s: State, signal: Option<nat>, after: seq<Event>): State {
    RunFrom(Step(s, Call(signal)), after)
  }

  /** A call fails so if and only if it found a memo, and the resolution it joined ends in its starter's abort while its own signal lives. */
  lemma ForeignAbortIff(before: seq<Event>, signal: Option<nat>, after: seq<Event>)
    ensures var s := Run(before);
            var t := AfterCall(s, signal, after);
            FailsByForeignAbort(t, |s.replies|) <==>
              && s.ready && s.memo.Some?
              && s.memo.value < |t.resolutions| && OwnAbort(t, s.memo.value)
              && AbortReason(t, signal) == None
  {
    var s := Run(before);
    RunKeeps(before);
    RunContinues(Step(s, Call(signal)), after);
    StepContinues(s, Call(signal));
  }

  /** The memo at the time of the call may yet fail with the abort of a signal that is not the call's own. */
  predicate Exposed(s: State, signal: Option<nat>) {
    && s.ready && AbortReason(s, signal) == None
    && s.memo.Some? && s.memo.value < |s.resolutions|
    && var r := s.resolutions[s.memo.value];
       && r.signal.Some? && r.signal != signal
       && match r.outcome
          case Pending => true
          case Fulfilled(_) => false
          case Failed(error) => r.signal.value in s.aborted ==> s.aborted[r.signal.value] == error
  }

  /** A continuation in which an exposed call does fail. */
  function Exposure(s: State, signal: Option<nat>): seq<Event>
    requires Exposed(s, signal)
  {
    var p := s.memo.value;
    var source := s.resolutions[p].signal.value;
    match s.resolutions[p].outcome
    case Failed(error) => [Abort(source, error)]
    case _ =>
      if source in s.aborted then [Settle(p, Failed(s.aborted[source]))] else [Abort(source, 0), Settle(p, Failed(0))]
  }

  lemma RunOne(s: State, e: Event)
    ensures RunFrom(s, [e]) == Step(s, e)
  {
    assert [e][..0] == [];
  }

  lemma RunTwo(s: State, e: Event, f: Event)
    ensures RunFrom(s, [e, f]) == Step(Step(s, e), f)
  {
    assert [e, f][..1] == [e];
    RunOne(s, e);
  }

  lemma ExposedCallCanFail(before: seq<Event>, signal: Option<nat>)
    requires Exposed(Run(before), signal)
    ensures var s := Run(before);
            FailsByForeignAbort(AfterCall(s, signal, Exposure(s, signal)), |s.replies|)
  {
    var s := Run(before);
    var u := Step(s, Call(signal));
    assert u == s.(replies := s.replies + [Shares(signal, s.memo.value)]);
    var after := Exposure(s, signal);
    if |after| == 1 {
      RunOne(u, after[0]);
    } else {
      RunTwo(u, after[0], after[1]);
    }
  }

  /**
   Before the call it can be seen whether it is safe: it fails by a foreign abort in some continuation if and
   only if it is made with a live signal while the memo holds a resolution of another signal that is running, or
   has failed with an error that signal may still abort, or has aborted, with.
   */
  lemma SafeFromForeignAbortIff(before: seq<Event>, signal: Option<nat>)
    ensures (forall after :: !FailsByForeignAbort(AfterCall(Run(before), signal, after), |Run(before).replies|))
            <==> !Exposed(Run(before), signal)
  {
    var s := Run(before);
    if Exposed(s, signal) {
      ExposedCallCanFail(before, signal);
      assert FailsByForeignAbort(AfterCall(s, signal, Exposure(s, signal)), |s.replies|);
    } else {
      forall after ensures !FailsByForeignAbort(AfterCall(s, signal, after), |s.replies|) {
        ForeignAbortIff(before, signal, after);
        RunKeeps(before);
        StepContinues(s, Call(signal));
        RunContinues(Step(s, Call(signal)), after);
      }
    }
  }

  ghost predicate Reachable(s: State) {
    exists events: seq<Event> :: Run(events) == s
  }

  lemma ReachStep(s: State, e: Event)
    requires Reachable(s)
    ensures Reachable(Step(s, e))
  {
    var events :| Run(events) == s;
    assert (events + [e])[..|events + [e]| - 1] == events;
    assert Run(events + [e]) == Step(s, e);
  }

  /** A caller that joined before the abort shares the failure, although its own signal never aborted. */
  lemma JoinedCallerSharesTheAbort() returns (s: State)
    ensures Reachable(s)
    ensures s.replies == [Shares(Some(1), 0), Shares(Some(2), 0)] && |s.resolutions| == 1
    ensures s.resolutions[0].signal == Some(1) && s.resolutions[0].outcome == Failed(9) && s.aborted == map[1 := 9]
    ensures s.memo == None && FailsByForeignAbort(s, 1)
  {
    s := INIT;
    assert Run([]) == INIT;
    ReachStep(s, SetUp);
    s := Step(s, SetUp);
    ReachStep(s, Call(Some(1)));
    s := Step(s, Call(Some(1)));
    ReachStep(s, Call(Some(2)));
    s := Step(s, Call(Some(2)));
    ReachStep(s, Abort(1, 9));
    s := Step(s, Abort(1, 9));
    ReachStep(s, Settle(0, Failed(9)));
    s := Step(s, Settle(0, Failed(9)));
    ReachStep(s, RunHandler(0));
    s := Step(s, RunHandler(0));
  }
}
