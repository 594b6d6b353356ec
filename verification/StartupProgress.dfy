/**
 What the startup protocol does, beyond keeping its accounts: the handler releases a running attempt, an abort ends the
 operation, failed stages end their attempt, and stages that do their work lead to success.
 */
module StartupProgress {
  import opened Common
  import opened StartupProtocol
  import opened StartupSafety

  // ----- what the timeout handler does for an attempt that is still running -----

  /** While the sandbox or the thread is awaited, the closure for that stage of the current attempt is published. */
  ghost predicate Published(s: State) {
    && (ThreadStage(s.pc) ==> s.onTimeout == Resources(s.number))
    && (s.pc == AwaitSandbox ==> s.onTimeout == SandboxOnly(s.number))
  }

  lemma OutsidePublishes(s: State, e: Event)
    requires Published(s) && Outside(e)
    ensures Published(Apply(s, e))
  {
  }

  lemma FailurePublishes(s: State, e: Event)
    requires FailureEvent(e)
    ensures Published(Apply(s, e))
  {
  }

  lemma StagePublishes(s: State, e: Event)
    requires Published(s) && Enabled(s, e) && !Outside(e) && !FailureEvent(e)
    ensures Published(Apply(s, e))
  {
  }

  lemma {:induction false} RunPublishes(events: seq<Event>)
    ensures Published(Run(events))
  {
    if events != [] {
      var s, e := Run(events[..|events| - 1]), events[|events| - 1];
      RunPublishes(events[..|events| - 1]);
      if Enabled(s, e) {
        if Outside(e) { OutsidePublishes(s, e); } else if FailureEvent(e) { FailurePublishes(s, e); } else { StagePublishes(s, e); }
      }
    }
  }

  /** The account of an attempt that holds neither sandbox nor route any more. */
  ghost predicate HoldsNoResources(v: Attempt) {
    && v.sandboxFrees == v.sandboxTakes
    && v.reservation == None
    && forall k :: 0 <= k < |v.routeFrees| ==> v.routeFrees[k] == 1
  }

  /**
   When the handler's clean-up runs while the operation is held up in its thread stage, the attempt has its sandbox and
   every one of its routes released at that step, once, without waiting for the operation.
   */
  lemma TimeoutReleasesTheRunningAttempt(events: seq<Event>)
    requires Run(events).handler == Notifying && ThreadStage(Run(events).pc)
    ensures var s, t := Run(events), Step(Run(events), NotifySettles(true));
            && HoldsNoResources(t.cur)
            && t.pc == s.pc && t.number == s.number && t.cur.sandboxTakes == s.cur.sandboxTakes
            && |t.cur.routeFrees| == |s.cur.routeFrees|
  {
    RunKeeps(events);
    RunPublishes(events);
    StepKeeps(Run(events), NotifySettles(true));
    RunningAttemptIsFreed(Run(events));
  }

  lemma RunningAttemptIsFreed(s: State)
    requires s.onTimeout == Resources(s.number) && |s.past| == s.number
    ensures var t := RunCleanup(s);
            && !t.cur.sandboxHeld && t.cur.reservation == None
            && t == s.(cur := t.cur)
            && t.cur.sandboxTakes == s.cur.sandboxTakes && t.cur.mishap == s.cur.mishap && t.cur.phase == s.cur.phase
            && |t.cur.routeFrees| == |s.cur.routeFrees|
  {
  }

  /** Nothing of the lease of a running attempt is left once the handler or the caller has swept it. */
  ghost predicate SweptOk(s: State) {
    LeaseSwept(s) && s.cur.leased && s.cur.phase == Live ==> s.cur.leaseReleased
  }

  lemma SweptRelease(s: State)
    requires Inv(s)
    ensures var t := FreeSharedLease(s);
            && t.cur.phase == s.cur.phase && t.cur.leased == s.cur.leased
            && (s.cur.leased && s.cur.phase == Live && (SweptOk(s) || !LeaseSwept(s)) ==> t.cur.leaseReleased)
  {
    FreeSharedLeaseIs(s);
  }

  lemma SweptOutside(s: State, e: Event)
    requires Inv(s) && SweptOk(s) && Enabled(s, e) && Outside(e)
    ensures SweptOk(Apply(s, e))
  {
    match e
    case NotifySettles(_) => CleanupKeepsLease(s);
    case ReleaseSettles(_) => SweptRelease(s);
    case CallerRejects(_) => SweptRelease(s);
    case _ =>
  }

  lemma CleanupKeepsLease(s: State)
    requires |s.past| == s.number
    ensures var t := RunCleanup(s);
            && t.cur.leased == s.cur.leased && t.cur.leaseReleased == s.cur.leaseReleased && t.cur.phase == s.cur.phase
            && t.handler == s.handler && t.caller == s.caller
  {
  }

  /** Outside its client stage the operation does not touch the lease of an attempt that stays alive. */
  ghost predicate KeepsLease(s: State, t: State) {
    && t.handler == s.handler && t.caller == s.caller
    && (t.cur.phase == Live ==> s.cur.phase == Live && t.cur.leased == s.cur.leased && t.cur.leaseReleased == s.cur.leaseReleased)
  }

  lemma SandboxStageKeepsLease(s: State, e: Event)
    requires e.PrepareDone? || e.SandboxSettles?
    ensures KeepsLease(s, Apply(s, e))
  {
  }

  lemma LifecycleKeepsLease(s: State, e: Event)
    requires e.LifecycleReserves? || e.LifecycleReleases?
    ensures KeepsLease(s, Apply(s, e))
  {
  }

  lemma ThreadStartsKeepsLease(s: State, thread: nat, reserveOk: bool, monitorOk: bool)
    ensures KeepsLease(s, ThreadStartsStep(s, thread, reserveOk, monitorOk))
  {
  }

  lemma FailureKeepsLease(s: State, e: Event)
    requires FailureEvent(e)
    ensures KeepsLease(s, Apply(s, e))
  {
  }

  lemma SweptClient(s: State, e: Event)
    requires Inv(s) && SweptOk(s) && Enabled(s, e) && (e.BeginAttempt? || e.ClientSettles?)
    ensures SweptOk(Apply(s, e))
  {
  }

  lemma SweptStep(s: State, e: Event)
    requires Inv(s) && SweptOk(s) && Enabled(s, e)
    ensures SweptOk(Apply(s, e))
  {
    if Outside(e) {
      SweptOutside(s, e);
    } else if e.BeginAttempt? || e.ClientSettles? {
      SweptClient(s, e);
    } else if FailureEvent(e) {
      FailureKeepsLease(s, e);
    } else if e.PrepareDone? || e.SandboxSettles? {
      SandboxStageKeepsLease(s, e);
    } else if e.LifecycleReserves? || e.LifecycleReleases? {
      LifecycleKeepsLease(s, e);
    } else if e.ThreadStarts? {
      ThreadStartsKeepsLease(s, e.thread, e.reserveOk, e.monitorOk);
    }
  }

  lemma {:induction false} RunSweeps(events: seq<Event>)
    ensures SweptOk(Run(events))
  {
    if events != [] {
      var s, e := Run(events[..|events| - 1]), events[|events| - 1];
      RunSweeps(events[..|events| - 1]);
      RunKeeps(events[..|events| - 1]);
      if Enabled(s, e) { SweptStep(s, e); }
    }
  }

  /**
   From the moment the handler's own release has run, or the caller has retired the client, the lease of the current
   attempt has been freed once if it was ever taken, whatever the operation still waits for, and none is shared.
   */
  lemma SweepFreesTheLease(events: seq<Event>)
    requires var s := Run(events); s.handler == Closing || s.handler == Done || s.caller == Rejected(true)
    ensures Run(events).cur.leaseFrees == BoolToNat(Run(events).cur.leased)
    ensures Run(events).sharedLease == None
  {
    RunKeeps(events);
    RunSweeps(events);
  }

  /** And the handler gets there: its release, if it does not throw, leads to that place. */
  lemma ReleaseLeadsToTheSweep(events: seq<Event>)
    requires Run(events).handler == Releasing
    ensures Run(events + [ReleaseSettles(true)]).handler == Closing
    ensures Run(events + [ReleaseSettles(true)]).pc == Run(events).pc
  {
    assert (events + [ReleaseSettles(true)])[..|events|] == events;
  }

  /** Where one of the handler's steps throws, it stops: nothing else changes, and nothing of the handler follows. */
  lemma HandlerStopsAtAThrow(events: seq<Event>, more: seq<Event>)
    requires Run(events).handler == Notifying || Run(events).handler == Releasing
    ensures var s := Run(events);
            var e := if s.handler == Notifying then NotifySettles(false) else ReleaseSettles(false);
            Step(s, e) == s.(handler := Broken) && Run(events + [e] + more).handler == Broken
  {
    var s := Run(events);
    var e := if s.handler == Notifying then NotifySettles(false) else ReleaseSettles(false);
    assert (events + [e])[..|events|] == events;
    BrokenStays(events + [e], more);
  }

  lemma BrokenStep(s: State, e: Event)
    requires s.handler == Broken
    ensures Step(s, e).handler == Broken
  {
  }

  lemma {:induction false} BrokenStays(events: seq<Event>, more: seq<Event>)
    requires Run(events).handler == Broken
    ensures Run(events + more).handler == Broken
  {
    if more == [] {
      assert events + more == events;
    } else {
      var last := |more| - 1;
      BrokenStays(events, more[..last]);
      assert (events + more)[..|events + more| - 1] == events + more[..last];
      BrokenStep(Run(events + more[..last]), more[last]);
    }
  }

  /** When the lifecycle gives its reservation back, every route of the attempt has been released once. */
  lemma LifecycleReleaseFreesTheRoute(events: seq<Event>)
    requires Run(events).pc == AwaitThread
    ensures var v := Step(Run(events), LifecycleReleases).cur;
            v.reservation == None && forall k :: 0 <= k < |v.routeFrees| ==> v.routeFrees[k] == 1
  {
    RunKeeps(events);
    StepKeeps(Run(events), LifecycleReleases);
  }

  /**
   A started thread is unsubscribed if and only if its route cannot be reserved: the lifecycle reserved that of another
   thread, or reserved none and reserving it now throws. Until then nothing is released.
   */
  lemma UnsubscribedIff(events: seq<Event>, thread: nat, reserveOk: bool, monitorOk: bool)
    requires Run(events).pc == AwaitThread
    ensures var s, t := Run(events), Step(Run(events), ThreadStarts(thread, reserveOk, monitorOk));
            && (t.pc == AwaitUnsubscribe <==>
                  if s.cur.reservation.Some? then s.cur.reservation.value.thread != thread else !reserveOk)
            && (t.pc == AwaitUnsubscribe ==> t == s.(pc := AwaitUnsubscribe))
  {
  }

  // ----- an abort ends the operation -----

  /** How many of its own events an aborted operation has at most before it is rejected. */
  function AbortRank(pc: OpPc): nat {
    match pc
    case Preparing => 4
    case AwaitThread => 4
    case Backoff => 3
    case AwaitSandbox => 3
    case AwaitUnsubscribe => 3
    case LoopHead => 2
    case AwaitClient => 2
    case SandboxCleanup => 2
    case ResourceCleanup => 2
    case ClientRetirement => 1
    case _ => 0
  }

  ghost predicate LifecycleEvent(e: Event) {
    e.LifecycleReserves? || e.LifecycleReleases?
  }

  lemma OutsideKeepsPlace(s: State, e: Event)
    requires Outside(e)
    ensures Apply(s, e).pc == s.pc && Apply(s, e).aborted == (s.aborted || e.SignalAborts? || e.TimerFires?)
  {
  }

  lemma FailureDescends(s: State, e: Event)
    requires Enabled(s, e) && FailureEvent(e)
    ensures AbortRank(Apply(s, e).pc) < AbortRank(s.pc) && Apply(s, e).pc != OpResolved && Apply(s, e).aborted == s.aborted
  {
  }

  lemma ClientDescends(s: State, e: Event)
    requires Inv(s) && s.aborted && Enabled(s, e) && (e.BeginAttempt? || e.ClientSettles? || LoopEvent(e))
    ensures AbortRank(Apply(s, e).pc) < AbortRank(s.pc) && Apply(s, e).pc != OpResolved && Apply(s, e).aborted
  {
  }

  lemma StageDescends(s: State, e: Event)
    requires s.aborted && Enabled(s, e) && (e.PrepareDone? || e.SandboxSettles? || e.ThreadStarts?)
    ensures AbortRank(Apply(s, e).pc) < AbortRank(s.pc) && Apply(s, e).pc != OpResolved && Apply(s, e).aborted
  {
  }

  /** After an abort every event of the operation, but for the lifecycle's reservations, brings it nearer to its rejection. */
  lemma AbortedStepDescends(s: State, e: Event)
    requires Inv(s) && s.aborted && Enabled(s, e) && !Outside(e) && !LifecycleEvent(e)
    ensures AbortRank(Step(s, e).pc) < AbortRank(s.pc) && Step(s, e).pc != OpResolved && Step(s, e).aborted
  {
    if FailureEvent(e) {
      FailureDescends(s, e);
    } else if e.PrepareDone? || e.SandboxSettles? || e.ThreadStarts? {
      StageDescends(s, e);
    } else {
      ClientDescends(s, e);
    }
  }

  /** An event of the operation that takes place, without the lifecycle's. */
  ghost predicate OperationStep(s: State, e: Event) {
    Enabled(s, e) && !Outside(e) && !LifecycleEvent(e)
  }

  /** How many of them there are in a continuation. */
  ghost function OperationSteps(events: seq<Event>, more: seq<Event>): nat {
    if more == [] then 0
    else
      var last := |more| - 1;
      OperationSteps(events, more[..last]) + BoolToNat(OperationStep(Run(events + more[..last]), more[last]))
  }

  lemma LifecycleKeepsPlace(s: State, e: Event)
    requires LifecycleEvent(e)
    ensures Apply(s, e).pc == s.pc && Apply(s, e).aborted == s.aborted
  {
  }

  lemma AbortedStep(s: State, e: Event)
    requires Inv(s) && s.aborted && s.pc != OpResolved
    ensures var t := Step(s, e);
            t.aborted && t.pc != OpResolved && AbortRank(t.pc) + BoolToNat(OperationStep(s, e)) <= AbortRank(s.pc)
  {
    if Enabled(s, e) {
      if Outside(e) {
        OutsideKeepsPlace(s, e);
      } else if LifecycleEvent(e) {
        LifecycleKeepsPlace(s, e);
      } else {
        AbortedStepDescends(s, e);
      }
    }
  }

  /** Aborted, and not yet successful. */
  ghost predicate Aborting(s: State) {
    s.aborted && s.pc != OpResolved
  }

  lemma AbortedRunStep(events: seq<Event>, e: Event)
    requires Aborting(Run(events))
    ensures Aborting(Run(events + [e]))
    ensures AbortRank(Run(events + [e]).pc) + BoolToNat(OperationStep(Run(events), e)) <= AbortRank(Run(events).pc)
  {
    RunKeeps(events);
    AbortedStep(Run(events), e);
    assert (events + [e])[..|events|] == events;
  }

  /** An aborted startup that has not succeeded yet never does, and its operation has at most four events left. */
  lemma {:induction false} AbortEndsTheOperation(events: seq<Event>, more: seq<Event>)
    requires Aborting(Run(events))
    ensures Aborting(Run(events + more))
    ensures AbortRank(Run(events + more).pc) + OperationSteps(events, more) <= AbortRank(Run(events).pc) <= 4
  {
    if more == [] {
      assert events + more == events;
    } else {
      var last := |more| - 1;
      AbortEndsTheOperation(events, more[..last]);
      AbortedRunStep(events + more[..last], more[last]);
      assert events + more == events + more[..last] + [more[last]];
    }
  }

  /** Such a startup never returns a result. */
  lemma AbortingReturnsNothing(events: seq<Event>)
    requires Aborting(Run(events))
    ensures !Run(events).caller.Returned?
  {
    RunKeeps(events);
  }

  // ----- a stage that failed, and stages that do not -----

  /** An event that reports the failure of a stage. */
  predicate StageFails(e: Event) {
    match e
    case BeginAttempt(admitted) => !admitted
    case ClientSettles(ok) => !ok
    case PrepareFails => true
    case PrepareDone(admitted, required, resolversOk) => !admitted || (!required && !resolversOk)
    case SandboxSettles(ok, registered, resolversOk) => !ok || !registered || !resolversOk
    case ThreadFails => true
    case ThreadStarts(_, _, monitorOk) => !monitorOk
    case _ => false
  }

  /** The attempt is past saving. */
  ghost predicate Lost(s: State, n: nat) {
    && Begun(s, n)
    && (n == s.number && s.cur.phase != Failed ==>
          s.cur.phase == Live && (s.pc == SandboxCleanup || s.pc == ResourceCleanup || s.pc == AwaitUnsubscribe))
  }

  lemma ClientFailureLoses(s: State, e: Event)
    requires Inv(s) && Enabled(s, e) && StageFails(e) && (e.BeginAttempt? || e.ClientSettles?)
    ensures Lost(Apply(s, e), Apply(s, e).number)
  {
  }

  lemma SandboxFailureLoses(s: State, e: Event)
    requires Inv(s) && Enabled(s, e) && StageFails(e) && (e.PrepareFails? || e.PrepareDone? || e.SandboxSettles?)
    ensures Lost(Apply(s, e), Apply(s, e).number)
  {
  }

  lemma FailThreadStageLoses(s: State)
    requires Begun(s, s.number)
    ensures s.cur.phase == Live ==> Lost(FailThreadStage(s), s.number)
  {
  }

  lemma ThreadStartsLoses(s: State, thread: nat, reserveOk: bool)
    requires Inv(s) && s.pc == AwaitThread
    ensures Lost(ThreadStartsStep(s, thread, reserveOk, false), s.number)
  {
    match ReserveStarted(s.cur, thread, reserveOk)
    case None =>
    case Some(v) =>
      FailThreadStageLoses(s.(cur := v));
      FailThreadStageLoses(s.(cur := v.(sandboxHeld := false, mishap := MonitorThrew)));
  }

  lemma StageFailureLoses(s: State, e: Event)
    requires Inv(s) && Enabled(s, e) && StageFails(e)
    ensures Lost(Apply(s, e), Apply(s, e).number)
  {
    if e.BeginAttempt? || e.ClientSettles? {
      ClientFailureLoses(s, e);
    } else if e.ThreadFails? {
      FailThreadStageLoses(s);
    } else if e.ThreadStarts? {
      ThreadStartsLoses(s, e.thread, e.reserveOk);
    } else {
      SandboxFailureLoses(s, e);
    }
  }

  lemma LostOutside(s: State, e: Event, n: nat)
    requires Inv(s) && Lost(s, n) && Enabled(s, e) && Outside(e)
    ensures Lost(Apply(s, e), n)
  {
    OutsideIsLocal(s, e);
    OutsideAccounts(s, e, s.number);
  }

  lemma LostFailure(s: State, e: Event)
    requires Lost(s, s.number) && FailureEvent(e) && Enabled(s, e)
    ensures Lost(Apply(s, e), s.number) && Apply(s, e).number == s.number
  {
  }

  lemma FailureKeepsNumber(s: State, e: Event)
    requires !Outside(e) && !e.BeginAttempt?
    ensures Apply(s, e).number == s.number
  {
  }

  lemma LostBegin(s: State, admitted: bool, n: nat)
    requires Inv(s) && Lost(s, n) && s.pc == LoopHead
    ensures Lost(BeginAttemptStep(s, admitted), n)
  {
  }

  lemma LostInside(s: State, e: Event, n: nat)
    requires Inv(s) && Lost(s, n) && Enabled(s, e) && !Outside(e)
    ensures Lost(Apply(s, e), n)
  {
    if e.BeginAttempt? {
      LostBegin(s, e.admitted, n);
    } else if n < s.number {
      FailureKeepsNumber(s, e);
    } else if FailureEvent(e) {
      LostFailure(s, e);
    } else {
      LoopKeepsAttempt(s, e);
    }
  }

  lemma {:induction false} LostStaysLost(events: seq<Event>, more: seq<Event>, n: nat)
    requires Lost(Run(events), n)
    ensures Lost(Run(events + more), n)
  {
    if more == [] {
      assert events + more == events;
    } else {
      var last := |more| - 1;
      var u, e := Run(events + more[..last]), more[last];
      LostStaysLost(events, more[..last], n);
      RunKeeps(events + more[..last]);
      assert (events + more)[..|events + more| - 1] == events + more[..last];
      if Enabled(u, e) {
        if Outside(e) { LostOutside(u, e, n); } else { LostInside(u, e, n); }
      }
    }
  }

  /** An attempt one of whose stages failed does not succeed in any continuation. */
  lemma StageFailureIsFinal(events: seq<Event>, e: Event, more: seq<Event>)
    requires Enabled(Run(events), e) && StageFails(e)
    ensures var n := Run(events + [e]).number;
            !AttemptAt(Run(events + [e] + more), n).phase.Succeeded?
  {
    var s := Run(events);
    RunKeeps(events);
    assert (events + [e])[..|events|] == events;
    StageFailureLoses(s, e);
    LostStaysLost(events + [e], more, Run(events + [e]).number);
    RunKeeps(events + [e] + more);
    var t := Run(events + [e] + more);
    var n := Run(events + [e]).number;
    if n < t.number {
      PastIsClosed(t, n);
    }
  }

  lemma RunAppend(events: seq<Event>, e: Event)
    ensures Run(events + [e]) == Step(Run(events), e)
  {
    assert (events + [e])[..|events|] == events;
  }

  /** The events of an attempt in which every stage does its work. */
  function GoodAttempt(thread: nat, sandbox: bool): seq<Event> {
    [BeginAttempt(true), ClientSettles(true), PrepareDone(true, sandbox, true)]
      + (if sandbox then [SandboxSettles(true, true, true)] else [])
      + [ThreadStarts(thread, true, true), CallerReturns]
  }

  /** A quiet place of attempt n: nothing was aborted, and the caller waits. */
  ghost predicate Quiet(s: State, n: nat) {
    s.number == n && !s.aborted && s.handler == Idle && s.caller == Waiting
  }

  lemma GoodBegin(s: State)
    requires Inv(s) && s.pc == LoopHead && !s.aborted
    ensures var t := Step(s, BeginAttempt(true));
            t.pc == AwaitClient && Quiet(t, s.number + 1) && t.cur == FRESH_ATTEMPT
  {
  }

  lemma GoodClient(s: State)
    requires s.pc == AwaitClient && Quiet(s, s.number) && s.cur == FRESH_ATTEMPT
    ensures var t := Step(s, ClientSettles(true));
            t.pc == Preparing && Quiet(t, s.number) && t.cur == FRESH_ATTEMPT.(leased := true) && t.sharedLease == Some(s.number)
  {
  }

  lemma GoodClientStage(events: seq<Event>)
    requires Run(events).pc == LoopHead && !Run(events).aborted
    ensures var n := Run(events).number + 1;
            var t := Run(events + [BeginAttempt(true)] + [ClientSettles(true)]);
            t.pc == Preparing && Quiet(t, n) && t.cur == FRESH_ATTEMPT.(leased := true) && t.sharedLease == Some(n)
  {
    RunAppend(events, BeginAttempt(true));
    RunAppend(events + [BeginAttempt(true)], ClientSettles(true));
    RunKeeps(events);
    GoodBegin(Run(events));
    GoodClient(Step(Run(events), BeginAttempt(true)));
  }

  /** The events of the sandbox stage. */
  function SandboxEvents(sandbox: bool): seq<Event> {
    [PrepareDone(true, sandbox, true)] + if sandbox then [SandboxSettles(true, true, true)] else []
  }

  lemma GoodSandboxStage(events: seq<Event>, sandbox: bool)
    requires var s := Run(events);
             s.pc == Preparing && Quiet(s, s.number) && s.cur == FRESH_ATTEMPT.(leased := true) && s.sharedLease == Some(s.number)
    ensures var s, t := Run(events), Run(events + SandboxEvents(sandbox));
            && t.pc == AwaitThread && Quiet(t, s.number) && t.sharedLease == s.sharedLease
            && t.cur == s.cur.(sandboxHeld := sandbox, sandboxTakes := BoolToNat(sandbox))
  {
    var e := PrepareDone(true, sandbox, true);
    RunAppend(events, e);
    if sandbox {
      RunAppend(events + [e], SandboxSettles(true, true, true));
      assert events + SandboxEvents(sandbox) == events + [e] + [SandboxSettles(true, true, true)];
    } else {
      assert events + SandboxEvents(sandbox) == events + [e];
    }
  }

  lemma GoodThread(s: State, thread: nat)
    requires s.pc == AwaitThread && Quiet(s, s.number) && s.cur.reservation == None
    ensures var t := Step(s, ThreadStarts(thread, true, true));
            && t.pc == OpResolved && Quiet(t, s.number) && t.sharedLease == s.sharedLease
            && t.cur.phase == Succeeded(thread) && t.cur.sandboxTakes == s.cur.sandboxTakes
  {
  }

  lemma GoodReturn(s: State)
    requires s.pc == OpResolved && Quiet(s, s.number) && s.sharedLease.Some?
    ensures Step(s, CallerReturns) == s.(caller := Returned(s.sharedLease.value))
  {
  }

  lemma GoodThreadStage(events: seq<Event>, thread: nat)
    requires var s := Run(events);
             s.pc == AwaitThread && Quiet(s, s.number) && s.sharedLease == Some(s.number) && s.cur.reservation == None
    ensures var s, t := Run(events), Run(events + [ThreadStarts(thread, true, true)] + [CallerReturns]);
            t.caller == Returned(s.number) && t.number == s.number && t.cur.phase == Succeeded(thread) && t.cur.sandboxTakes == s.cur.sandboxTakes
  {
    RunAppend(events, ThreadStarts(thread, true, true));
    RunAppend(events + [ThreadStarts(thread, true, true)], CallerReturns);
    GoodThread(Run(events), thread);
    GoodReturn(Step(Run(events), ThreadStarts(thread, true, true)));
  }

  /** Wherever a startup stands before an attempt and is not aborted, it succeeds if that attempt's stages do their work. */
  lemma StartupCanStillSucceed(events: seq<Event>, thread: nat, sandbox: bool)
    requires Run(events).pc == LoopHead && !Run(events).aborted
    ensures var s, t := Run(events), Run(events + GoodAttempt(thread, sandbox));
            && t.caller == Returned(s.number + 1) && t.number == s.number + 1
            && t.cur.phase == Succeeded(thread) && t.cur.sandboxTakes == BoolToNat(sandbox)
  {
    var client := events + [BeginAttempt(true)] + [ClientSettles(true)];
    GoodClientStage(events);
    GoodSandboxStage(client, sandbox);
    GoodThreadStage(client + SandboxEvents(sandbox), thread);
    assert events + GoodAttempt(thread, sandbox)
        == client + SandboxEvents(sandbox) + [ThreadStarts(thread, true, true)] + [CallerReturns];
  }

  /** And so does one that waits to retry. */
  lemma RetryCanStillSucceed(events: seq<Event>, thread: nat, sandbox: bool)
    requires Run(events).pc == Backoff && !Run(events).aborted
    ensures var s, t := Run(events), Run(events + [BackoffSettles(true)] + GoodAttempt(thread, sandbox));
            t.caller == Returned(s.number + 1) && t.cur.phase == Succeeded(thread)
  {
    RunAppend(events, BackoffSettles(true));
    StartupCanStillSucceed(events + [BackoffSettles(true)], thread, sandbox);
  }

  // ----- which errors are retried -----

  /** A replaced client has been retried before: that is what the flag remembers while the loop runs. */
  ghost predicate ReplacedOk(s: State) {
    s.pc != OpRejected ==> (s.replaced <==> s.replacementRetries == 1)
  }

  lemma ReplacedOutside(s: State, e: Event)
    requires Outside(e)
    ensures Apply(s, e).replaced == s.replaced && Apply(s, e).replacementRetries == s.replacementRetries && Apply(s, e).pc == s.pc
  {
  }

  lemma ReplacedInside(s: State, e: Event)
    requires !Outside(e) && !LoopEvent(e) && Enabled(s, e)
    ensures Apply(s, e).replaced == s.replaced && Apply(s, e).replacementRetries == s.replacementRetries && s.pc != OpRejected
  {
  }

  lemma {:induction false} RunReplaced(events: seq<Event>)
    ensures ReplacedOk(Run(events))
  {
    if events != [] {
      var s, e := Run(events[..|events| - 1]), events[|events| - 1];
      RunReplaced(events[..|events| - 1]);
      RunKeeps(events[..|events| - 1]);
      if Enabled(s, e) && Outside(e) {
        ReplacedOutside(s, e);
      } else if Enabled(s, e) && !LoopEvent(e) {
        ReplacedInside(s, e);
      }
    }
  }

  /**
   An error is retried if and only if the startup is not aborted, attempts are left, no socket failed to open, and it is
   the first client replacement of the run, or no replacement but a changed selection or a closed connection. The wait
   before the retry is one second after the first attempt and two after the second, and none if the client is another.
   */
  lemma RetriedIff(events: seq<Event>, e: ErrorKind)
    requires Run(events).pc == ClientRetirement
    ensures var s, t := Run(events), Step(Run(events), AttemptSettles(e));
            && (t.pc == Backoff || t.pc == OpRejected)
            && (t.pc == Backoff <==>
                  && !s.aborted && s.number < 3 && !e.socketFailure
                  && if e.clientRetired then s.replacementRetries == 0 else e.selectionChanged || e.connectionClosed)
            && (t.pc == Backoff ==>
                  t.backoffMs - s.backoffMs == if e.selectionChanged || e.clientRetired then 0 else if s.number == 1 then 1000 else 2000)
            && (t.pc == OpRejected ==> t.backoffMs == s.backoffMs)
  {
    RunKeeps(events);
    RunReplaced(events);
    assert RetryDelay(2) == 2 * RetryDelay(1);
  }
}
