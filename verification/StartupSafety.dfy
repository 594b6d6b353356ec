/**
 What the startup protocol keeps in every interleaving: exactly-once ownership of leases, sandbox
 environments and route reservations, and the bounds of the retry loop.
 */
module StartupSafety {
  import opened Common
  import opened StartupProtocol

  // ----- the invariant -----

  ghost predicate ThreadStage(pc: OpPc) {
    pc == AwaitThread || pc == AwaitUnsubscribe
  }

  /** The current attempt has begun and has not yet ended. */
  ghost predicate Mid(pc: OpPc) {
    pc == AwaitClient || pc == Preparing || pc == AwaitSandbox || pc == SandboxCleanup ||
    ThreadStage(pc) || pc == ResourceCleanup
  }

  /** The lease closure ran exactly when its flag says so, and a failed attempt has run it. */
  ghost predicate LeaseOk(v: Attempt) {
    && v.leaseFrees == BoolToNat(v.leaseReleased)
    && (v.leaseReleased ==> v.leased)
    && (v.phase == Failed && v.leased ==> v.leaseReleased)
  }

  /** Every acquired sandbox environment is held, released once, or given up by success or a mishap. */
  ghost predicate SandboxOk(v: Attempt) {
    && v.sandboxTakes <= 1
    && (v.sandboxHeld ==> v.sandboxTakes == 1 && v.sandboxFrees == 0 && !v.phase.Succeeded? && v.mishap != MonitorThrew)
    && (v.sandboxHeld && v.phase == Failed ==> v.mishap == ResolverThrew)
    && (!v.sandboxHeld ==>
          v.sandboxFrees == if v.phase.Succeeded? || v.mishap == MonitorThrew then 0 else v.sandboxTakes)
  }

  /** Every reservation has been released once, except the one still in the variable. */
  ghost predicate RouteOk(v: Attempt) {
    && (forall k :: 0 <= k < |v.routeFrees| ==>
          v.routeFrees[k] == if v.reservation.Some? && v.reservation.value.serial == k then 0 else 1)
    && (v.reservation.Some? ==> v.reservation.value.serial < |v.routeFrees| && v.phase != Failed)
    && (v.phase.Succeeded? ==> v.reservation.Some? && v.reservation.value.thread == v.phase.thread)
  }

  ghost predicate AttemptOk(v: Attempt) {
    LeaseOk(v) && SandboxOk(v) && RouteOk(v)
  }

  ghost predicate PastInv(s: State) {
    && |s.past| == s.number <= MAX_ATTEMPTS
    && (forall n :: 0 <= n < |s.past| ==> s.past[n].phase == Failed && AttemptOk(s.past[n]))
  }

  /** What the place of the operation says about the current attempt. */
  ghost predicate CurInv(s: State) {
    var v := s.cur;
    && AttemptOk(v)
    && s.pc != LoopExited
    && (s.pc != LoopHead ==> s.number >= 1)
    && (s.pc == LoopHead || s.pc == Backoff ==> s.number < MAX_ATTEMPTS)
    && (Mid(s.pc) <==> v.phase == Live)
    && (s.pc == OpResolved <==> v.phase.Succeeded?)
    && (Mid(s.pc) ==> (v.leased <==> s.pc != AwaitClient))
    && (s.pc == OpResolved ==> v.leased)
    && (v.reservation.Some? ==> ThreadStage(s.pc) || s.pc == OpResolved)
    && (v.phase == Live && v.mishap != NoMishap ==> s.pc == ResourceCleanup && v.mishap == MonitorThrew)
    && (s.pc == AwaitClient || s.pc == Preparing || s.pc == AwaitSandbox ==> v.sandboxTakes == 0)
    && (v.sandboxHeld && Mid(s.pc) ==> ThreadStage(s.pc))
    && (v.phase.Succeeded? ==> v.mishap == NoMishap)
    && (ThreadStage(s.pc) && !s.aborted ==> (v.sandboxHeld <==> v.sandboxTakes == 1))
  }

  /** The handler, or the caller's catch, has released whatever lease was shared at that time. */
  ghost predicate LeaseSwept(s: State) {
    s.handler == Closing || s.handler == Done || s.caller == Rejected(true)
  }

  /** What the shared variables say. */
  ghost predicate SharedInv(s: State) {
    && (s.handler != Idle ==> s.aborted)
    && (s.caller.Rejected? ==> s.aborted || s.pc == OpRejected)
    && (s.caller.Returned? ==> s.pc == OpResolved && s.handler == Idle && s.caller.lease == s.number)
    && (s.sharedLease.Some? ==>
          s.sharedLease.value == s.number && s.cur.leased && !s.cur.leaseReleased && s.cur.phase != Failed)
    && (s.cur.leased && s.cur.phase != Failed && !LeaseSwept(s) ==> s.sharedLease == Some(s.number))
    && (s.pc == OpResolved && LeaseSwept(s) ==> s.sharedLease == None && s.cur.leaseReleased)
    && (s.onTimeout.SandboxOnly? ==> s.onTimeout.attempt <= s.number)
    && (s.onTimeout.Resources? ==>
          s.onTimeout.attempt == s.number && (ThreadStage(s.pc) || s.pc == ResourceCleanup))
  }

  ghost predicate RetryInv(s: State) {
    && s.replacementRetries <= BoolToNat(s.replaced)
    && s.backoffMs <= 3000
    && (s.pc == LoopHead || s.pc == Backoff ==>
          (s.number == 0 ==> s.backoffMs == 0) && (s.number == 1 ==> s.backoffMs <= 1000))
    && (Mid(s.pc) || s.pc == ClientRetirement ==>
          (s.number <= 1 ==> s.backoffMs == 0) && (s.number == 2 ==> s.backoffMs <= 1000))
  }

  ghost predicate Inv(s: State) {
    PastInv(s) && CurInv(s) && SharedInv(s) && RetryInv(s)
  }

  // ----- the pieces of the program keep it -----

  /** An attempt that may now be ended by its `finally`. */
  ghost predicate Doomed(s: State) {
    && PastInv(s) && SharedInv(s) && RetryInv(s)
    && s.number >= 1
    && Mid(s.pc)
    && AttemptOk(s.cur)
    && s.cur.phase == Live
    && s.cur.reservation.None?
    && (s.cur.sandboxHeld ==> s.cur.mishap == ResolverThrew)
    && !s.onTimeout.Resources?
  }

  lemma FailAttemptKeeps(s: State)
    requires Doomed(s)
    ensures Inv(FailAttempt(s))
  {
  }

  /** An attempt past its client stage, about to run one of its two inner catches. */
  ghost predicate Failing(s: State) {
    && PastInv(s) && SharedInv(s) && RetryInv(s)
    && s.number >= 1
    && Mid(s.pc)
    && AttemptOk(s.cur)
    && s.cur.phase == Live
    && s.cur.leased && s.pc != AwaitClient
    && s.cur.mishap != ResolverThrew
  }

  lemma FailThreadStageKeeps(s: State)
    requires Failing(s)
    requires ThreadStage(s.pc)
    ensures Inv(FailThreadStage(s))
  {
  }

  lemma FailSandboxStageKeeps(s: State)
    requires Failing(s)
    requires s.cur.reservation.None? && s.cur.mishap == NoMishap
    requires !s.onTimeout.Resources?
    ensures Inv(FailSandboxStage(s))
  {
  }

  lemma EnterThreadStageKeeps(s: State, resolversOk: bool)
    requires Failing(s)
    requires s.cur.reservation.None? && s.cur.mishap == NoMishap && !s.aborted
    requires s.cur.sandboxHeld <==> s.cur.sandboxTakes == 1
    requires !s.onTimeout.Resources?
    ensures Inv(EnterThreadStage(s, resolversOk))
  {
    if !resolversOk {
      FailAttemptKeeps(s.(cur := s.cur.(mishap := ResolverThrew)));
    }
  }

  lemma ReserveStartedKeeps(v: Attempt, thread: nat, reserveOk: bool)
    requires AttemptOk(v) && v.phase == Live
    ensures var w := ReserveStarted(v, thread, reserveOk);
            w.Some? ==>
              && AttemptOk(w.value)
              && w.value.reservation.Some? && w.value.reservation.value.thread == thread
              && w.value == v.(reservation := w.value.reservation, routeFrees := w.value.routeFrees)
  {
  }

  // ----- every event keeps it -----

  lemma SignalKeeps(s: State, e: Event)
    requires Inv(s) && Enabled(s, e)
    requires e.SignalAborts? || e.TimerFires? || e.CloseSettles? || e.BackoffSettles?
    ensures Inv(Apply(s, e))
  {
  }

  /** A closure of an attempt that did not succeed keeps that attempt's accounts. */
  lemma ClosuresKeep(v: Attempt)
    requires AttemptOk(v)
    ensures AttemptOk(FreeSandbox(v)) && AttemptOk(FreeLease(v))
    ensures !v.phase.Succeeded? ==> AttemptOk(FreeRoute(v)) && AttemptOk(FreeResources(v))
  {
  }

  /** A closure run by the handler may change the current attempt's sandbox and route, and nothing else. */
  lemma CurrentClosureKeeps(s: State, v: Attempt)
    requires Inv(s) && s.handler == Notifying
    requires AttemptOk(v) && (v.sandboxHeld ==> s.cur.sandboxHeld) && (v.reservation.Some? ==> v.reservation == s.cur.reservation)
    requires v == s.cur.(sandboxHeld := v.sandboxHeld, sandboxFrees := v.sandboxFrees,
                         reservation := v.reservation, routeFrees := v.routeFrees)
    ensures Inv(s.(cur := v, handler := Releasing))
  {
  }

  lemma PastClosureKeeps(s: State, n: nat)
    requires Inv(s) && s.handler == Notifying && n < |s.past|
    ensures Inv(s.(past := s.past[n := FreeSandbox(s.past[n])], handler := Releasing))
  {
    ClosuresKeep(s.past[n]);
  }

  lemma ResourcesClosureKeeps(s: State)
    requires Inv(s) && s.handler == Notifying && s.onTimeout.Resources?
    ensures Inv(RunCleanup(s).(handler := Releasing))
  {
    ClosuresKeep(s.cur);
    CurrentClosureKeeps(s, FreeResources(s.cur));
    assert RunCleanup(s) == s.(cur := FreeResources(s.cur));
  }

  lemma SandboxClosureKeeps(s: State)
    requires Inv(s) && s.handler == Notifying && s.onTimeout == SandboxOnly(s.number)
    ensures Inv(RunCleanup(s).(handler := Releasing))
  {
    ClosuresKeep(s.cur);
    CurrentClosureKeeps(s, FreeSandbox(s.cur));
    assert RunCleanup(s) == s.(cur := FreeSandbox(s.cur));
  }

  lemma StaleClosureKeeps(s: State)
    requires Inv(s) && s.handler == Notifying && s.onTimeout.SandboxOnly? && s.onTimeout.attempt < s.number
    ensures Inv(RunCleanup(s).(handler := Releasing))
  {
    PastClosureKeeps(s, s.onTimeout.attempt);
  }

  lemma NoClosureKeeps(s: State)
    requires Inv(s) && s.handler == Notifying && s.onTimeout.NoCleanup?
    ensures Inv(RunCleanup(s).(handler := Releasing))
  {
    CurrentClosureKeeps(s, s.cur);
  }

  lemma RunCleanupKeeps(s: State)
    requires Inv(s) && s.handler == Notifying
    ensures Inv(RunCleanup(s).(handler := Releasing))
  {
    match s.onTimeout
    case NoCleanup => NoClosureKeeps(s);
    case SandboxOnly(n) => if n == s.number { SandboxClosureKeeps(s); } else { StaleClosureKeeps(s); }
    case Resources(_) => ResourcesClosureKeeps(s);
  }

  /** Freeing a shared lease marks it released in the variables of the current attempt. */
  lemma FreeSharedLeaseIs(s: State)
    requires Inv(s)
    ensures s.sharedLease == None ==> FreeSharedLease(s) == s
    ensures s.sharedLease.Some? ==>
              var v := s.cur.(leaseReleased := true, leaseFrees := 1);
              AttemptOk(v) && FreeSharedLease(s) == s.(cur := v, sharedLease := None)
  {
  }

  lemma ReleaseHeldKeeps(s: State, v: Attempt)
    requires Inv(s) && s.handler == Releasing && s.sharedLease.Some?
    requires AttemptOk(v) && v == s.cur.(leaseReleased := true, leaseFrees := 1)
    ensures Inv(s.(cur := v, sharedLease := None, handler := Closing))
  {
  }

  lemma ReleaseNothingKeeps(s: State)
    requires Inv(s) && s.handler == Releasing && s.sharedLease == None
    ensures Inv(s.(handler := Closing))
  {
  }

  lemma ReleaseKeeps(s: State)
    requires Inv(s) && s.handler == Releasing
    ensures Inv(FreeSharedLease(s).(handler := Closing))
  {
    FreeSharedLeaseIs(s);
    if s.sharedLease.Some? {
      ReleaseHeldKeeps(s, s.cur.(leaseReleased := true, leaseFrees := 1));
    } else {
      ReleaseNothingKeeps(s);
    }
  }

  lemma RetireKeeps(s: State)
    requires Inv(s) && s.caller == Waiting && (s.pc == OpRejected || s.aborted)
    ensures Inv(FreeSharedLease(s).(caller := Rejected(true)))
  {
    FreeSharedLeaseIs(s);
    if s.sharedLease.Some? {
      RetireHeldKeeps(s, s.cur.(leaseReleased := true, leaseFrees := 1));
    } else {
      RetireNothingKeeps(s);
    }
  }

  lemma RetireNothingKeeps(s: State)
    requires Inv(s) && s.caller == Waiting && (s.pc == OpRejected || s.aborted) && s.sharedLease == None
    ensures Inv(s.(caller := Rejected(true)))
  {
  }

  lemma RetireHeldKeeps(s: State, v: Attempt)
    requires Inv(s) && s.caller == Waiting && s.aborted && s.sharedLease.Some?
    requires AttemptOk(v) && v == s.cur.(leaseReleased := true, leaseFrees := 1)
    ensures Inv(s.(cur := v, sharedLease := None, caller := Rejected(true)))
  {
  }

  lemma CallerKeeps(s: State, e: Event)
    requires Inv(s) && Enabled(s, e)
    requires e.CallerReturns? || e == CallerRejects(false)
    ensures Inv(Apply(s, e))
  {
  }

  lemma BeginKeeps(s: State, admitted: bool)
    requires Inv(s) && s.pc == LoopHead
    ensures Inv(BeginAttemptStep(s, admitted))
  {
    FailAttemptKeeps(s.(past := s.past + [s.cur], cur := FRESH_ATTEMPT, number := s.number + 1, pc := AwaitClient));
  }

  lemma ClientSettlesKeeps(s: State, ok: bool)
    requires Inv(s) && s.pc == AwaitClient
    ensures Inv(ClientSettlesStep(s, ok))
  {
    if !ok {
      FailAttemptKeeps(s);
    } else if s.aborted {
      FailAttemptKeeps(s.(cur := s.cur.(leased := true), sharedLease := Some(s.number)));
    }
  }

  lemma PrepareDoneKeeps(s: State, admitted: bool, required: bool, resolversOk: bool)
    requires Inv(s) && s.pc == Preparing
    ensures Inv(PrepareDoneStep(s, admitted, required, resolversOk))
  {
    var s1 := s.(onTimeout := SandboxOnly(s.number));
    FailSandboxStageKeeps(s1);
    if !s.aborted {
      EnterThreadStageKeeps(s1, resolversOk);
    }
  }

  lemma SandboxSettlesKeeps(s: State, ok: bool, registered: bool, resolversOk: bool)
    requires Inv(s) && s.pc == AwaitSandbox
    ensures Inv(SandboxSettlesStep(s, ok, registered, resolversOk))
  {
    FailSandboxStageKeeps(s);
    var s1 := s.(cur := s.cur.(sandboxHeld := true, sandboxTakes := s.cur.sandboxTakes + 1));
    FailSandboxStageKeeps(s1);
    if !s.aborted {
      EnterThreadStageKeeps(s1, resolversOk);
    }
  }

  /** The state right after the attempt succeeded. */
  function Succeed(s: State, v: Attempt, thread: nat): State {
    WithdrawCleanup(s.(cur := v.(sandboxHeld := false, phase := Succeeded(thread)), pc := OpResolved))
  }

  lemma SucceedKeepsCurrent(s: State, v: Attempt, thread: nat)
    requires CurInv(s) && s.pc == AwaitThread && !s.aborted
    requires AttemptOk(v) && v.reservation.Some? && v.reservation.value.thread == thread
    requires v == s.cur.(reservation := v.reservation, routeFrees := v.routeFrees)
    ensures CurInv(Succeed(s, v, thread))
  {
  }

  lemma SucceedKeepsShared(s: State, v: Attempt, thread: nat)
    requires Inv(s) && s.pc == AwaitThread && !s.aborted
    requires v == s.cur.(reservation := v.reservation, routeFrees := v.routeFrees)
    ensures SharedInv(Succeed(s, v, thread))
  {
  }

  lemma SucceedKeeps(s: State, v: Attempt, thread: nat)
    requires Inv(s) && s.pc == AwaitThread && !s.aborted
    requires AttemptOk(v) && v.reservation.Some? && v.reservation.value.thread == thread
    requires v == s.cur.(reservation := v.reservation, routeFrees := v.routeFrees)
    ensures Inv(Succeed(s, v, thread))
  {
    SucceedKeepsCurrent(s, v, thread);
    SucceedKeepsShared(s, v, thread);
  }

  lemma UnreservedKeeps(s: State)
    requires Inv(s) && s.pc == AwaitThread
    ensures Inv(s.(pc := AwaitUnsubscribe))
  {
  }

  lemma MonitorThrowKeeps(s: State, v: Attempt)
    requires Inv(s) && s.pc == AwaitThread && !s.aborted
    requires AttemptOk(v) && v == s.cur.(reservation := v.reservation, routeFrees := v.routeFrees)
    ensures Inv(FailThreadStage(s.(cur := v.(sandboxHeld := false, mishap := MonitorThrew))))
  {
    FailThreadStageKeeps(s.(cur := v.(sandboxHeld := false, mishap := MonitorThrew)));
  }

  lemma ThreadStartsKeeps(s: State, thread: nat, reserveOk: bool, monitorOk: bool)
    requires Inv(s) && s.pc == AwaitThread
    ensures Inv(ThreadStartsStep(s, thread, reserveOk, monitorOk))
  {
    ReserveStartedKeeps(s.cur, thread, reserveOk);
    match ReserveStarted(s.cur, thread, reserveOk)
    case None =>
      UnreservedKeeps(s);
    case Some(v) =>
      if s.aborted {
        FailThreadStageKeeps(s.(cur := v));
      } else if !monitorOk {
        MonitorThrowKeeps(s, v);
      } else {
        SucceedKeeps(s, v, thread);
      }
  }

  lemma LifecycleKeeps(s: State, e: Event)
    requires Inv(s) && Enabled(s, e)
    requires e.LifecycleReserves? || e.LifecycleReleases?
    ensures Inv(Apply(s, e))
  {
  }

  lemma LoopKeeps(s: State, error: ErrorKind)
    requires Inv(s) && s.pc == ClientRetirement
    ensures Inv(AttemptSettlesStep(s, error))
  {
    assert s.number == 2 ==> RetryDelay(s.number) == 2 * RetryDelay(1);
  }

  lemma OutsideKeeps(s: State, e: Event)
    requires Inv(s) && Enabled(s, e)
    requires e.NotifySettles? || e.ReleaseSettles? || e.CallerReturns? || e.CallerRejects?
    ensures Inv(Apply(s, e))
  {
    match e
    case NotifySettles(ok) => if ok { RunCleanupKeeps(s); }
    case ReleaseSettles(ok) => if ok { ReleaseKeeps(s); }
    case CallerRejects(retire) => if retire { RetireKeeps(s); } else { CallerKeeps(s, e); }
    case CallerReturns => CallerKeeps(s, e);
  }

  lemma FailureKeeps(s: State, e: Event)
    requires Inv(s) && Enabled(s, e)
    requires e.PrepareFails? || e.SandboxCleanupSettles? || e.ThreadFails? || e.UnsubscribeSettles? || e.ResourceCleanupSettles?
    ensures Inv(Apply(s, e))
  {
    if e.ThreadFails? || e.UnsubscribeSettles? {
      FailThreadStageKeeps(s);
    } else {
      FailAttemptKeeps(WithdrawCleanup(s));
    }
  }

  lemma StepKeeps(s: State, e: Event)
    requires Inv(s)
    ensures Inv(Step(s, e))
  {
    if Enabled(s, e) {
      match e
      case NotifySettles(_) => OutsideKeeps(s, e);
      case ReleaseSettles(_) => OutsideKeeps(s, e);
      case CallerRejects(_) => OutsideKeeps(s, e);
      case CallerReturns => OutsideKeeps(s, e);
      case BeginAttempt(admitted) => BeginKeeps(s, admitted);
      case ClientSettles(ok) => ClientSettlesKeeps(s, ok);
      case PrepareDone(admitted, required, resolversOk) => PrepareDoneKeeps(s, admitted, required, resolversOk);
      case SandboxSettles(ok, registered, resolversOk) => SandboxSettlesKeeps(s, ok, registered, resolversOk);
      case LifecycleReserves(_, _) => LifecycleKeeps(s, e);
      case LifecycleReleases => LifecycleKeeps(s, e);
      case ThreadStarts(thread, reserveOk, monitorOk) => ThreadStartsKeeps(s, thread, reserveOk, monitorOk);
      case AttemptSettles(error) => LoopKeeps(s, error);
      case PrepareFails => FailureKeeps(s, e);
      case SandboxCleanupSettles => FailureKeeps(s, e);
      case ThreadFails => FailureKeeps(s, e);
      case UnsubscribeSettles => FailureKeeps(s, e);
      case ResourceCleanupSettles => FailureKeeps(s, e);
      case SignalAborts => SignalKeeps(s, e);
      case TimerFires => SignalKeeps(s, e);
      case CloseSettles => SignalKeeps(s, e);
      case BackoffSettles(_) => SignalKeeps(s, e);
    }
  }

  lemma {:induction false} RunKeeps(events: seq<Event>)
    ensures Inv(Run(events))
  {
    if events != [] {
      RunKeeps(events[..|events| - 1]);
      StepKeeps(Run(events[..|events| - 1]), events[|events| - 1]);
    }
  }

  // ----- what holds in every run -----

  /** Attempt n has begun. */
  predicate Begun(s: State, n: nat) {
    1 <= n <= s.number
  }

  /** No lease is released twice, and every failed attempt has released the lease it took exactly once. */
  lemma LeaseReleasedExactlyOnce(events: seq<Event>, n: nat)
    requires Begun(Run(events), n)
    ensures var v := AttemptAt(Run(events), n);
            && v.leaseFrees <= BoolToNat(v.leased)
            && (v.phase == Failed ==> v.leaseFrees == BoolToNat(v.leased))
  {
    RunKeeps(events);
  }

  lemma PastIsClosed(s: State, n: nat)
    requires PastInv(s) && n < |s.past|
    ensures AttemptAt(s, n).phase == Failed && AttemptAt(s, n).reservation == None
    ensures AttemptAt(s, n).leaseFrees == BoolToNat(AttemptAt(s, n).leased)
  {
    assert AttemptOk(s.past[n]);
  }

  /**
   On overall success one lease is held, it is the one returned, and it belongs to the attempt that
   succeeded, together with the route of the thread that was started. Every earlier attempt holds nothing.
   */
  lemma SuccessHoldsExactlyOneLease(events: seq<Event>)
    requires Run(events).caller.Returned?
    ensures var s := Run(events);
            var winner := AttemptAt(s, s.caller.lease);
            && Begun(s, s.caller.lease)
            && winner.leased && winner.leaseFrees == 0
            && winner.phase.Succeeded?
            && winner.reservation.Some? && winner.reservation.value.thread == winner.phase.thread
            && winner.sandboxFrees == 0
            && (forall n :: Begun(s, n) && n != s.caller.lease ==>
                  && AttemptAt(s, n).phase == Failed
                  && AttemptAt(s, n).leaseFrees == BoolToNat(AttemptAt(s, n).leased)
                  && AttemptAt(s, n).reservation == None)
  {
    RunKeeps(events);
    var s := Run(events);
    forall n | Begun(s, n) && n != s.caller.lease
      ensures AttemptAt(s, n).phase == Failed && AttemptAt(s, n).reservation == None
      ensures AttemptAt(s, n).leaseFrees == BoolToNat(AttemptAt(s, n).leased)
    {
      PastIsClosed(s, n);
    }
  }

  /** Once the caller has its result, nothing in the machine takes it away again. */
  lemma {:induction false} SuccessIsFinal(events: seq<Event>, more: seq<Event>)
    requires Run(events).caller.Returned?
    ensures Run(events + more) == Run(events).(aborted := Run(events + more).aborted)
  {
    if more == [] {
      assert events + more == events;
    } else {
      var last := |more| - 1;
      SuccessIsFinal(events, more[..last]);
      RunKeeps(events);
      assert (events + more)[..|events + more| - 1] == events + more[..last];
      assert Run(events + more) == Step(Run(events + more[..last]), more[last]);
    }
  }

  /** A failed attempt without a mishap has released its sandbox, and each of its reservations, exactly once. */
  lemma FailureReleasesExactlyOnce(events: seq<Event>, n: nat)
    requires Begun(Run(events), n)
    requires AttemptAt(Run(events), n).phase == Failed
    ensures var v := AttemptAt(Run(events), n);
            && (forall k :: 0 <= k < |v.routeFrees| ==> v.routeFrees[k] == 1)
            && v.sandboxFrees <= v.sandboxTakes <= 1
            && (v.mishap == NoMishap ==> v.sandboxFrees == v.sandboxTakes)
            && (v.mishap == MonitorThrew ==> v.sandboxFrees == 0)
  {
    RunKeeps(events);
    var s := Run(events);
    var v := AttemptAt(s, n);
    assert AttemptOk(v);
  }

  /** A successful attempt never has its sandbox or its current route released, by anyone. */
  lemma SuccessReleasesNothing(events: seq<Event>, n: nat)
    requires Begun(Run(events), n)
    requires AttemptAt(Run(events), n).phase.Succeeded?
    ensures var v := AttemptAt(Run(events), n);
            && v.sandboxFrees == 0
            && v.reservation.Some?
            && v.reservation.value.serial < |v.routeFrees| && v.routeFrees[v.reservation.value.serial] == 0
            && (forall k :: 0 <= k < |v.routeFrees| && k != v.reservation.value.serial ==> v.routeFrees[k] == 1)
  {
    RunKeeps(events);
  }

  lemma ResolverMishapAtPrepare(s: State, admitted: bool, required: bool, resolversOk: bool)
    requires s.cur.sandboxTakes == s.cur.sandboxFrees == 0 && !s.cur.sandboxHeld && s.cur.phase == Live
    requires PrepareDoneStep(s, admitted, required, resolversOk).cur.phase == Failed
    ensures var v := PrepareDoneStep(s, admitted, required, resolversOk).cur;
            v.mishap == ResolverThrew && v.sandboxFrees == v.sandboxTakes == 0
  {
  }

  lemma ResolverMishapAtSandbox(s: State, ok: bool, registered: bool, resolversOk: bool)
    requires s.cur.sandboxTakes == s.cur.sandboxFrees == 0 && !s.cur.sandboxHeld && s.cur.phase == Live
    requires SandboxSettlesStep(s, ok, registered, resolversOk).cur.phase == Failed
    ensures var v := SandboxSettlesStep(s, ok, registered, resolversOk).cur;
            v.mishap == ResolverThrew && v.sandboxFrees == 0 && v.sandboxTakes == 1
  {
  }

  lemma ClosuresKeepMishap(v: Attempt)
    ensures FreeLease(v).mishap == FreeSandbox(v).mishap == FreeResources(v).mishap == v.mishap
    ensures FreeLease(v).sandboxTakes == FreeSandbox(v).sandboxTakes == FreeResources(v).sandboxTakes == v.sandboxTakes
    ensures FreeLease(v).sandboxFrees == v.sandboxFrees
    ensures FreeLease(v).phase == FreeSandbox(v).phase == FreeResources(v).phase == v.phase
    ensures !v.sandboxHeld ==> FreeSandbox(v).sandboxFrees == FreeResources(v).sandboxFrees == v.sandboxFrees
  {
  }

  /** The handler and the caller act on some attempt only through its closures. */
  lemma CleanupKeepsMishap(s: State, n: nat)
    requires 1 <= n <= s.number == |s.past|
    ensures var v, w := AttemptAt(s, n), AttemptAt(RunCleanup(s), n);
            && w.mishap == v.mishap && w.sandboxTakes == v.sandboxTakes && w.phase == v.phase
            && (!v.sandboxHeld ==> w.sandboxFrees == v.sandboxFrees)
  {
    ClosuresKeepMishap(AttemptAt(s, n));
  }

  lemma LeaseKeepsSandbox(s: State, n: nat)
    requires 1 <= n <= s.number == |s.past|
    ensures var v, w := AttemptAt(s, n), AttemptAt(FreeSharedLease(s), n);
            && w.mishap == v.mishap && w.sandboxTakes == v.sandboxTakes && w.sandboxFrees == v.sandboxFrees && w.phase == v.phase
  {
    ClosuresKeepMishap(AttemptAt(s, n));
  }

  ghost predicate Outside(e: Event) {
    e.SignalAborts? || e.TimerFires? || e.NotifySettles? || e.ReleaseSettles? || e.CloseSettles? || e.CallerReturns? || e.CallerRejects?
  }

  /** What the outside world does to the account of attempt n: only the handler's clean-up can free its sandbox. */
  lemma OutsideAccounts(s: State, e: Event, n: nat)
    requires 1 <= n <= s.number == |s.past| && Outside(e)
    ensures var v, w := AttemptAt(s, n), AttemptAt(Apply(s, e), n);
            && w.mishap == v.mishap && w.sandboxTakes == v.sandboxTakes && w.phase == v.phase
            && (!v.sandboxHeld || e != NotifySettles(true) ==> w.sandboxFrees == v.sandboxFrees)
  {
    if e == NotifySettles(true) { CleanupKeepsMishap(s, n); }
    if e == ReleaseSettles(true) || e == CallerRejects(true) { LeaseKeepsSandbox(s, n); }
  }

  ghost predicate LoopEvent(e: Event) {
    e.AttemptSettles? || e.BackoffSettles?
  }

  lemma LoopKeepsAttempt(s: State, e: Event)
    requires LoopEvent(e)
    ensures Apply(s, e).cur == s.cur && Apply(s, e).past == s.past
  {
  }

  ghost predicate FailureEvent(e: Event) {
    e.PrepareFails? || e.SandboxCleanupSettles? || e.ResourceCleanupSettles? || e.ThreadFails? || e.UnsubscribeSettles?
  }

  lemma FailAttemptAccounts(s: State)
    ensures var t := FailAttempt(s);
            && t.past == s.past && t.cur.mishap == s.cur.mishap
            && t.cur.sandboxTakes == s.cur.sandboxTakes && t.cur.sandboxFrees == s.cur.sandboxFrees
  {
  }

  lemma FailThreadStageAccounts(s: State)
    ensures FailThreadStage(s).past == s.past && FailThreadStage(s).cur.mishap == s.cur.mishap
  {
    ClosuresKeepMishap(s.cur);
  }

  lemma FailureKeepsMishap(s: State, e: Event)
    requires FailureEvent(e)
    ensures Apply(s, e).cur.mishap == s.cur.mishap && Apply(s, e).past == s.past
    ensures e.ResourceCleanupSettles? ==>
              Apply(s, e).cur.sandboxTakes == s.cur.sandboxTakes && Apply(s, e).cur.sandboxFrees == s.cur.sandboxFrees
  {
    FailAttemptAccounts(s);
    FailAttemptAccounts(WithdrawCleanup(s));
    FailThreadStageAccounts(s);
  }

  /** The other pieces of the attempt keep the mishap they find. */
  lemma OperationKeepsMishap(s: State, e: Event)
    requires e.ClientSettles? || e.LifecycleReserves? || e.LifecycleReleases?
    ensures Apply(s, e).cur.mishap == s.cur.mishap
  {
    ClosuresKeepMishap(s.cur);
  }

  lemma ThreadStartsHasNoResolverMishap(s: State, thread: nat, reserveOk: bool, monitorOk: bool)
    requires s.cur.mishap != ResolverThrew
    ensures ThreadStartsStep(s, thread, reserveOk, monitorOk).cur.mishap != ResolverThrew
  {
  }

  /** Only the sandbox events can end an attempt through a throwing resolver. */
  lemma OtherEndsHaveNoResolverMishap(s: State, e: Event)
    requires Inv(s) && s.cur.mishap != ResolverThrew && !e.PrepareDone? && !e.SandboxSettles? && !e.BeginAttempt?
    requires s.number >= 1
    ensures Apply(s, e).cur.mishap != ResolverThrew
  {
    if Outside(e) {
      OutsideIsLocal(s, e);
      OutsideAccounts(s, e, s.number);
    } else if e.ThreadStarts? {
      ThreadStartsHasNoResolverMishap(s, e.thread, e.reserveOk, e.monitorOk);
    } else if FailureEvent(e) {
      FailureKeepsMishap(s, e);
    } else if LoopEvent(e) {
      LoopKeepsAttempt(s, e);
    } else {
      OperationKeepsMishap(s, e);
    }
  }

  lemma OutsideIsLocal(s: State, e: Event)
    requires Outside(e)
    ensures |Apply(s, e).past| == |s.past| && Apply(s, e).number == s.number && Apply(s, e).pc == s.pc
  {
  }

  /** An attempt that ends through a throwing resolver ends with its sandbox unreleased. */
  lemma ResolverThrowEndsUnreleased(s: State, e: Event)
    requires Inv(s) && s.cur.phase == Live && Enabled(s, e)
    ensures var v := Apply(s, e).cur;
            v.phase == Failed && v.mishap == ResolverThrew ==> v.sandboxFrees == 0
  {
    if Apply(s, e).cur.phase == Failed {
      if e.PrepareDone? {
        ResolverMishapAtPrepare(s, e.admitted, e.sandboxRequired, e.resolversOk);
      } else if e.SandboxSettles? {
        ResolverMishapAtSandbox(s, e.ok, e.registered, e.resolversOk);
      } else {
        OtherEndsHaveNoResolverMishap(s, e);
      }
    }
  }

  /**
   At the event that ends a failing attempt, its sandbox has been released exactly when neither of the
   two throws outside the sandbox's own clean-up happened (or no sandbox had been acquired).
   */
  lemma SandboxReleasedByTheEnd(events: seq<Event>, e: Event)
    requires Run(events).cur.phase == Live
    requires Step(Run(events), e).cur.phase == Failed
    ensures var v := Step(Run(events), e).cur;
            v.sandboxFrees == v.sandboxTakes <==> v.mishap == NoMishap || v.sandboxTakes == 0
  {
    RunKeeps(events);
    StepKeeps(Run(events), e);
    ResolverThrowEndsUnreleased(Run(events), e);
  }

  /** Three attempts, one retry after a replaced client, three seconds of backoff; the code after the loop is dead. */
  lemma LoopsAreBounded(events: seq<Event>)
    ensures var s := Run(events);
            && s.number <= 3
            && s.replacementRetries <= 1
            && s.backoffMs <= 3000
            && s.pc != LoopExited
  {
    RunKeeps(events);
  }

  /** When the operation itself was rejected, the caller's failure leaves no lease and no route behind. */
  lemma RejectedOperationLeavesNothing(events: seq<Event>, n: nat)
    requires Run(events).pc == OpRejected
    requires Begun(Run(events), n)
    ensures var v := AttemptAt(Run(events), n);
            && v.leaseFrees == BoolToNat(v.leased)
            && (forall k :: 0 <= k < |v.routeFrees| ==> v.routeFrees[k] == 1)
    ensures Run(events).sharedLease == None
  {
    RunKeeps(events);
    var s := Run(events);
    assert AttemptOk(AttemptAt(s, n));
  }

  /**
   A success the caller discards, because the startup was aborted before its result was read: its lease
   is released exactly when the timeout handler got as far as releasing it or the caller retired the client,
   and its sandbox and its route never are.
   */
  lemma DiscardedSuccessLease(events: seq<Event>)
    requires Run(events).pc == OpResolved && Run(events).caller.Rejected?
    ensures var s := Run(events);
            && (s.cur.leaseFrees == 1 <==> s.handler == Closing || s.handler == Done || s.caller == Rejected(true))
            && s.cur.sandboxFrees == 0
            && s.cur.reservation.Some?
            && s.cur.reservation.value.serial < |s.cur.routeFrees| && s.cur.routeFrees[s.cur.reservation.value.serial] == 0
  {
    RunKeeps(events);
  }

  // ----- what a mishap leaves behind, over any continuation -----

  /** The account of attempt n's sandbox, once a mishap has happened to it. */
  ghost predicate SameMishap(v: Attempt, w: Attempt) {
    v.mishap != NoMishap && w.mishap == v.mishap && w.sandboxTakes == v.sandboxTakes
  }

  lemma MishapStep(s: State, e: Event, n: nat)
    requires Inv(s) && Enabled(s, e) && Begun(s, n) && AttemptAt(s, n).mishap != NoMishap
    ensures var v, w := AttemptAt(s, n), AttemptAt(Apply(s, e), n);
            SameMishap(v, w) && (!v.sandboxHeld || e != NotifySettles(true) ==> w.sandboxFrees == v.sandboxFrees)
  {
    if Outside(e) {
      OutsideAccounts(s, e, n);
    } else if e.BeginAttempt? {
      BeginKeepsEarlier(s, e.admitted, n);
    } else if n < s.number {
      PastIsLeftAlone(s, e);
    } else if FailureEvent(e) {
      FailureKeepsMishap(s, e);
    } else {
      LoopKeepsAttempt(s, e);
    }
  }

  lemma BeginKeepsEarlier(s: State, admitted: bool, n: nat)
    requires n <= s.number == |s.past| < MAX_ATTEMPTS
    ensures AttemptAt(BeginAttemptStep(s, admitted), n) == AttemptAt(s, n)
  {
  }

  /** The operation works on the current attempt only. */
  lemma PastIsLeftAlone(s: State, e: Event)
    requires !Outside(e) && !e.BeginAttempt?
    ensures Apply(s, e).past == s.past
  {
  }

  ghost predicate TimeoutCleansUp(events: seq<Event>) {
    NotifySettles(true) in events
  }

  lemma {:induction false} MishapStays(events: seq<Event>, more: seq<Event>, n: nat)
    requires Begun(Run(events), n) && AttemptAt(Run(events), n).mishap != NoMishap
    ensures Begun(Run(events + more), n)
    ensures var v, w := AttemptAt(Run(events), n), AttemptAt(Run(events + more), n);
            SameMishap(v, w) && (!TimeoutCleansUp(more) ==> w.sandboxFrees == v.sandboxFrees)
  {
    if more == [] {
      assert events + more == events;
    } else {
      var last := |more| - 1;
      MishapStays(events, more[..last], n);
      RunKeeps(events + more[..last]);
      assert (events + more)[..|events + more| - 1] == events + more[..last];
      assert Run(events + more) == Step(Run(events + more[..last]), more[last]);
      if Enabled(Run(events + more[..last]), more[last]) {
        MishapStep(Run(events + more[..last]), more[last], n);
        NumberGrows(Run(events + more[..last]), more[last]);
      }
    }
  }

  lemma NumberGrows(s: State, e: Event)
    ensures s.number <= Step(s, e).number
  {
  }

  /** A sandbox left behind by a throwing resolver stays so in every continuation in which the timeout handler does not clean up. */
  lemma ResolverThrowNeedsTheTimeout(events: seq<Event>, more: seq<Event>, n: nat)
    requires Begun(Run(events), n)
    requires AttemptAt(Run(events), n).mishap == ResolverThrew && AttemptAt(Run(events), n).sandboxFrees == 0
    requires !TimeoutCleansUp(more)
    ensures var w := AttemptAt(Run(events + more), n);
            w.sandboxFrees == 0 && w.sandboxTakes == AttemptAt(Run(events), n).sandboxTakes
  {
    MishapStays(events, more, n);
  }

  /** A sandbox left behind by a throwing health monitor is released in no continuation at all. */
  lemma MonitorThrowIsForever(events: seq<Event>, more: seq<Event>, n: nat)
    requires Begun(Run(events), n) && AttemptAt(Run(events), n).mishap == MonitorThrew
    ensures var w := AttemptAt(Run(events + more), n);
            w.sandboxFrees == 0 && w.sandboxTakes == AttemptAt(Run(events), n).sandboxTakes
  {
    MishapStays(events, more, n);
    RunKeeps(events + more);
    assert AttemptOk(AttemptAt(Run(events + more), n));
  }

  // ----- runs that show the exceptions are real -----

  ghost predicate Reachable(s: State) {
    exists events: seq<Event> :: Run(events) == s
  }

  lemma ReachStep(s: State, e: Event)
    requires Reachable(s)
    ensures Reachable(Step(s, e))
  {
    var events :| Run(events) == s;
    assert (events + [e])[..|events + [e]| - 1] == events;
    assert Run(events + [e]) == Step(s, e);
  }

  lemma ClientStage() returns (s: State)
    ensures Reachable(s)
    ensures s == INIT.(pc := Preparing, number := 1, past := [INIT.cur], cur := FRESH_ATTEMPT.(leased := true), sharedLease := Some(1))
  {
    s := INIT;
    assert Run([]) == INIT;
    ReachStep(s, BeginAttempt(true));
    s := Step(s, BeginAttempt(true));
    ReachStep(s, ClientSettles(true));
    s := Step(s, ClientSettles(true));
  }

  /** The state after an attempt has acquired a client and a sandbox and is about to start its thread. */
  lemma SandboxStage(resolversOk: bool) returns (s: State)
    ensures Reachable(s)
    ensures s.number == |s.past| == 1 && s.caller == Waiting && s.handler == Idle && !s.aborted
    ensures s.cur == FRESH_ATTEMPT.(leased := true, leaseReleased := !resolversOk, leaseFrees := BoolToNat(!resolversOk),
                                   sandboxHeld := true, sandboxTakes := 1,
                                   phase := if resolversOk then Live else Failed,
                                   mishap := if resolversOk then NoMishap else ResolverThrew)
    ensures resolversOk ==> s.pc == AwaitThread
    ensures s.onTimeout == (if resolversOk then Resources(1) else SandboxOnly(1))
    ensures s.sharedLease == (if resolversOk then Some(1) else None)
  {
    s := ClientStage();
    ReachStep(s, PrepareDone(true, true, true));
    s := Step(s, PrepareDone(true, true, true));
    ReachStep(s, SandboxSettles(true, true, resolversOk));
    s := Step(s, SandboxSettles(true, true, resolversOk));
  }

  /** A throwing resolver leaves the sandbox behind, and a later timeout can release it through the stale closure. */
  lemma ResolverThrowLeavesSandbox() returns (before: State, after: State)
    ensures Reachable(before) && Reachable(after)
    ensures before.number == 1 && before.cur.phase == Failed && before.cur.mishap == ResolverThrew
    ensures before.cur.sandboxTakes == 1 && before.cur.sandboxFrees == 0
    ensures after == before.(cur := after.cur, aborted := true, handler := Releasing)
    ensures after.cur.sandboxFrees == 1
  {
    before := SandboxStage(false);
    var fired := Step(before, TimerFires);
    ReachStep(before, TimerFires);
    after := Step(fired, NotifySettles(true));
    ReachStep(fired, NotifySettles(true));
  }

  /** A throwing health monitor releases the route but leaves the sandbox. */
  lemma MonitorThrowLeavesSandbox() returns (s: State)
    ensures Reachable(s)
    ensures s.pc == ResourceCleanup && s.number == 1 && s.cur.mishap == MonitorThrew
    ensures s.cur.sandboxTakes == 1 && s.cur.sandboxFrees == 0
    ensures s.cur.routeFrees == [1]
  {
    s := SandboxStage(true);
    ReachStep(s, ThreadStarts(7, true, false));
    s := Step(s, ThreadStarts(7, true, false));
  }

  /** The discarded success exists: an abort that lands after the attempt succeeded keeps lease, sandbox and route. */
  lemma DiscardedSuccessCanLeak() returns (s: State)
    ensures Reachable(s)
    ensures s.caller == Rejected(false) && s.pc == OpResolved
    ensures s.cur.leased && s.cur.leaseFrees == 0
    ensures s.cur.sandboxTakes == 1 && s.cur.sandboxFrees == 0
    ensures s.cur.routeFrees == [0]
  {
    s := SandboxStage(true);
    ReachStep(s, ThreadStarts(7, true, true));
    s := Step(s, ThreadStarts(7, true, true));
    ReachStep(s, SignalAborts);
    s := Step(s, SignalAborts);
    ReachStep(s, CallerRejects(false));
    s := Step(s, CallerRejects(false));
  }

  /** Overall success is reachable too, here with a reservation made by the thread lifecycle before the thread starts. */
  lemma SuccessIsReachable() returns (s: State)
    ensures Reachable(s)
    ensures s.caller == Returned(1) && s.cur.phase == Succeeded(7)
  {
    s := SandboxStage(true);
    ReachStep(s, LifecycleReserves(7, true));
    s := Step(s, LifecycleReserves(7, true));
    ReachStep(s, ThreadStarts(7, false, true));
    s := Step(s, ThreadStarts(7, false, true));
    ReachStep(s, CallerReturns);
    s := Step(s, CallerReturns);
  }
}
