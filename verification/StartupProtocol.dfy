/**
 The app-server startup protocol of `attempt-startup.ts`: an operation that makes up to three
 attempts, the timeout handler, and the caller that awaits both, as one machine.

 JavaScript runs each piece of code between two `await`s without interruption, so every event below
 is one such piece. The operation, the handler and the outside world may be interleaved in any order.
 An event that is not enabled leaves the state unchanged.

 The variables of the machine are the variables of the program. Only the counters (`leaseFrees`,
 `sandboxTakes`, `sandboxFrees`, `routeFrees`) are added: they count how often a resource really is
 taken or given back.
 */
module StartupProtocol {
  import opened Common

  const MAX_ATTEMPTS: nat := 3

  datatype Phase = Live | Failed | Succeeded(thread: nat)

  /** The two places inside an attempt where a throw skips the sandbox clean-up. */
  datatype Mishap = NoMishap | ResolverThrew | MonitorThrew

  /** A route reservation: its place among the reservations of its attempt, and its thread. */
  datatype Reservation = Reservation(serial: nat, thread: nat)

  /** The variables of one call of `startupAttempt`; its closures keep them alive after it ends. */
  datatype Attempt = Attempt(
    leased: bool,                     // startupClientLease is assigned
    leaseReleased: bool,              // startupClientLeaseReleased
    leaseFrees: nat,
    sandboxHeld: bool,                // startupSandboxEnvironmentAcquired
    sandboxTakes: nat,
    sandboxFrees: nat,
    reservation: Option<Reservation>, // startupReservation
    routeFrees: seq<nat>,             // one count per reservation made
    phase: Phase,
    mishap: Mishap)

  const FRESH_ATTEMPT := Attempt(false, false, 0, false, 0, 0, None, [], Live, NoMishap)

  /** The closure stored in `releaseStartupResourcesOnTimeout`, with the attempt it belongs to. */
  datatype Cleanup = NoCleanup | SandboxOnly(attempt: nat) | Resources(attempt: nat)

  /** The `await` at which the operation rests. */
  datatype OpPc =
    | LoopHead
    | AwaitClient
    | Preparing
    | AwaitSandbox
    | SandboxCleanup
    | AwaitThread
    | AwaitUnsubscribe
    | ResourceCleanup
    | ClientRetirement
    | Backoff
    | LoopExited
    | OpResolved
    | OpRejected

  datatype HandlerPc = Idle | Notifying | Releasing | Closing | Done | Broken

  datatype CallerPc = Waiting | Returned(lease: nat) | Rejected(retired: bool)

  /** Attempts are numbered from 1. `past[n]` is attempt n once a later one has begun; `past[0]` is a filler. */
  datatype State = State(
    pc: OpPc,
    number: nat,                  // startupAttemptNumber
    cur: Attempt,
    past: seq<Attempt>,
    handler: HandlerPc,
    caller: CallerPc,
    aborted: bool,                // startupAbandonController.signal.aborted
    sharedLease: Option<nat>,     // releaseSharedClientLease
    onTimeout: Cleanup,           // releaseStartupResourcesOnTimeout
    replaced: bool,               // replacedSettledFailureClient
    replacementRetries: nat,
    backoffMs: nat)

  const INIT :=
    State(LoopHead, 0, FRESH_ATTEMPT.(phase := Failed), [], Idle, Waiting, false, None, NoCleanup, false, 0, 0)

  /** Attempt n of a state. */
  function AttemptAt(s: State, n: nat): Attempt {
    if n < |s.past| then s.past[n] else s.cur
  }

  /** How the retry loop classifies the error an attempt ended with. */
  datatype ErrorKind = ErrorKind(selectionChanged: bool, clientRetired: bool, socketFailure: bool, connectionClosed: bool)

  datatype Event =
    // the outside world and the timeout handler
    | SignalAborts
    | TimerFires
    | NotifySettles(ok: bool)
    | ReleaseSettles(ok: bool)
    | CloseSettles
    // the operation
    | BeginAttempt(admitted: bool)
    | ClientSettles(ok: bool)
    | PrepareFails
    | PrepareDone(admitted: bool, sandboxRequired: bool, resolversOk: bool)
    | SandboxSettles(ok: bool, registered: bool, resolversOk: bool)
    | SandboxCleanupSettles
    | LifecycleReserves(thread: nat, ok: bool)
    | LifecycleReleases
    | ThreadFails
    | ThreadStarts(thread: nat, reserveOk: bool, monitorOk: bool)
    | UnsubscribeSettles
    | ResourceCleanupSettles
    | AttemptSettles(error: ErrorKind)
    | BackoffSettles(ok: bool)
    // the caller
    | CallerReturns
    | CallerRejects(retire: bool)

  // ----- the closures of one attempt -----

  /** The lease closure: idempotent through `leaseReleased`. */
  function FreeLease(v: Attempt): Attempt {
    if !v.leased || v.leaseReleased then v
    else v.(leaseReleased := true, leaseFrees := v.leaseFrees + 1)
  }

  /** `releaseStartupSandboxEnvironment`: the flag falls before the release is awaited. */
  function FreeSandbox(v: Attempt): Attempt {
    if v.sandboxHeld then v.(sandboxHeld := false, sandboxFrees := v.sandboxFrees + 1) else v
  }

  function CountFree(frees: seq<nat>, serial: nat): seq<nat> {
    if serial < |frees| then frees[serial := frees[serial] + 1] else frees
  }

  /** `releaseStartupReservation`. */
  function FreeRoute(v: Attempt): Attempt {
    match v.reservation
    case None => v
    case Some(r) => v.(reservation := None, routeFrees := CountFree(v.routeFrees, r.serial))
  }

  /** `releaseStartupResources`. */
  function FreeResources(v: Attempt): Attempt {
    FreeSandbox(FreeRoute(v))
  }

  function TakeRoute(v: Attempt, thread: nat): Attempt {
    v.(reservation := Some(Reservation(|v.routeFrees|, thread)), routeFrees := v.routeFrees + [0])
  }

  // ----- the shared variables -----

  /** Stores the variables of attempt n, which may be an earlier attempt than the current one. */
  function Store(s: State, n: nat, v: Attempt): State {
    if n < |s.past| then s.(past := s.past[n := v])
    else if n == s.number then s.(cur := v)
    else s
  }

  /** Runs the shared lease closure, if there is one, and clears the variable. */
  function FreeSharedLease(s: State): State {
    match s.sharedLease
    case Some(n) => Store(s, n, FreeLease(AttemptAt(s, n))).(sharedLease := None)
    case None => s
  }

  /** Runs the published cleanup closure, if there is one. */
  function RunCleanup(s: State): State {
    match s.onTimeout
    case NoCleanup => s
    case SandboxOnly(n) => Store(s, n, FreeSandbox(AttemptAt(s, n)))
    case Resources(n) => Store(s, n, FreeResources(AttemptAt(s, n)))
  }

  // ----- pieces of the attempt -----

  /** The `finally` of a failed attempt: forget the shared lease if it is this one, then release it. */
  function FailAttempt(s: State): State {
    var own := if s.cur.leased then Some(s.number) else None;
    s.(sharedLease := if s.sharedLease == own then None else s.sharedLease,
       cur := FreeLease(s.cur).(phase := Failed),
       pc := ClientRetirement)
  }

  /** The catch around the thread stage: release everything, then rest at the await. */
  function FailThreadStage(s: State): State {
    s.(cur := FreeResources(s.cur), pc := ResourceCleanup)
  }

  /** The catch around the sandbox stage. */
  function FailSandboxStage(s: State): State {
    s.(cur := FreeSandbox(s.cur), pc := SandboxCleanup)
  }

  /** The `finally` that withdraws this attempt's cleanup closure, if it is still the published one. */
  function WithdrawCleanup(s: State): State {
    if s.onTimeout == Resources(s.number) then s.(onTimeout := NoCleanup) else s
  }

  /** The three unguarded resolvers, then publishing the full cleanup and starting the thread. */
  function EnterThreadStage(s: State, resolversOk: bool): State {
    if !resolversOk then FailAttempt(s.(cur := s.cur.(mishap := ResolverThrew)))
    else s.(onTimeout := Resources(s.number), pc := AwaitThread)
  }

  function BeginAttemptStep(s: State, admitted: bool): State {
    if s.number >= MAX_ATTEMPTS then s.(pc := LoopExited)
    else
      var s1 := s.(past := s.past + [s.cur], cur := FRESH_ATTEMPT, number := s.number + 1, pc := AwaitClient);
      if !admitted || s.aborted then FailAttempt(s1) else s1
  }

  function ClientSettlesStep(s: State, ok: bool): State {
    if !ok then FailAttempt(s)
    else
      var s1 := s.(cur := s.cur.(leased := true), sharedLease := Some(s.number));
      if s.aborted then FailAttempt(s1) else s1.(pc := Preparing)
  }

  function PrepareDoneStep(s: State, admitted: bool, sandboxRequired: bool, resolversOk: bool): State {
    var s1 := s.(onTimeout := SandboxOnly(s.number));
    if !admitted then FailSandboxStage(s1)
    else if sandboxRequired then s1.(pc := AwaitSandbox)
    else if s.aborted then FailSandboxStage(s1)
    else EnterThreadStage(s1, resolversOk)
  }

  function SandboxSettlesStep(s: State, ok: bool, registered: bool, resolversOk: bool): State {
    if !ok then FailSandboxStage(s)
    else if !registered then FailSandboxStage(s.(cur := s.cur.(sandboxHeld := false)))
    else
      var s1 := s.(cur := s.cur.(sandboxHeld := true, sandboxTakes := s.cur.sandboxTakes + 1));
      if s.aborted then FailSandboxStage(s1) else EnterThreadStage(s1, resolversOk)
  }

  /** `reserveStartupThread` called by the thread lifecycle; a mismatch only throws into the lifecycle. */
  function LifecycleReservesStep(s: State, thread: nat, ok: bool): State {
    if s.cur.reservation.None? && ok then s.(cur := TakeRoute(s.cur, thread)) else s
  }

  /** `reserveStartupThread` after the thread has started: the attempt's variables, or None if it throws. */
  function ReserveStarted(v: Attempt, thread: nat, reserveOk: bool): Option<Attempt> {
    match v.reservation
    case Some(r) => if r.thread == thread then Some(v) else None
    case None => if reserveOk then Some(TakeRoute(v, thread)) else None
  }

  function ThreadStartsStep(s: State, thread: nat, reserveOk: bool, monitorOk: bool): State {
    match ReserveStarted(s.cur, thread, reserveOk)
    case None => s.(pc := AwaitUnsubscribe)
    case Some(v) =>
      if s.aborted then FailThreadStage(s.(cur := v))
      else if !monitorOk then FailThreadStage(s.(cur := v.(sandboxHeld := false, mishap := MonitorThrew)))
      else WithdrawCleanup(s.(cur := v.(sandboxHeld := false, phase := Succeeded(thread)), pc := OpResolved))
  }

  // ----- the retry loop -----

  /** 1000 * 2 ** (attempt - 1), for the attempt numbers the loop reaches. */
  function RetryDelay(attempt: nat): nat {
    if attempt <= 1 then 1000 else 2 * RetryDelay(attempt - 1)
  }

  predicate GivesUp(s: State, e: ErrorKind) {
    || s.aborted
    || e.socketFailure
    || (e.clientRetired && s.replaced)
    || (!e.clientRetired && !e.selectionChanged && !e.connectionClosed)
  }

  function AttemptSettlesStep(s: State, e: ErrorKind): State {
    if GivesUp(s, e) then s.(pc := OpRejected)
    else if s.number >= MAX_ATTEMPTS then s.(pc := OpRejected, replaced := s.replaced || e.clientRetired)
    else
      var delay := if e.selectionChanged || e.clientRetired then 0 else RetryDelay(s.number);
      s.(pc := Backoff,
         replaced := s.replaced || e.clientRetired,
         backoffMs := s.backoffMs + delay,
         replacementRetries := s.replacementRetries + BoolToNat(e.clientRetired))
  }

  // ----- the machine -----

  predicate Enabled(s: State, e: Event) {
    match e
    case SignalAborts => true
    case TimerFires => s.caller == Waiting && s.handler == Idle
    case NotifySettles(_) => s.handler == Notifying
    case ReleaseSettles(_) => s.handler == Releasing
    case CloseSettles => s.handler == Closing
    case BeginAttempt(_) => s.pc == LoopHead
    case ClientSettles(_) => s.pc == AwaitClient
    case PrepareFails => s.pc == Preparing
    case PrepareDone(_, _, _) => s.pc == Preparing
    case SandboxSettles(_, _, _) => s.pc == AwaitSandbox
    case SandboxCleanupSettles => s.pc == SandboxCleanup
    case LifecycleReserves(_, _) => s.pc == AwaitThread
    case LifecycleReleases => s.pc == AwaitThread
    case ThreadFails => s.pc == AwaitThread
    case ThreadStarts(_, _, _) => s.pc == AwaitThread
    case UnsubscribeSettles => s.pc == AwaitUnsubscribe
    case ResourceCleanupSettles => s.pc == ResourceCleanup
    case AttemptSettles(_) => s.pc == ClientRetirement
    case BackoffSettles(_) => s.pc == Backoff
    // the wrapper discards the operation's result once its handler has started
    case CallerReturns => s.caller == Waiting && s.pc == OpResolved && s.handler == Idle
    case CallerRejects(_) => s.caller == Waiting && (s.pc == OpRejected || s.aborted)
  }

  function Apply(s: State, e: Event): State {
    match e
    case SignalAborts => s.(aborted := true)
    case TimerFires => s.(aborted := true, handler := Notifying)
    case NotifySettles(ok) => if ok then RunCleanup(s).(handler := Releasing) else s.(handler := Broken)
    case ReleaseSettles(ok) => if ok then FreeSharedLease(s).(handler := Closing) else s.(handler := Broken)
    case CloseSettles => s.(handler := Done)
    case BeginAttempt(admitted) => BeginAttemptStep(s, admitted)
    case ClientSettles(ok) => ClientSettlesStep(s, ok)
    case PrepareFails => FailAttempt(s)
    case PrepareDone(admitted, required, resolversOk) => PrepareDoneStep(s, admitted, required, resolversOk)
    case SandboxSettles(ok, registered, resolversOk) => SandboxSettlesStep(s, ok, registered, resolversOk)
    case SandboxCleanupSettles => FailAttempt(s)
    case LifecycleReserves(thread, ok) => LifecycleReservesStep(s, thread, ok)
    case LifecycleReleases => s.(cur := FreeRoute(s.cur))
    case ThreadFails => FailThreadStage(s)
    case ThreadStarts(thread, reserveOk, monitorOk) => ThreadStartsStep(s, thread, reserveOk, monitorOk)
    case UnsubscribeSettles => FailThreadStage(s)
    case ResourceCleanupSettles => FailAttempt(WithdrawCleanup(s))
    case AttemptSettles(error) => AttemptSettlesStep(s, error)
    case BackoffSettles(ok) => s.(pc := if ok then LoopHead else OpRejected)
    case CallerReturns =>
      (match s.sharedLease
       case Some(l) => s.(caller := Returned(l))
       case None => s.(caller := Rejected(false)))
    case CallerRejects(retire) => (if retire then FreeSharedLease(s) else s).(caller := Rejected(retire))
  }

  function Step(s: State, e: Event): State {
    if Enabled(s, e) then Apply(s, e) else s
  }

  /** The state after a whole run from the start. */
  function Run(events: seq<Event>): State {
    if events == [] then INIT else Step(Run(events[..|events| - 1]), events[|events| - 1])
  }
}
