/**
 The compare-and-swap table that `shared-state-mcp/server.mjs` and `hermes-mcp-bridge/server.mjs` share.
 Any number of processes of both programs run on one SQLite file. Each SQL statement is one step; a
 statement may fail, and a process may crash between any two statements.

 Of SQLite only this is used: one write transaction at a time after BEGIN IMMEDIATE, readers see the
 last committed table, and a rollback or a crash discards the open transaction.
 */
module SharedStore {
  import opened Common
  import opened GroupNames

  datatype Row = Row(content: Text, revision: nat, updatedAtMs: int)

  type Table = map<Text, Row>

  function RowOf(t: Table, key: Text): Option<Row> {
    if key in t then Some(t[key]) else None
  }

  /** A missing row has revision 0. */
  function RevisionOf(row: Option<Row>): nat {
    match row
    case Some(r) => r.revision
    case None => 0
  }

  function ContentOf(row: Option<Row>): Option<Text> {
    match row
    case Some(r) => Some(r.content)
    case None => None
  }

  // ----- the atomic specification -----

  /** What a caller may see: a group, its content and its revision. */
  datatype Cell = Cell(content: Text, revision: nat)

  type Store = map<Text, Cell>

  function Abs(t: Table): Store {
    map key | key in t :: Cell(t[key].content, t[key].revision)
  }

  function StoreRevision(s: Store, key: Text): nat {
    if key in s then s[key].revision else 0
  }

  function StoreContent(s: Store, key: Text): Option<Text> {
    if key in s then Some(s[key].content) else None
  }

  datatype Outcome = Stored(revision: nat) | Conflict(currentRevision: nat) | Failure

  /** A call that took effect. `transform` names the function a disciplined client applied, if any. */
  datatype Entry =
    | Get(key: Text, content: Option<Text>, revision: nat)
    | Set(request: SetRequest, transform: Option<nat>, outcome: Outcome)

  /** An atomic map accepts exactly these entries: a set succeeds iff its expected revision is the current one. */
  predicate Legal(s: Store, e: Entry) {
    match e
    case Get(key, content, revision) => content == StoreContent(s, key) && revision == StoreRevision(s, key)
    case Set(request, _, outcome) =>
      match outcome
      case Stored(revision) => request.expected == StoreRevision(s, request.key) && revision == request.expected + 1
      case Conflict(current) => current == StoreRevision(s, request.key) && current != request.expected
      case Failure => true
  }

  function Effect(s: Store, e: Entry): Store {
    if e.Set? && e.outcome.Stored? then s[e.request.key := Cell(e.request.content, e.outcome.revision)] else s
  }

  /** The atomic map after a history, or None if some entry was not legal when its turn came. */
  function Replay(history: seq<Entry>): Option<Store> {
    if history == [] then Some(map[])
    else
      var last := history[|history| - 1];
      match Replay(history[..|history| - 1])
      case None => None
      case Some(s) => if Legal(s, last) then Some(Effect(s, last)) else None
  }

  // ----- the processes -----

  datatype Call = Call(client: nat, request: SetRequest, transform: Option<nat>)

  /** Where a process stands in `writeGroup`. Node runs it without interruption, so a process has one call at most. */
  datatype Pc =
    | Ready
    | Validated(call: Call)
    | Begun(call: Call)
    | Compared(call: Call, current: Option<Row>)
    | Written(call: Call)
    | RollingBack(call: Call, outcome: Outcome)

  datatype Process = Process(program: Program, pc: Pc)

  datatype Txn = Txn(owner: nat, working: Table)

  /** What a client remembers of its last get. */
  datatype Seen = Seen(content: Option<Text>, revision: nat)

  datatype State = State(
    table: Table,
    txn: Option<Txn>,
    processes: map<nat, Process>,
    memory: map<(nat, Text), Seen>,
    history: seq<Entry>)

  const INIT := State(map[], None, map[], map[], [])

  /** What the model does not fix: NFC, and the functions clients apply to what they read. */
  datatype Env = Env(nfc: Text -> Text, transform: (nat, Option<Text>) -> Text)

  datatype Event =
    | Spawn(pid: nat, program: Program)
    | Crash(pid: nat)
    | Read(pid: nat, client: nat, group: Argument, ok: bool)
    | Submit(pid: nat, client: nat, input: SetInput, transform: Option<nat>)
    | BeginImmediate(pid: nat, ok: bool)
    | Select(pid: nat, ok: bool)
    | Write(pid: nat, ok: bool, nowMs: int)
    | Commit(pid: nat, ok: bool)
    | Rollback(pid: nat, ok: bool)

  predicate At(s: State, pid: nat) {
    pid in s.processes
  }

  function PcOf(s: State, pid: nat): Pc {
    if pid in s.processes then s.processes[pid].pc else Ready
  }

  function Move(s: State, pid: nat, pc: Pc): State {
    if pid in s.processes then s.(processes := s.processes[pid := s.processes[pid].(pc := pc)]) else s
  }

  function Owner(s: State): Option<nat> {
    match s.txn
    case Some(t) => Some(t.owner)
    case None => None
  }

  /** A disciplined client submits its transform of what it last read, at the revision it last read. */
  predicate Disciplined(env: Env, s: State, e: Event)
    requires e.Submit?
  {
    e.transform.Some? ==>
      match NormalizeGroup(env.nfc, e.input.group)
      case Err(_) => true
      case Ok(key) =>
        && (e.client, key) in s.memory
        && var seen := s.memory[(e.client, key)];
           && e.input.content == String(env.transform(e.transform.value, seen.content))
           && e.input.expectedRevision == Number(seen.revision as real)
  }

  predicate Enabled(env: Env, s: State, e: Event) {
    match e
    case Spawn(pid, _) => pid !in s.processes
    case Crash(pid) => At(s, pid)
    case Read(pid, _, _, _) => At(s, pid) && PcOf(s, pid) == Ready
    case Submit(pid, _, _, _) => At(s, pid) && PcOf(s, pid) == Ready && Disciplined(env, s, e)
    case BeginImmediate(pid, ok) => At(s, pid) && PcOf(s, pid).Validated? && (ok ==> s.txn == None)
    case Select(pid, _) => At(s, pid) && PcOf(s, pid).Begun? && Owner(s) == Some(pid)
    case Write(pid, _, _) => At(s, pid) && PcOf(s, pid).Compared? && Owner(s) == Some(pid)
    case Commit(pid, _) => At(s, pid) && PcOf(s, pid).Written? && Owner(s) == Some(pid)
    case Rollback(pid, _) => At(s, pid) && PcOf(s, pid).RollingBack? && Owner(s) == Some(pid)
  }

  /** `readGroup`: a get needs no transaction. */
  function ReadStep(env: Env, s: State, client: nat, group: Argument, ok: bool): State {
    match NormalizeGroup(env.nfc, group)
    case Err(_) => s
    case Ok(key) =>
      if !ok then s
      else
        var row := RowOf(s.table, key);
        var seen := Seen(ContentOf(row), RevisionOf(row));
        s.(memory := s.memory[(client, key) := seen], history := s.history + [Get(key, seen.content, seen.revision)])
  }

  function SubmitStep(env: Env, s: State, pid: nat, client: nat, input: SetInput, transform: Option<nat>): State
    requires At(s, pid)
  {
    match ValidateSet(s.processes[pid].program, env.nfc, input)
    case Err(_) => s
    case Ok(request) => Move(s, pid, Validated(Call(client, request, transform)))
  }

  /** BEGIN IMMEDIATE stands outside the `try`: when it fails no lock is held and nothing is rolled back. */
  function BeginStep(s: State, pid: nat, call: Call, ok: bool): State {
    if ok then Move(s, pid, Begun(call)).(txn := Some(Txn(pid, s.table)))
    else Move(s, pid, Ready).(history := s.history + [Set(call.request, call.transform, Failure)])
  }

  /** The select inside the transaction, and the comparison that follows it. */
  function SelectStep(s: State, pid: nat, call: Call, working: Table, ok: bool): State {
    if !ok then Move(s, pid, RollingBack(call, Failure))
    else
      var current := RowOf(working, call.request.key);
      if RevisionOf(current) != call.request.expected
      then Move(s, pid, RollingBack(call, Conflict(RevisionOf(current))))
      else Move(s, pid, Compared(call, current))
  }

  /** UPDATE when the select found a row, INSERT otherwise. */
  function WriteStep(s: State, pid: nat, call: Call, current: Option<Row>, working: Table, ok: bool, nowMs: int): State {
    if !ok then Move(s, pid, RollingBack(call, Failure))
    else
      var row := Row(call.request.content, RevisionOf(current) + 1, nowMs);
      Move(s, pid, Written(call)).(txn := Some(Txn(pid, working[call.request.key := row])))
  }

  function CommitStep(s: State, pid: nat, call: Call, working: Table, ok: bool): State {
    if !ok then Move(s, pid, RollingBack(call, Failure))
    else
      Move(s, pid, Ready).(
        table := working,
        txn := None,
        history := s.history + [Set(call.request, call.transform, Stored(call.request.expected + 1))])
  }

  /**
   A conflict rolls back inside the `try`; if that statement throws, the catch rolls back again and the call
   fails. The catch ignores a failing rollback: SQLite has then already ended the transaction.
   */
  function RollbackStep(s: State, pid: nat, call: Call, outcome: Outcome, ok: bool): State {
    if outcome.Conflict? && !ok then Move(s, pid, RollingBack(call, Failure))
    else Move(s, pid, Ready).(txn := None, history := s.history + [Set(call.request, call.transform, outcome)])
  }

  /** The operating system and SQLite clean up after a dead process. */
  function CrashStep(s: State, pid: nat): State {
    s.(processes := s.processes - {pid}, txn := if Owner(s) == Some(pid) then None else s.txn)
  }

  function Step(env: Env, s: State, e: Event): State {
    if !Enabled(env, s, e) then s
    else
      match e
      case Spawn(pid, program) => s.(processes := s.processes[pid := Process(program, Ready)])
      case Crash(pid) => CrashStep(s, pid)
      case Read(_, client, group, ok) => ReadStep(env, s, client, group, ok)
      case Submit(pid, client, input, transform) => SubmitStep(env, s, pid, client, input, transform)
      case BeginImmediate(pid, ok) => BeginStep(s, pid, PcOf(s, pid).call, ok)
      case Select(pid, ok) => SelectStep(s, pid, PcOf(s, pid).call, s.txn.value.working, ok)
      case Write(pid, ok, nowMs) =>
        WriteStep(s, pid, PcOf(s, pid).call, PcOf(s, pid).current, s.txn.value.working, ok, nowMs)
      case Commit(pid, ok) => CommitStep(s, pid, PcOf(s, pid).call, s.txn.value.working, ok)
      case Rollback(pid, ok) => RollbackStep(s, pid, PcOf(s, pid).call, PcOf(s, pid).outcome, ok)
  }

  function Run(env: Env, events: seq<Event>): State {
    if events == [] then INIT else Step(env, Run(env, events[..|events| - 1]), events[|events| - 1])
  }
}
