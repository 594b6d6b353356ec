/**
 Every run of the shared table is a run of an atomic map: no lost update, no ABA, nothing written by a
 call that did not succeed.
 */
module SharedStoreProofs {
  import opened Common
  import opened GroupNames
  import opened SharedStore

  // ----- the invariant -----

  ghost predicate InTxn(pc: Pc) {
    pc.Begun? || pc.Compared? || pc.Written? || pc.RollingBack?
  }

  /** What the owner of the open transaction knows about the committed table. */
  ghost predicate OwnerKnows(table: Table, working: Table, pc: Pc) {
    match pc
    case Ready => false
    case Validated(_) => false
    case Begun(_) => working == table
    case Compared(call, current) =>
      && working == table
      && current == RowOf(table, call.request.key)
      && RevisionOf(current) == call.request.expected
    case Written(call) =>
      && RevisionOf(RowOf(table, call.request.key)) == call.request.expected
      && call.request.key in working
      && working[call.request.key].content == call.request.content
      && working[call.request.key].revision == call.request.expected + 1
      && working == table[call.request.key := working[call.request.key]]
    case RollingBack(call, outcome) =>
      && !outcome.Stored?
      && (outcome.Conflict? ==>
            && outcome.currentRevision == RevisionOf(RowOf(table, call.request.key))
            && outcome.currentRevision != call.request.expected)
  }

  ghost predicate LockInv(s: State) {
    && (forall pid :: pid in s.processes && InTxn(s.processes[pid].pc) ==> Owner(s) == Some(pid))
    && (s.txn.Some? ==>
          && s.txn.value.owner in s.processes
          && OwnerKnows(s.table, s.txn.value.working, s.processes[s.txn.value.owner].pc))
  }

  ghost predicate ReplayInv(s: State) {
    Replay(s.history) == Some(Abs(s.table))
  }

  lemma ReplayExtend(history: seq<Entry>, e: Entry)
    ensures Replay(history + [e]) ==
            match Replay(history)
            case None => None
            case Some(s) => if Legal(s, e) then Some(Effect(s, e)) else None
  {
    assert (history + [e])[..|history + [e]| - 1] == history;
  }

  lemma AbsUpdate(t: Table, key: Text, row: Row)
    ensures Abs(t[key := row]) == Abs(t)[key := Cell(row.content, row.revision)]
  {
  }

  predicate OwnerEvent(e: Event) {
    e.Select? || e.Write? || e.Commit? || e.Rollback?
  }

  lemma LockOutside(env: Env, s: State, e: Event)
    requires LockInv(s) && !OwnerEvent(e)
    ensures LockInv(Step(env, s, e))
  {
  }

  lemma LockSelect(env: Env, s: State, e: Event)
    requires LockInv(s) && e.Select?
    ensures LockInv(Step(env, s, e))
  {
  }

  lemma LockWrite(env: Env, s: State, e: Event)
    requires LockInv(s) && e.Write?
    ensures LockInv(Step(env, s, e))
  {
  }

  lemma LockEnd(env: Env, s: State, e: Event)
    requires LockInv(s) && (e.Commit? || e.Rollback?)
    ensures LockInv(Step(env, s, e))
  {
  }

  lemma LockOwner(env: Env, s: State, e: Event)
    requires LockInv(s) && OwnerEvent(e)
    ensures LockInv(Step(env, s, e))
  {
    match e
    case Select(_, _) => LockSelect(env, s, e);
    case Write(_, _, _) => LockWrite(env, s, e);
    case Commit(_, _) => LockEnd(env, s, e);
    case Rollback(_, _) => LockEnd(env, s, e);
  }

  lemma ReplayRead(env: Env, s: State, client: nat, group: Argument, ok: bool)
    requires ReplayInv(s)
    ensures ReplayInv(ReadStep(env, s, client, group, ok))
  {
    var g := NormalizeGroup(env.nfc, group);
    if g.Ok? && ok {
      var row := RowOf(s.table, g.value);
      ReplayExtend(s.history, Get(g.value, ContentOf(row), RevisionOf(row)));
    }
  }

  lemma ReplayCommit(s: State, pid: nat, call: Call, working: Table, ok: bool)
    requires ReplayInv(s) && OwnerKnows(s.table, working, Written(call))
    ensures ReplayInv(CommitStep(s, pid, call, working, ok))
  {
    if ok {
      ReplayExtend(s.history, Set(call.request, call.transform, Stored(call.request.expected + 1)));
      AbsUpdate(s.table, call.request.key, working[call.request.key]);
    }
  }

  lemma ReplayRollback(s: State, pid: nat, call: Call, outcome: Outcome, ok: bool)
    requires ReplayInv(s) && OwnerKnows(s.table, map[], RollingBack(call, outcome))
    ensures ReplayInv(RollbackStep(s, pid, call, outcome, ok))
  {
    ReplayExtend(s.history, Set(call.request, call.transform, outcome));
  }

  lemma ReplayBegin(s: State, pid: nat, call: Call, ok: bool)
    requires ReplayInv(s)
    ensures ReplayInv(BeginStep(s, pid, call, ok))
  {
    ReplayExtend(s.history, Set(call.request, call.transform, Failure));
  }

  /** Each step appends at most one entry, and the entry has its effect on the table at that very step. */
  lemma ReplayStep(env: Env, s: State, e: Event)
    requires LockInv(s) && ReplayInv(s)
    ensures ReplayInv(Step(env, s, e))
  {
    if Enabled(env, s, e) {
      match e
      case Read(_, client, group, ok) => ReplayRead(env, s, client, group, ok);
      case BeginImmediate(pid, ok) => ReplayBegin(s, pid, PcOf(s, pid).call, ok);
      case Commit(pid, ok) => ReplayCommit(s, pid, PcOf(s, pid).call, s.txn.value.working, ok);
      case Rollback(pid, ok) => ReplayRollback(s, pid, PcOf(s, pid).call, PcOf(s, pid).outcome, ok);
      case _ =>
    }
  }

  lemma {:induction false} RunInv(env: Env, events: seq<Event>)
    ensures LockInv(Run(env, events)) && ReplayInv(Run(env, events))
  {
    if events == [] {
      assert Abs(map[]) == map[];
    } else {
      var before := Run(env, events[..|events| - 1]);
      var e := events[|events| - 1];
      RunInv(env, events[..|events| - 1]);
      if OwnerEvent(e) { LockOwner(env, before, e); } else { LockOutside(env, before, e); }
      ReplayStep(env, before, e);
    }
  }

  // ----- the atomic map -----

  /**
   Any interleaving of gets, sets, failures and crashes by any number of processes of both programs is a
   history of the atomic map, and the committed table is the map after that history.
   */
  lemma RefinesAtomicMap(env: Env, events: seq<Event>)
    ensures Replay(Run(env, events).history) == Some(Abs(Run(env, events).table))
  {
    RunInv(env, events);
  }

  lemma {:induction false} ReplayPrefix(history: seq<Entry>, i: nat)
    requires i <= |history| && Replay(history).Some?
    ensures Replay(history[..i]).Some?
    ensures i < |history| ==> Legal(Replay(history[..i]).value, history[i])
  {
    var last := |history| - 1;
    if i < |history| {
      assert history[..last][..i] == history[..i];
      if i < last {
        ReplayPrefix(history[..last], i);
      }
    } else {
      assert history[..i] == history;
    }
  }

  /** A set is stored if its expected revision is the current one and a conflict if not; only a failing SQL statement is a third case. */
  lemma SetSucceedsIffExpectedIsCurrent(env: Env, events: seq<Event>, i: nat)
    requires i < |Run(env, events).history| && Run(env, events).history[i].Set?
    requires Run(env, events).history[i].outcome != Failure
    ensures var history := Run(env, events).history;
            && Replay(history[..i]).Some?
            && var current := StoreRevision(Replay(history[..i]).value, history[i].request.key);
               && (history[i].outcome.Stored? <==> history[i].request.expected == current)
               && (history[i].outcome.Conflict? ==> history[i].outcome.currentRevision == current)
  {
    RunInv(env, events);
    ReplayPrefix(Run(env, events).history, i);
  }

  // ----- every call takes effect once, while it runs -----

  /** The process is busy with this call. */
  ghost predicate Busy(s: State, pid: nat, call: Call) {
    pid in s.processes && s.processes[pid].pc != Ready && s.processes[pid].pc.call == call
  }

  /** The call has left its one entry, and the process is free again. */
  ghost predicate LeavesEntry(s: State, t: State, pid: nat, call: Call) {
    && pid in t.processes && t.processes[pid].pc == Ready
    && |t.history| == |s.history| + 1
    && var e := t.history[|s.history|];
       && t.history == s.history + [e]
       && e.Set? && e.request == call.request && e.transform == call.transform
  }

  lemma OthersLeaveACallAlone(env: Env, s: State, e: Event, pid: nat, call: Call)
    requires Busy(s, pid, call) && e.pid != pid
    ensures Busy(Step(env, s, e), pid, call)
  {
  }

  /** A step of the process itself goes on without an entry, or leaves the one entry, or is the crash. */
  lemma OwnStepOfACall(env: Env, s: State, e: Event, call: Call)
    requires Busy(s, e.pid, call)
    ensures var t := Step(env, s, e);
            || (Busy(t, e.pid, call) && t.history == s.history)
            || LeavesEntry(s, t, e.pid, call)
            || (e.Crash? && e.pid !in t.processes && t.history == s.history)
  {
  }

  /** The state after the first n events. */
  ghost function After(env: Env, events: seq<Event>, n: nat): State
    requires n <= |events|
  {
    Run(env, events[..n])
  }

  lemma AfterNext(env: Env, events: seq<Event>, n: nat)
    requires n < |events|
    ensures After(env, events, n + 1) == Step(env, After(env, events, n), events[n])
  {
    assert events[..n + 1][..n] == events[..n];
  }

  /** Event number i is the submit of this call: the request is valid and the process takes it up. */
  ghost predicate Submits(env: Env, events: seq<Event>, i: nat, call: Call) {
    && i < |events| && events[i].Submit?
    && Enabled(env, After(env, events, i), events[i])
    && ValidateSet(After(env, events, i).processes[events[i].pid].program, env.nfc, events[i].input) == Ok(call.request)
    && call == Call(events[i].client, call.request, events[i].transform)
  }

  /** Between its submit, event number i, and event number j the process has been busy with the call throughout. */
  ghost predicate BusyThrough(env: Env, events: seq<Event>, i: nat, j: nat, call: Call) {
    i < j <= |events| && forall k :: i < k <= j ==> Busy(After(env, events, k), events[i].pid, call)
  }

  lemma SubmitStarts(env: Env, events: seq<Event>, i: nat, call: Call)
    requires Submits(env, events, i, call)
    ensures BusyThrough(env, events, i, i + 1, call)
    ensures After(env, events, i + 1).history == After(env, events, i).history
  {
    AfterNext(env, events, i);
  }

  /** While a call runs, none of its own steps has left an entry. */
  lemma NoEntryWhileBusy(env: Env, events: seq<Event>, i: nat, j: nat, k: nat, call: Call)
    requires BusyThrough(env, events, i, j, call) && i < k < j && events[k].pid == events[i].pid
    ensures After(env, events, k + 1).history == After(env, events, k).history
  {
    AfterNext(env, events, k);
    OwnStepOfACall(env, After(env, events, k), events[k], call);
  }

  /**
   A call ends by a step of its own process, and that step leaves its one entry, or is the process's crash and
   leaves none; no earlier step of the process since the submit left any. So every call that was not cut off by a
   crash stands in the history exactly once, at a place between its submit and its end, and a call cut off before its
   commit not at all.
   */
  lemma CallTakesEffectOnce(env: Env, events: seq<Event>, i: nat, j: nat, call: Call)
    requires Submits(env, events, i, call)
    requires BusyThrough(env, events, i, j, call) && j < |events|
    requires !Busy(After(env, events, j + 1), events[i].pid, call)
    ensures events[j].pid == events[i].pid
    ensures var s, t := After(env, events, j), After(env, events, j + 1);
            if events[j].Crash? then events[i].pid !in t.processes && t.history == s.history
            else LeavesEntry(s, t, events[i].pid, call)
    ensures forall k :: i <= k < j && events[k].pid == events[i].pid ==>
              After(env, events, k + 1).history == After(env, events, k).history
  {
    var pid := events[i].pid;
    AfterNext(env, events, j);
    if events[j].pid != pid {
      OthersLeaveACallAlone(env, After(env, events, j), events[j], pid, call);
    }
    OwnStepOfACall(env, After(env, events, j), events[j], call);
    SubmitStarts(env, events, i, call);
    forall k | i < k < j && events[k].pid == pid
      ensures After(env, events, k + 1).history == After(env, events, k).history
    {
      NoEntryWhileBusy(env, events, i, j, k, call);
    }
  }

  /** A get leaves one entry and is remembered if its name is accepted and its statement succeeds, else it leaves nothing. */
  lemma ReadLeavesOneEntry(env: Env, events: seq<Event>, pid: nat, client: nat, group: Argument, ok: bool)
    requires Enabled(env, Run(env, events), Read(pid, client, group, ok))
    ensures var s, t := Run(env, events), Step(env, Run(env, events), Read(pid, client, group, ok));
            var key := NormalizeGroup(env.nfc, group);
            && t.table == s.table && t.txn == s.txn && t.processes == s.processes
            && (key.Err? || !ok ==> t == s)
            && (key.Ok? && ok ==>
                  && |t.history| == |s.history| + 1 && t.history[|s.history|].Get? && t.history[|s.history|].key == key.value
                  && t.history == s.history + [t.history[|s.history|]]
                  && t.memory == s.memory[(client, key.value) := Seen(t.history[|s.history|].content, t.history[|s.history|].revision)])
  {
  }

  /** A request that is not accepted leaves its process free and changes nothing. */
  lemma RefusedSubmitChangesNothing(env: Env, events: seq<Event>, e: Event)
    requires e.Submit? && Enabled(env, Run(env, events), e)
    requires ValidateSet(Run(env, events).processes[e.pid].program, env.nfc, e.input).Err?
    ensures Step(env, Run(env, events), e) == Run(env, events)
  {
  }

  /** A crash discards what the process had not committed and gives up its lock; nothing else changes. */
  lemma CrashLeavesNothing(env: Env, events: seq<Event>, pid: nat)
    requires pid in Run(env, events).processes
    ensures var s, t := Run(env, events), Step(env, Run(env, events), Crash(pid));
            && pid !in t.processes && (forall q :: q != pid ==> (q in t.processes <==> q in s.processes))
            && t.table == s.table && t.history == s.history && t.memory == s.memory
            && t.txn == (if s.txn.Some? && s.txn.value.owner == pid then None else s.txn)
  {
  }

  /** The lock is free again after every end of a call: only a process that is busy holds it. */
  lemma LockIsHeldByABusyProcess(env: Env, events: seq<Event>)
    requires Run(env, events).txn.Some?
    ensures var s := Run(env, events);
            s.txn.value.owner in s.processes && s.processes[s.txn.value.owner].pc != Ready
  {
    RunInv(env, events);
  }

  // ----- which calls fail -----

  /** Event number k is a statement of this process that fails. */
  ghost predicate StatementFails(env: Env, events: seq<Event>, pid: nat, k: nat) {
    k < |events| && events[k].pid == pid && Enabled(env, After(env, events, k), events[k]) && !StatementOk(events[k])
  }

  ghost predicate SomeFails(env: Env, events: seq<Event>, pid: nat, i: nat, j: nat) {
    exists k :: i <= k < j && StatementFails(env, events, pid, k)
  }

  /** The process is on its way to report a failure. */
  ghost predicate Failing(s: State, pid: nat) {
    pid in s.processes && s.processes[pid].pc.RollingBack? && s.processes[pid].pc.outcome == Failure
  }

  lemma SomeFailsNext(env: Env, events: seq<Event>, pid: nat, i: nat, j: nat)
    requires i <= j < |events|
    ensures SomeFails(env, events, pid, i, j + 1) <==> SomeFails(env, events, pid, i, j) || StatementFails(env, events, pid, j)
  {
  }

  lemma FailingStep(env: Env, s: State, e: Event, pid: nat, call: Call)
    requires Busy(s, pid, call) && Busy(Step(env, s, e), pid, call)
    ensures Failing(Step(env, s, e), pid) <==> Failing(s, pid) || (e.pid == pid && Enabled(env, s, e) && !StatementOk(e))
  {
  }

  lemma FailingEnd(env: Env, s: State, e: Event, call: Call)
    requires Busy(s, e.pid, call) && LeavesEntry(s, Step(env, s, e), e.pid, call) && LockInv(s)
    ensures Step(env, s, e).history[|s.history|].outcome == Failure
            <==> Failing(s, e.pid) || (Enabled(env, s, e) && !StatementOk(e))
  {
  }

  lemma {:induction false} FailingIff(env: Env, events: seq<Event>, i: nat, j: nat, call: Call)
    requires Submits(env, events, i, call) && BusyThrough(env, events, i, j, call)
    ensures Failing(After(env, events, j), events[i].pid) <==> SomeFails(env, events, events[i].pid, i + 1, j)
  {
    var pid := events[i].pid;
    if j == i + 1 {
      AfterNext(env, events, i);
    } else {
      FailingIff(env, events, i, j - 1, call);
      AfterNext(env, events, j - 1);
      FailingStep(env, After(env, events, j - 1), events[j - 1], pid, call);
      SomeFailsNext(env, events, pid, i + 1, j - 1);
    }
  }

  /** A set that ends reports a failure if and only if one of its own SQL statements failed while it ran. */
  lemma CallFailsIffAStatementFailed(env: Env, events: seq<Event>, i: nat, j: nat, call: Call)
    requires Submits(env, events, i, call)
    requires BusyThrough(env, events, i, j, call) && j < |events|
    requires !Busy(After(env, events, j + 1), events[i].pid, call) && !events[j].Crash?
    ensures |After(env, events, j).history| < |After(env, events, j + 1).history|
    ensures After(env, events, j + 1).history[|After(env, events, j).history|].Set?
    ensures After(env, events, j + 1).history[|After(env, events, j).history|].outcome == Failure
            <==> SomeFails(env, events, events[i].pid, i + 1, j + 1)
  {
    CallTakesEffectOnce(env, events, i, j, call);
    AfterNext(env, events, j);
    FailingIff(env, events, i, j, call);
    RunInv(env, events[..j]);
    FailingEnd(env, After(env, events, j), events[j], call);
    SomeFailsNext(env, events, events[i].pid, i + 1, j);
  }

  // ----- revisions count commits -----

  /** The contents successfully written to a group, in commit order. */
  function Versions(history: seq<Entry>, key: Text): seq<Text> {
    if history == [] then []
    else
      var last := history[|history| - 1];
      var before := Versions(history[..|history| - 1], key);
      if last.Set? && last.outcome.Stored? && last.request.key == key then before + [last.request.content] else before
  }

  function VersionAt(versions: seq<Text>, revision: nat): Option<Text>
    requires revision <= |versions|
  {
    if revision == 0 then None else Some(versions[revision - 1])
  }

  lemma {:induction false} VersionsGrow(history: seq<Entry>, i: nat, key: Text)
    requires i <= |history|
    ensures Versions(history[..i], key) <= Versions(history, key)
  {
    if i < |history| {
      assert history[..|history| - 1][..i] == history[..i];
      VersionsGrow(history[..|history| - 1], i, key);
    } else {
      assert history[..i] == history;
    }
  }

  /** A group exists once it has been written, its revision is the number of commits, its content the last one. */
  lemma {:induction false} StoreIsLastVersion(history: seq<Entry>, key: Text)
    requires Replay(history).Some?
    ensures var s := Replay(history).value;
            var versions := Versions(history, key);
            && (key in s <==> versions != [])
            && StoreRevision(s, key) == |versions|
            && StoreContent(s, key) == VersionAt(versions, |versions|)
  {
    if history != [] {
      StoreIsLastVersion(history[..|history| - 1], key);
    }
  }

  lemma RevisionCountsCommits(env: Env, events: seq<Event>, key: Text)
    ensures var s := Run(env, events);
            var versions := Versions(s.history, key);
            && (key in s.table <==> versions != [])
            && (key in s.table ==> s.table[key].revision == |versions| && s.table[key].content == versions[|versions| - 1])
  {
    RunInv(env, events);
    StoreIsLastVersion(Run(env, events).history, key);
  }

  /** What a get returned at some revision is the content of that version, whatever was committed since. */
  lemma ReadReturnsItsVersion(env: Env, events: seq<Event>, i: nat)
    requires i < |Run(env, events).history| && Run(env, events).history[i].Get?
    ensures var history := Run(env, events).history;
            var versions := Versions(history, history[i].key);
            history[i].revision <= |versions| && history[i].content == VersionAt(versions, history[i].revision)
  {
    var history := Run(env, events).history;
    RunInv(env, events);
    ReplayPrefix(history, i);
    StoreIsLastVersion(history[..i], history[i].key);
    VersionsGrow(history, i, history[i].key);
  }

  /** No ABA: two gets of a group that report the same revision report the same content, whoever served them. */
  lemma SameRevisionSameContent(env: Env, events: seq<Event>, i: nat, j: nat)
    requires var h := Run(env, events).history;
             i < |h| && j < |h| && h[i].Get? && h[j].Get? && h[i].key == h[j].key && h[i].revision == h[j].revision
    ensures Run(env, events).history[i].content == Run(env, events).history[j].content
  {
    ReadReturnsItsVersion(env, events, i);
    ReadReturnsItsVersion(env, events, j);
  }

  lemma {:induction false} HistoryGrows(env: Env, events: seq<Event>, more: seq<Event>)
    ensures Run(env, events).history <= Run(env, events + more).history
  {
    if more == [] {
      assert events + more == events;
    } else {
      var last := |more| - 1;
      HistoryGrows(env, events, more[..last]);
      assert (events + more)[..|events + more| - 1] == events + more[..last];
      HistoryStep(env, Run(env, events + more[..last]), more[last]);
    }
  }

  lemma HistoryStep(env: Env, s: State, e: Event)
    ensures s.history <= Step(env, s, e).history
  {
  }

  /** Groups never disappear, and revisions never go back. */
  lemma GroupsAreKept(env: Env, events: seq<Event>, more: seq<Event>, key: Text)
    requires key in Run(env, events).table
    ensures key in Run(env, events + more).table
    ensures Run(env, events).table[key].revision <= Run(env, events + more).table[key].revision
  {
    var before, after := Run(env, events).history, Run(env, events + more).history;
    HistoryGrows(env, events, more);
    assert after[..|before|] == before;
    VersionsGrow(after, |before|, key);
    RevisionCountsCommits(env, events, key);
    RevisionCountsCommits(env, events + more, key);
  }

  // ----- no lost update -----

  /** What clients remember, and what disciplined calls carry, are versions that were really committed. */
  ghost predicate CallOk(env: Env, history: seq<Entry>, call: Call) {
    call.transform.Some? ==>
      var versions := Versions(history, call.request.key);
      && call.request.expected <= |versions|
      && call.request.content == env.transform(call.transform.value, VersionAt(versions, call.request.expected))
  }

  ghost predicate ClientInv(env: Env, s: State) {
    && (forall c: nat, key: Text :: (c, key) in s.memory ==>
          && s.memory[(c, key)].revision <= |Versions(s.history, key)|
          && s.memory[(c, key)].content == VersionAt(Versions(s.history, key), s.memory[(c, key)].revision))
    && (forall pid :: pid in s.processes && s.processes[pid].pc != Ready ==> CallOk(env, s.history, s.processes[pid].pc.call))
  }

  /** Every stored entry of a disciplined client holds its transform of the version it replaced. */
  ghost predicate DisciplinedHistory(env: Env, history: seq<Entry>) {
    forall i :: 0 <= i < |history| && history[i].Set? && history[i].outcome.Stored? && history[i].transform.Some? ==>
      var versions := Versions(history[..i], history[i].request.key);
      history[i].request.content == env.transform(history[i].transform.value, VersionAt(versions, |versions|))
  }

  /** A longer history keeps every earlier version in place. */
  lemma CallStaysOk(env: Env, history: seq<Entry>, e: Entry, call: Call)
    requires CallOk(env, history, call)
    ensures CallOk(env, history + [e], call)
  {
    assert (history + [e])[..|history|] == history;
    VersionsGrow(history + [e], |history|, call.request.key);
  }

  lemma ClientInvExtend(env: Env, s: State, e: Entry, s': State)
    requires ClientInv(env, s)
    requires s'.history == s.history + [e] && s'.memory == s.memory
    requires forall pid :: pid in s'.processes ==>
               pid in s.processes && (s'.processes[pid].pc == Ready ||
                 (s.processes[pid].pc != Ready && s'.processes[pid].pc.call == s.processes[pid].pc.call))
    ensures ClientInv(env, s')
  {
    forall c: nat, key: Text | (c, key) in s'.memory
      ensures s'.memory[(c, key)].revision <= |Versions(s'.history, key)|
      ensures s'.memory[(c, key)].content == VersionAt(Versions(s'.history, key), s'.memory[(c, key)].revision)
    {
      assert s'.history[..|s.history|] == s.history;
      VersionsGrow(s'.history, |s.history|, key);
    }
    forall pid | pid in s'.processes && s'.processes[pid].pc != Ready
      ensures CallOk(env, s'.history, s'.processes[pid].pc.call)
    {
      CallStaysOk(env, s.history, e, s'.processes[pid].pc.call);
    }
  }

  lemma ClientRead(env: Env, s: State, client: nat, group: Argument, ok: bool)
    requires ClientInv(env, s) && ReplayInv(s)
    ensures ClientInv(env, ReadStep(env, s, client, group, ok))
  {
    var g := NormalizeGroup(env.nfc, group);
    if g.Ok? && ok {
      var key := g.value;
      var row := RowOf(s.table, key);
      var e := Get(key, ContentOf(row), RevisionOf(row));
      ClientInvExtend(env, s, e, s.(history := s.history + [e]));
      StoreIsLastVersion(s.history, key);
      assert (s.history + [e])[..|s.history|] == s.history;
      assert Versions(s.history + [e], key) == Versions(s.history, key);
    }
  }

  lemma ClientSubmit(env: Env, s: State, e: Event)
    requires ClientInv(env, s) && e.Submit? && Enabled(env, s, e)
    ensures ClientInv(env, Step(env, s, e))
  {
    var v := ValidateSet(s.processes[e.pid].program, env.nfc, e.input);
    if v.Ok? {
      var call := Call(e.client, v.value, e.transform);
      assert CallOk(env, s.history, call);
    }
  }

  lemma ClientStep(env: Env, s: State, e: Event)
    requires ClientInv(env, s) && LockInv(s) && ReplayInv(s)
    ensures ClientInv(env, Step(env, s, e))
  {
    if Enabled(env, s, e) {
      var s' := Step(env, s, e);
      match e
      case Read(_, client, group, ok) => ClientRead(env, s, client, group, ok);
      case Submit(_, _, _, _) => ClientSubmit(env, s, e);
      case BeginImmediate(pid, ok) =>
        if !ok { ClientInvExtend(env, s, Set(PcOf(s, pid).call.request, PcOf(s, pid).call.transform, Failure), s'); }
      case Commit(pid, ok) =>
        if ok { ClientInvExtend(env, s, s'.history[|s.history|], s'); }
      case Rollback(pid, ok) =>
        if PcOf(s, pid).outcome != Failure && !ok {
        } else {
          ClientInvExtend(env, s, s'.history[|s.history|], s');
        }
      case _ =>
    }
  }

  /** A stored entry of a disciplined call replaces the very version the client had read. */
  lemma DisciplinedStep(env: Env, s: State, e: Event)
    requires ClientInv(env, s) && LockInv(s) && ReplayInv(s) && DisciplinedHistory(env, s.history)
    ensures DisciplinedHistory(env, Step(env, s, e).history)
  {
    var h, h' := s.history, Step(env, s, e).history;
    HistoryStep(env, s, e);
    if h' != h {
      assert h' == h + [h'[|h|]];
      forall i | 0 <= i < |h'| && h'[i].Set? && h'[i].outcome.Stored? && h'[i].transform.Some?
        ensures var versions := Versions(h'[..i], h'[i].request.key);
                h'[i].request.content == env.transform(h'[i].transform.value, VersionAt(versions, |versions|))
      {
        assert i < |h| ==> h'[..i] == h[..i];
        if i == |h| {
          assert h'[..i] == h;
          assert e.Commit?;
          StoreIsLastVersion(h, h'[i].request.key);
        }
      }
    }
  }

  lemma {:induction false} RunClients(env: Env, events: seq<Event>)
    ensures ClientInv(env, Run(env, events)) && DisciplinedHistory(env, Run(env, events).history)
  {
    if events != [] {
      var before := events[..|events| - 1];
      RunClients(env, before);
      RunInv(env, before);
      ClientStep(env, Run(env, before), events[|events| - 1]);
      DisciplinedStep(env, Run(env, before), events[|events| - 1]);
    }
  }

  /** The transforms stored to a group, in commit order; None marks a write by another kind of client. */
  function Transforms(history: seq<Entry>, key: Text): seq<Option<nat>> {
    if history == [] then []
    else
      var last := history[|history| - 1];
      var before := Transforms(history[..|history| - 1], key);
      if last.Set? && last.outcome.Stored? && last.request.key == key then before + [last.transform] else before
  }

  function Fold(env: Env, transforms: seq<Option<nat>>): Option<Text> {
    if transforms == [] then None
    else
      var last := transforms[|transforms| - 1];
      if last.None? then None else Some(env.transform(last.value, Fold(env, transforms[..|transforms| - 1])))
  }

  ghost predicate AllDisciplined(transforms: seq<Option<nat>>) {
    forall i :: 0 <= i < |transforms| ==> transforms[i].Some?
  }

  lemma {:induction false} FoldIsLastVersion(env: Env, history: seq<Entry>, key: Text)
    requires DisciplinedHistory(env, history) && AllDisciplined(Transforms(history, key))
    ensures |Transforms(history, key)| == |Versions(history, key)|
    ensures Fold(env, Transforms(history, key)) == VersionAt(Versions(history, key), |Versions(history, key)|)
  {
    if history != [] {
      var last := |history| - 1;
      var before := history[..last];
      forall i | 0 <= i < last && history[i].Set? && history[i].outcome.Stored? && history[i].transform.Some?
        ensures before[..i] == history[..i]
      {
      }
      var ts := Transforms(history, key);
      assert ts == Transforms(before, key) || ts[..|ts| - 1] == Transforms(before, key);
      assert AllDisciplined(Transforms(before, key)) by {
        assert forall i :: 0 <= i < |Transforms(before, key)| ==> Transforms(before, key)[i] == ts[i];
      }
      assert DisciplinedHistory(env, before);
      FoldIsLastVersion(env, before, key);
    }
  }

  /**
   No lost update: when every write of a group comes from a client that reads, transforms, sets and retries
   on conflict, its content is the fold of all stored transforms in commit order, and its revision their number.
   */
  lemma NoLostUpdate(env: Env, events: seq<Event>, key: Text)
    requires AllDisciplined(Transforms(Run(env, events).history, key))
    ensures var s := Run(env, events);
            var ts := Transforms(s.history, key);
            && ContentOf(RowOf(s.table, key)) == Fold(env, ts)
            && RevisionOf(RowOf(s.table, key)) == |ts|
  {
    RunClients(env, events);
    RunInv(env, events);
    FoldIsLastVersion(env, Run(env, events).history, key);
    StoreIsLastVersion(Run(env, events).history, key);
  }

  // ----- failures need a failing statement -----

  predicate StatementOk(e: Event) {
    match e
    case BeginImmediate(_, ok) => ok
    case Select(_, ok) => ok
    case Write(_, ok, _) => ok
    case Commit(_, ok) => ok
    case Rollback(_, ok) => ok
    case _ => true
  }

  ghost predicate NoFailure(s: State) {
    && (forall i :: 0 <= i < |s.history| && s.history[i].Set? ==> s.history[i].outcome != Failure)
    && (forall pid :: pid in s.processes && s.processes[pid].pc.RollingBack? ==> s.processes[pid].pc.outcome != Failure)
  }

  lemma NoFailureStep(env: Env, s: State, e: Event)
    requires NoFailure(s) && StatementOk(e)
    ensures NoFailure(Step(env, s, e))
  {
  }

  /** While every SQL statement succeeds, every completed set is either stored or a conflict. */
  lemma {:induction false} FailureNeedsAFailingStatement(env: Env, events: seq<Event>)
    requires forall i :: 0 <= i < |events| ==> StatementOk(events[i])
    ensures NoFailure(Run(env, events))
  {
    if events != [] {
      FailureNeedsAFailingStatement(env, events[..|events| - 1]);
      NoFailureStep(env, Run(env, events[..|events| - 1]), events[|events| - 1]);
    }
  }
}
