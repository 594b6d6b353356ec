# Verified models of the agent host's stateful programs

Most of this repository is declarative configuration, but it ships programs with state, retries and
concurrency. This project models the ones whose correctness is hardest to see by reading, and proves what they
are for:

- **Startup of an app-server client** (`StartupProtocol`, `StartupSafety`, `StartupProgress`): up to three attempts, a timeout
  handler and a caller share a client lease, a sandbox environment and a route reservation, and may be
  interleaved at every `await`. An inductive invariant gives exactly-once release over all interleavings, and
  further theorems what happens to a running attempt, after an abort and after a failed stage.
- **Shared state table** (`GroupNames`, `SharedStore`, `SharedStoreProofs`, `SharedStoreServer`): two different
  programs compare-and-swap rows of one SQLite table. Every run refines an atomic map with revisions.
- **Scheduled app authority** (`ToolPolicy`, `AppInventory`, `ScheduledAuthority`,
  `ScheduledAuthorityParse`, `ScheduledAuthorityProofs`):
  permissions are captured, serialised, parsed and intersected with today's policy, after a cursor-paginated
  inventory. Round trip, narrowing and idempotence.
- **Nightly image update** (`ImageUpdate`): the script as a method over the host, and its invariant over any
  number of nights.
- **Creator tool surface** (`CreatorTools`, `CreatorMemo`): flattening, in-place merge and filter of tools, and
  the memo shared by concurrent calls.
- **Discovery deadline** (`DiscoveryDeadline`), **exit-node watchdog** (`Watchdog`) and **notification window**
  (`Notifications`).

Protocols are step machines whose events are the pieces of code between two `await`s or two SQL statements; an
event that is not enabled changes nothing, so a theorem over all event sequences is a theorem over all
interleavings. Loops that update variables are methods proved against a specification function or predicate, and
objects and scripts that update their variables are classes.

`Common` and `Strings` hold small shared definitions.

## What the proofs found

- A resolver that throws at `attempt-startup.ts:425-438`, or a health monitor that throws at line 548, skips the
  sandbox clean-up of its attempt. `SandboxReleasedByTheEnd` shows that these two are the only ways. Whether the
  monitor can throw is open: of what it calls (`run-attempt-BA-4g-pn.mjs:6856-6898` in the compiled bundle) only
  the client's `addCloseHandler` looks able to, and its code is not part of this model.
- A startup aborted between the attempt's success and the caller's read of it keeps its sandbox and its route, and
  keeps its lease unless the handler got to its release or the caller retires the client (`DiscardedSuccessLease`).
  This rests on the assumption that the timeout wrapper can reject after the operation has resolved.
- `appApprovalCeiling` is not monotone: `deny` has the ceiling `auto`, the stricter-looking `ask` has `prompt`. So
  the intersection does not only narrow: an authority stored under `deny` lifts a tool that today's `ask` holds at
  `prompt` to `auto`. `TodaysCeilingIsKeptIff` gives the exact condition.
- A tool mode configured above its app's ceiling is captured as configured and lowered at run time, so a capture
  can promise more than the job will get; the identity law holds exactly when no captured mode is above its ceiling.
- The role's documentation and the script's own comment say a failed build is retried the next night. That is so
  only if the state file exists: on a first-ever run the pull itself moves the baseline, and any release whose night
  ends without writing the file is skipped, also one whose first `up` failed (`UnrecordedFirstRunIsFinal`).
- After one night that leaves the derived tag on an unchecked image, the next night tags that image for roll-back
  before it builds, so even a failing build loses the last tag on a checked one. `NightLosesGoodTagIff` gives the exact
  nights; no single night does it to a good derived tag.
- The patch's documentation says flat tool maps are part of the creator surface. A tool captured with a plain mode
  contributes a path only if its stripped name is a valid path: two parts or more, none empty, none with white space
  or a star (`PlainModeContributesIff`, `PlainAuthorityAddsNothingIff`).
- The two programs reject the same requests, but give the same reason only if the name is refused or the content is
  fine (`ProgramsAnswerAlikeIff`), and blame different arguments for a too long text with a bad revision.
- "complete" may miss notifications posted exactly at the cutoff: it does not guarantee them when the count does not
  match and the reply reaches the cutoff without going behind it (`CompleteAtTheCutoffIff`).
- A tool call that joined a creator-authority resolution fails with the abort of the call that started it
  (`ForeignAbortIff`); `SafeFromForeignAbortIff` says which calls are exposed to that.

## Assumptions

- The timeout wrapper `withCodexStartupTimeout` is not in the repository. It is taken to discard the operation's
  result once its handler has started, to be able to reject the caller at any time after an abort, even when the
  operation has resolved, and to disarm its timer once the caller has returned or was rejected.
- Releasing a lease, a reservation or a sandbox does not throw, and the thread lifecycle may release its own
  reservation (`thread-lifecycle-run-BZgVbiLr.mjs:942-965`).
- SQLite allows one write transaction at a time after BEGIN IMMEDIATE, readers see the last committed table, and
  a rollback or crash discards the open transaction. Texts come back as they were given: SQLite stores UTF-8, so a
  content or group name with a lone surrogate is outside this assumption.
- NFC normalisation is a parameter; only `NormalizeIsIdempotent` uses facts about it.
- `normalizeOptionalString` and `asOptionalRecord` are not in the repository; they are taken as "trimmed and not
  empty" and "an object".

## Model

| member | source | states |
|---|---|---|
| `StartupSafety.StepKeeps` | ansible/roles/openclaw/files/codex-apps-patch/extensions/codex/src/app-server/attempt-startup.ts:167-723 | The ownership invariant (lease, sandbox, routes, shared variables, retry budget) survives every event of the operation, the timeout handler and the caller, from any state that satisfies it |
| `StartupSafety.LeaseReleasedExactlyOnce` | ansible/roles/openclaw/files/codex-apps-patch/extensions/codex/src/app-server/attempt-startup.ts:272-284 | In every interleaving no attempt's lease is released twice, and each failed attempt has released the lease it took exactly once, whether the handler, the `finally` or the caller did it |
| `StartupSafety.SuccessHoldsExactlyOneLease` | ansible/roles/openclaw/files/codex-apps-patch/extensions/codex/src/app-server/attempt-startup.ts:707-715 | When the caller gets a result, the lease it returns belongs to the attempt that succeeded and is still held, the route is that of the started thread, and every other attempt holds neither lease nor route |
| `StartupSafety.SuccessIsFinal` | ansible/roles/openclaw/files/codex-apps-patch/extensions/codex/src/app-server/attempt-startup.ts:707-715 | After the caller has its result, no later event of the operation, of a signal or of a late clean-up changes anything but the abort flag (the wrapper is assumed to disarm its timer) |
| `StartupSafety.FailureReleasesExactlyOnce` | ansible/roles/openclaw/files/codex-apps-patch/extensions/codex/src/app-server/attempt-startup.ts:588-590 | A failed attempt has released every reservation it made exactly once, and its sandbox exactly once unless one of the two unguarded throws happened, also when handler and catch both ran the cleanup |
| `StartupSafety.SuccessReleasesNothing` | ansible/roles/openclaw/files/codex-apps-patch/extensions/codex/src/app-server/attempt-startup.ts:540-563 | Nobody ever releases the sandbox or the current route of an attempt that succeeded; reservations it gave up earlier are released once |
| `StartupSafety.SandboxReleasedByTheEnd` | ansible/roles/openclaw/files/codex-apps-patch/extensions/codex/src/app-server/attempt-startup.ts:421-438 | At the very event that ends a failing attempt its sandbox has been released if and only if neither a resolver (425-438) nor the health monitor (548) threw, or none had been acquired |
| `StartupSafety.ResolverThrowNeedsTheTimeout` | ansible/roles/openclaw/files/codex-apps-patch/extensions/codex/src/app-server/attempt-startup.ts:425-438 | A sandbox left behind by a throwing resolver stays unreleased in every continuation in which the timeout handler does not run its clean-up |
| `StartupSafety.ResolverThrowLeavesSandbox` | ansible/roles/openclaw/files/codex-apps-patch/extensions/codex/src/app-server/attempt-startup.ts:425-438 | A reachable run in which a resolver outside every `try` throws and the attempt ends with its sandbox held, and a timeout after it that releases it through the stale closure |
| `StartupSafety.MonitorThrowIsForever` | ansible/roles/openclaw/files/codex-apps-patch/extensions/codex/src/app-server/attempt-startup.ts:547-552 | A sandbox left behind by a throwing health monitor is released in no continuation of the run |
| `StartupSafety.MonitorThrowLeavesSandbox` | ansible/roles/openclaw/files/codex-apps-patch/extensions/codex/src/app-server/attempt-startup.ts:547-552 | A reachable run in which the health monitor throws after the flag was lowered: the route is released, the sandbox is not |
| `StartupSafety.LoopsAreBounded` | ansible/roles/openclaw/files/codex-apps-patch/extensions/codex/src/app-server/attempt-startup.ts:643-704 | In every run at most 3 attempts begin, at most one retry follows a client replacement, the backoff asked for totals at most 3000 ms, and line 704 is never reached |
| `StartupSafety.RejectedOperationLeavesNothing` | ansible/roles/openclaw/files/codex-apps-patch/extensions/codex/src/app-server/attempt-startup.ts:608-627 | When the operation is rejected, every attempt's lease and every reservation have been released exactly once and no lease is shared any more |
| `StartupSafety.DiscardedSuccessLease` | ansible/roles/openclaw/files/codex-apps-patch/extensions/codex/src/app-server/attempt-startup.ts:716-723 | An attempt that succeeds but whose result the caller discards keeps its lease exactly unless the handler got past its release or the caller retired the client; its sandbox and its route are kept in any case |
| `StartupSafety.DiscardedSuccessCanLeak` | ansible/roles/openclaw/files/codex-apps-patch/extensions/codex/src/app-server/attempt-startup.ts:716-723 | Such a run is reachable: abort between success and the caller's `await`, no retirement; lease, sandbox and route stay held |
| `StartupSafety.SuccessIsReachable` | ansible/roles/openclaw/files/codex-apps-patch/extensions/codex/src/app-server/attempt-startup.ts:444-457 | Overall success is reachable with a reservation the thread lifecycle made before the thread started |
| `StartupProgress.TimeoutReleasesTheRunningAttempt` | ansible/roles/openclaw/files/codex-apps-patch/extensions/codex/src/app-server/attempt-startup.ts:458-463 | When the handler's clean-up runs while the operation is held up in its thread stage, the running attempt has its sandbox and every one of its routes released at that step, once each, without waiting for the operation |
| `StartupProgress.SweepFreesTheLease` | ansible/roles/openclaw/files/codex-apps-patch/extensions/codex/src/app-server/attempt-startup.ts:187-193 | From the handler's own release, or the caller's retirement of the client, on, in every run the current attempt's lease has been freed once if it was ever taken, whatever the operation still waits for, and none is shared |
| `StartupProgress.ReleaseLeadsToTheSweep` | ansible/roles/openclaw/files/codex-apps-patch/extensions/codex/src/app-server/attempt-startup.ts:189-192 | The handler gets there by its release step, whatever the operation waits for |
| `StartupProgress.HandlerStopsAtAThrow` | ansible/roles/openclaw/files/codex-apps-patch/extensions/codex/src/app-server/attempt-startup.ts:187-194 | Where a step of the handler throws, nothing else changes, and in no continuation does a later step of it follow |
| `StartupProgress.LifecycleReleaseFreesTheRoute` | ansible/roles/openclaw/files/codex-apps-patch/extensions/codex/src/app-server/attempt-startup.ts:440-443 | When the lifecycle gives its reservation back, every route of the attempt has been released once and none is reserved |
| `StartupProgress.UnsubscribedIff` | ansible/roles/openclaw/files/codex-apps-patch/extensions/codex/src/app-server/attempt-startup.ts:444-457 | A started thread is unsubscribed if and only if its route cannot be reserved, and until then nothing is released |
| `StartupProgress.AbortedStepDescends` | ansible/roles/openclaw/files/codex-apps-patch/extensions/codex/src/app-server/attempt-startup.ts:236-238 | After an abort every event of the operation brings it nearer to its rejection |
| `StartupProgress.AbortEndsTheOperation` | ansible/roles/openclaw/files/codex-apps-patch/extensions/codex/src/app-server/attempt-startup.ts:540-542 | An aborted startup that has not succeeded never does, in any continuation, and its operation takes at most four more steps, the lifecycle's reservations aside |
| `StartupProgress.AbortingReturnsNothing` | ansible/roles/openclaw/files/codex-apps-patch/extensions/codex/src/app-server/attempt-startup.ts:707-715 | And it returns no result to its caller |
| `StartupProgress.StageFailureIsFinal` | ansible/roles/openclaw/files/codex-apps-patch/extensions/codex/src/app-server/attempt-startup.ts:588-641 | An attempt one of whose stages failed succeeds in no continuation |
| `StartupProgress.StartupCanStillSucceed` | ansible/roles/openclaw/files/codex-apps-patch/extensions/codex/src/app-server/attempt-startup.ts:643-647 | Wherever an unaborted startup stands before an attempt, it succeeds if that attempt's stages do their work, with or without a sandbox |
| `StartupProgress.RetryCanStillSucceed` | ansible/roles/openclaw/files/codex-apps-patch/extensions/codex/src/app-server/attempt-startup.ts:700-702 | And so does one that waits to retry |
| `StartupProgress.RetriedIff` | ansible/roles/openclaw/files/codex-apps-patch/extensions/codex/src/app-server/attempt-startup.ts:649-701 | An error is retried if and only if nothing is aborted, attempts are left, no socket failed to open, and it is the first client replacement of the run, or a changed selection or a closed connection; the wait is exactly none, one second or two |
| `GroupNames.KeyIs` | ansible/roles/openclaw/files/shared-state-mcp/server.mjs:92-105 | The key of a text is the part of its normal form that white space surrounds; it is accepted if and only if that is not empty, keeps both size limits and has no control or format character |
| `GroupNames.RefusedIff` | ansible/roles/openclaw/files/hermes-mcp-bridge/server.mjs:92-101 | An argument is refused, always for the same reason, if and only if it is not a text or no part of it is such a key |
| `GroupNames.SurroundingSpaceDoesNotMatter` | ansible/roles/openclaw/files/shared-state-mcp/server.mjs:94 | Two texts whose normal forms differ only by white space around them name the same group, or none |
| `GroupNames.NormalizeIsIdempotent` | ansible/roles/openclaw/files/shared-state-mcp/server.mjs:92-105 | Every key that is accepted is accepted again unchanged, given that NFC is idempotent and closed under substrings of normalised text (UAX #15, section 1.4) |
| `GroupNames.Utf8LengthCountsBytes` | ansible/roles/openclaw/files/shared-state-mcp/server.mjs:99 | The length the limits speak of is the number of UTF-8 bytes of the text |
| `GroupNames.DecodesToItself` | ansible/roles/openclaw/files/shared-state-mcp/server.mjs:99 | Those bytes carry each code point: it can be read back from them |
| `GroupNames.SafeRevisionIff` | ansible/roles/openclaw/files/shared-state-mcp/server.mjs:122-124 | Exactly the integers from 0 to 2^53 - 1 are revisions |
| `GroupNames.AcceptedIff` | ansible/roles/openclaw/files/hermes-mcp-bridge/server.mjs:115-122 | Either program accepts a set exactly if its name has a key, its content is a text of at most 256 KiB and its revision is safe, and reads these three |
| `GroupNames.ProgramsAgree` | ansible/roles/openclaw/files/hermes-mcp-bridge/server.mjs:92-122 | Both programs accept exactly the same set requests and read the same key, content and revision from them |
| `GroupNames.ProgramsAnswerAlikeIff` | ansible/roles/openclaw/files/hermes-mcp-bridge/server.mjs:115-122 | The two give the same answer, reason included, if and only if the name is refused or the content is a text that is not too long |
| `GroupNames.ProgramsBlameAlikeIff` | ansible/roles/openclaw/files/hermes-mcp-bridge/server.mjs:117-122 | For a refused request they blame the same argument unless, and only unless, the name is accepted, the content is a text that is too long and the revision is bad |
| `SharedStoreProofs.RefinesAtomicMap` | ansible/roles/openclaw/files/shared-state-mcp/server.mjs:107-159 | Any interleaving of gets, sets, failing statements and crashes by any number of processes of both programs is a legal history of one atomic map of revisions, and the committed table is that map |
| `SharedStoreProofs.CallTakesEffectOnce` | ansible/roles/openclaw/files/shared-state-mcp/server.mjs:129-158 | Real time, in every run: a set that was taken up ends by a step of its own process that leaves exactly its one entry in the history, and no earlier step since its submit left any; a process that crashes before that leaves none |
| `SharedStoreProofs.CallFailsIffAStatementFailed` | ansible/roles/openclaw/files/shared-state-mcp/server.mjs:129-158 | A set that ends reports a failure if and only if one of its own SQL statements failed while it ran |
| `SharedStoreProofs.CrashLeavesNothing` | ansible/roles/openclaw/files/shared-state-mcp/server.mjs:129-158 | A crash discards what its process had not committed and gives up its lock, and changes nothing else |
| `SharedStoreProofs.LockIsHeldByABusyProcess` | ansible/roles/openclaw/files/shared-state-mcp/server.mjs:129 | In every run the write lock is held only by a process that is busy with a call |
| `SharedStoreProofs.ReadLeavesOneEntry` | ansible/roles/openclaw/files/hermes-mcp-bridge/server.mjs:103-113 | A get leaves its one entry, and its memory with the client, if its name is accepted and its statement succeeds, and nothing otherwise |
| `SharedStoreProofs.RefusedSubmitChangesNothing` | ansible/roles/openclaw/files/shared-state-mcp/server.mjs:119-127 | A set that is refused before BEGIN IMMEDIATE changes nothing at all |
| `SharedStoreProofs.SetSucceedsIffExpectedIsCurrent` | ansible/roles/openclaw/files/shared-state-mcp/server.mjs:129-150 | In every run a set without a failing statement is stored iff its expected revision is the current one at that point of the history; otherwise the conflict reports the current one |
| `SharedStoreProofs.FailureNeedsAFailingStatement` | ansible/roles/openclaw/files/shared-state-mcp/server.mjs:129-158 | While every SQL statement succeeds, every completed set is stored or a conflict, never an error |
| `SharedStoreProofs.RevisionCountsCommits` | ansible/roles/openclaw/files/shared-state-mcp/server.mjs:138-148 | A group's revision is the number of its committed writes and its content is the last of them; it exists iff there was one |
| `SharedStoreProofs.ReadReturnsItsVersion` | ansible/roles/openclaw/files/hermes-mcp-bridge/server.mjs:103-113 | What a get reported at revision r is the r-th committed content, whatever was committed since (texts are assumed to come back from SQLite as they were given) |
| `SharedStoreProofs.SameRevisionSameContent` | ansible/roles/openclaw/files/hermes-mcp-bridge/server.mjs:103-113 | No ABA: two gets of a group at the same revision, by either program, report the same content |
| `SharedStoreProofs.GroupsAreKept` | ansible/roles/openclaw/files/shared-state-mcp/server.mjs:119-159 | Over any continuation of a run groups never disappear and revisions never fall |
| `SharedStoreProofs.NoLostUpdate` | ansible/roles/openclaw/files/shared-state-mcp/server.mjs:107-159 | If every write of a group comes from a client that sets its transform of what it last read at the revision it read, the content is the fold of all stored transforms in commit order and the revision their number |
| `SharedStoreServer.Database.constructor` | ansible/roles/openclaw/files/shared-state-mcp/server.mjs:71-83 | A connection sees the committed table of its file, empty or not, with no open transaction |
| `SharedStoreServer.Database.ReadGroup` | ansible/roles/openclaw/files/shared-state-mcp/server.mjs:107-117 | A get reports content and revision of the atomic map under the normalised key and changes nothing; it is refused exactly when the key is, for the same reason, and fails exactly when its statement does |
| `SharedStoreServer.Database.WriteGroup` | ansible/roles/openclaw/files/shared-state-mcp/server.mjs:119-159 | Whichever statement fails, no transaction stays open and the whole table is either unchanged or the atomic map after exactly this set; a conflict is reported only when the expected revision is not the current one, and an error exactly when a statement on the call's way failed |
| `ToolPolicy.MeetIsGreatestLowerBound` | ansible/roles/openclaw/files/codex-apps-patch/dist/thread-lifecycle-run-BZgVbiLr.mjs:93-97 | `intersectToolApprovalMode` is the greatest lower bound of the order with `prompt` below and `approve` above the incomparable `auto` and `writes` |
| `ToolPolicy.CeilingMonotoneExceptDenyAsk` | ansible/roles/openclaw/files/codex-apps-patch/extensions/codex/src/app-server/scheduled-app-authority.ts:494-513 | A stricter destructive mode has a ceiling at most as high, except for the one pair `deny` and `ask` |
| `ToolPolicy.CeilingIs` | ansible/roles/openclaw/files/codex-apps-patch/extensions/codex/src/app-server/scheduled-app-authority.ts:508-513 | Exactly `allow` has the ceiling `approve`, `ask` has `prompt`, and `deny` and `auto` have `auto` |
| `ToolPolicy.SettingsByNameThenTitle` | ansible/roles/openclaw/files/codex-apps-patch/dist/thread-lifecycle-run-BZgVbiLr.mjs:70 | A tool's settings are those under its name, else those under its title |
| `ToolPolicy.ToolModeDecides` | ansible/roles/openclaw/files/codex-apps-patch/dist/thread-lifecycle-run-BZgVbiLr.mjs:71-72 | A mode set for the tool itself decides, whatever else is configured |
| `ToolPolicy.LinksAdjustTheBase` | ansible/roles/openclaw/files/codex-apps-patch/dist/thread-lifecycle-run-BZgVbiLr.mjs:72-80 | Else the mode of the app, the default mode or the fallback, in that order, is replaced by that of the tool's own link, or lowered to the greatest mode under those of all links if it needs an explicit one |
| `ToolPolicy.DisabledAppDisables` | ansible/roles/openclaw/files/codex-apps-patch/dist/thread-lifecycle-run-BZgVbiLr.mjs:83 | A disabled app, or a default that disables apps without an entry, disables the tool |
| `ToolPolicy.EnabledByPrecedence` | ansible/roles/openclaw/files/codex-apps-patch/dist/thread-lifecycle-run-BZgVbiLr.mjs:83-86 | In an enabled app the tool's own switch decides, else the app's, else whether the tool declares itself free of what the app's flags, or the default ones, rule out |
| `ToolPolicy.EnabledByDefault` | ansible/roles/openclaw/files/codex-apps-patch/dist/thread-lifecycle-run-BZgVbiLr.mjs:83-86 | The same for an app without an entry |
| `ToolPolicy.StaysUnderCeilingIff` | ansible/roles/openclaw/files/codex-apps-patch/dist/thread-lifecycle-run-BZgVbiLr.mjs:65-89 | A tool stays under the ceiling it is read with if and only if no mode that applies to it is configured or the configured one is under it |
| `ToolPolicy.ConfiguredModeCanExceedCeiling` | ansible/roles/openclaw/files/codex-apps-patch/dist/thread-lifecycle-run-BZgVbiLr.mjs:65-89 | A configured mode ignores the ceiling: an app set to `approve` exceeds the ceiling `prompt` |
| `AppInventory.ReadToolsByApp` | ansible/roles/openclaw/files/codex-apps-patch/extensions/codex/src/app-server/scheduled-app-authority.ts:224-287 | At most 100 requests are sent, each with the cursor of the page before it and no cursor twice; an inventory is returned only after the last page and holds exactly what `HoldsExactly` says of all pages; each error has exactly its cause, and the page limit is reported only for a cursor that is new |
| `AppInventory.InventoryHoldsExactly` | ansible/roles/openclaw/files/codex-apps-patch/extensions/codex/src/app-server/scheduled-app-authority.ts:241-268 | After any number of pages a tool is listed for an app if and only if some status of the apps server on some of these pages lists it with that connector, with the metadata of the last such place in page, status and tool order; no app is without a tool |
| `AppInventory.PageErrorIff` | ansible/roles/openclaw/files/codex-apps-patch/extensions/codex/src/app-server/scheduled-app-authority.ts:238-276 | A reply throws nothing exactly if it is a page of well-formed statuses whose cursor is absent or a text, and otherwise the first error that is due |
| `AppInventory.AddPage` | ansible/roles/openclaw/files/codex-apps-patch/extensions/codex/src/app-server/scheduled-app-authority.ts:241-269 | A page is added whole, tool by tool to what is there, iff every status in it is well formed |
| `AppInventory.AddedIsLastWrite` | ansible/roles/openclaw/files/codex-apps-patch/extensions/codex/src/app-server/scheduled-app-authority.ts:248-268 | A tool that is listed has the metadata of its last listing, and any other what it had |
| `AppInventory.TrailMeans` | ansible/roles/openclaw/files/codex-apps-patch/extensions/codex/src/app-server/scheduled-app-authority.ts:229-286 | The cursors of the requests sent are pairwise distinct and each follows from a page that was read without error |
| `AppInventory.CursorsFollow` | ansible/roles/openclaw/files/codex-apps-patch/extensions/codex/src/app-server/scheduled-app-authority.ts:231-284 | The first request has no cursor and each later one the non-empty one its page gave |
| `ScheduledAuthority.ParseApps` | ansible/roles/openclaw/files/codex-apps-patch/extensions/codex/src/app-server/scheduled-app-authority.ts:184-215 | The loop with its set of seen ids computes the specification of the parsed apps, including every rejection |
| `ScheduledAuthority.ParseAuthority` | ansible/roles/openclaw/files/codex-apps-patch/extensions/codex/src/app-server/scheduled-app-authority.ts:145-217 | The whole parse as the program runs it agrees with its specification: no authority of this runtime, one, or which error |
| `ScheduledAuthority.ParsedAppsMeans` | ansible/roles/openclaw/files/codex-apps-patch/extensions/codex/src/app-server/scheduled-app-authority.ts:184-215 | Apps come out in order, one for each raw app, if and only if each is valid by itself and no trimmed id comes twice |
| `ScheduledAuthorityParse.ParseIff` | ansible/roles/openclaw/files/codex-apps-patch/extensions/codex/src/app-server/scheduled-app-authority.ts:145-217 | A stored value parses to an authority if and only if its header is right and its payload is that authority: version, auth, and each app with a non-blank id not seen before, two booleans, one of four destructive names, and a table of non-blank tool names that each hold one of four modes, the last field of a name winning |
| `ScheduledAuthorityParse.RejectedIff` | ansible/roles/openclaw/files/codex-apps-patch/extensions/codex/src/app-server/scheduled-app-authority.ts:148-183 | Otherwise the answer is exactly the one due: not of this runtime, unsupported version, unsupported namespace, or invalid if no payload fits |
| `ScheduledAuthorityParse.ToolsIff` | ansible/roles/openclaw/files/codex-apps-patch/extensions/codex/src/app-server/scheduled-app-authority.ts:200-206 | The tools of an app parse to a table if and only if each field has a non-blank name and a known mode, and the table has these names with the mode of the last field of each |
| `ScheduledAuthorityParse.AppIff` | ansible/roles/openclaw/files/codex-apps-patch/extensions/codex/src/app-server/scheduled-app-authority.ts:184-215 | One raw app parses to an app if and only if its fields hold what they must and are those of that app |
| `ScheduledAuthorityParse.AuthIff` | ansible/roles/openclaw/files/codex-apps-patch/extensions/codex/src/app-server/scheduled-app-authority.ts:156-180 | The auth parses to a prepared profile or to a configured server exactly if its fields name one |
| `ScheduledAuthorityParse.BadToolIsInvalid` | ansible/roles/openclaw/files/codex-apps-patch/extensions/codex/src/app-server/scheduled-app-authority.ts:200-205 | One tool with a blank name or an unknown mode makes the whole authority invalid |
| `ScheduledAuthorityProofs.ParseIsClean` | ansible/roles/openclaw/files/codex-apps-patch/extensions/codex/src/app-server/scheduled-app-authority.ts:145-217 | Whatever authority parses, all its ids, names and fingerprints are trimmed and non-empty and no app comes twice |
| `ScheduledAuthorityProofs.RoundTripIffClean` | ansible/roles/openclaw/files/codex-apps-patch/extensions/codex/src/app-server/scheduled-app-authority.ts:145-217 | Serialising a payload and parsing it gives the payload back if and only if its ids and names are trimmed and non-empty, in whatever order the tools are listed |
| `ScheduledAuthority.CaptureIsExact` | ansible/roles/openclaw/files/codex-apps-patch/extensions/codex/src/app-server/scheduled-app-authority.ts:426-455 | A capture holds, once each, exactly the apps that are in the thread's policy, callable, and in the inventory, and fails exactly when there is none; it records the policy's flags with their defaults, the destructive mode or the one the flag implies, and each of today's tools with the mode it reads today under that ceiling |
| `ScheduledAuthority.Intersect` | ansible/roles/openclaw/files/codex-apps-patch/extensions/codex/src/app-server/scheduled-app-authority.ts:526-624 | The intersection fails exactly when a stored app is missing from the policy or has no tools today, naming all such apps; otherwise it narrows exactly the stored apps |
| `ScheduledAuthority.OmittedAre` | ansible/roles/openclaw/files/codex-apps-patch/extensions/codex/src/app-server/scheduled-app-authority.ts:529-538 | The ids reported missing are those of exactly the stored apps that today's policy does not list or that have no tool today |
| `ScheduledAuthority.JobAllowsIff` | ansible/roles/openclaw/files/codex-apps-patch/extensions/codex/src/app-server/scheduled-app-authority.ts:609-615 | Without a list or with a wildcard in it a job allows every tool, else exactly those listed by name or by canonical name |
| `ScheduledAuthority.IntersectStored` | ansible/roles/openclaw/files/codex-apps-patch/extensions/codex/src/app-server/scheduled-app-authority.ts:516-639 | What a job's stored authority does: refused exactly with the parse error, unrestricted exactly when it is not of this runtime, otherwise unavailable with exactly the missing apps or admitted and narrowed |
| `ScheduledAuthorityProofs.IntersectionNarrows` | ansible/roles/openclaw/files/codex-apps-patch/extensions/codex/src/app-server/scheduled-app-authority.ts:545-624 | Exactly the stored apps are admitted with exactly today's tools; each flag is the conjunction and the destructive mode the stricter one of stored and today's; each tool mode is the greatest one under captured mode, stored ceiling, and the current mode and ceiling read under that narrowed entry; a tool is enabled iff today's own entry enables it, the job's list names it, and both the stored and today's flags cover what it may do |
| `ScheduledAuthorityProofs.TodaysCeilingIsKeptIff` | ansible/roles/openclaw/files/codex-apps-patch/extensions/codex/src/app-server/scheduled-app-authority.ts:508-607 | A tool's mode stays under the ceiling of today's own entry if and only if it is not the case that today says `ask`, the stored authority says `deny`, and captured and current mode admit `auto` |
| `ScheduledAuthorityProofs.TodaysModeIsKeptIff` | ansible/roles/openclaw/files/codex-apps-patch/extensions/codex/src/app-server/scheduled-app-authority.ts:584-607 | It stays under the mode that today's own entry reads if and only if that is not the case or that mode is not `prompt` |
| `ScheduledAuthorityProofs.ResultExceedsTodayIff` | ansible/roles/openclaw/files/codex-apps-patch/extensions/codex/src/app-server/scheduled-app-authority.ts:545-624 | Over a whole intersection, for any authority and policy: a tool exceeds today's own ceiling exactly in that case |
| `ScheduledAuthorityProofs.StoredDenyLiftsTodaysAsk` | ansible/roles/openclaw/files/codex-apps-patch/extensions/codex/src/app-server/scheduled-app-authority.ts:508-513 | A tool that reads `prompt` today and is enabled with `auto` after the intersection with an authority that says `deny` |
| `ScheduledAuthorityProofs.TighterInputsEnableLess` | ansible/roles/openclaw/files/codex-apps-patch/extensions/codex/src/app-server/scheduled-app-authority.ts:596-602 | Enabling is monotone: taking away flags, today or in the stored authority, or names from the job's list, enables no further tool |
| `ScheduledAuthorityProofs.IntersectionIsIdempotent` | ansible/roles/openclaw/files/codex-apps-patch/extensions/codex/src/app-server/scheduled-app-authority.ts:545-624 | Intersecting the narrowed policy with the same authority again changes no entry and no tool |
| `ScheduledAuthorityProofs.NarrowedStaysAvailable` | ansible/roles/openclaw/files/codex-apps-patch/extensions/codex/src/app-server/scheduled-app-authority.ts:529-544 | The second intersection cannot fail where the first did not |
| `ScheduledAuthorityProofs.UnchangedPolicyKeepsPermissions` | ansible/roles/openclaw/files/codex-apps-patch/extensions/codex/src/app-server/scheduled-app-authority.ts:429-624 | Capture then intersection with the same policy and inventory gives the captured apps, their flags, and every tool its captured mode lowered to the ceiling of its app |
| `ScheduledAuthorityProofs.UnchangedPolicyIsIdentityIffUnderCeilings` | ansible/roles/openclaw/files/codex-apps-patch/extensions/codex/src/app-server/scheduled-app-authority.ts:429-624 | So all modes come back as captured if and only if none exceeded its ceiling when it was captured |
| `ScheduledAuthorityProofs.CaptureSurvivesStorage` | ansible/roles/openclaw/files/codex-apps-patch/extensions/codex/src/app-server/scheduled-app-authority.ts:145-624 | The whole way: a capture over an inventory read from any replies, serialised, parses to itself, is not refused for a missing app, and comes out of the intersection with the same policy with the same apps, flags, tools and modes, for clean names and modes under their ceilings |
| `ScheduledAuthorityProofs.UnchangedPolicyOmitsNothing` | ansible/roles/openclaw/files/codex-apps-patch/extensions/codex/src/app-server/scheduled-app-authority.ts:529-544 | With the same policy and the same inventory, read from any replies, no captured app is reported missing |
| `ScheduledAuthorityProofs.CapturedModeIsLoweredAtRunTime` | ansible/roles/openclaw/files/codex-apps-patch/extensions/codex/src/app-server/scheduled-app-authority.ts:435-447 | A capture that records `approve` for a tool of an app with destructive mode `ask` and grants only `prompt` at run time |
| `ImageUpdate.WaitHealthy` | ansible/roles/hermes/files/image-update.sh:25-35 | Success iff one of the 60 polls that fit the timeout passes, at the first that does |
| `ImageUpdate.Host.Update` | ansible/roles/hermes/files/image-update.sh:8-94 | One run of the script takes the whole host to the specified next state for every combination of command outcomes; exit code 0 if and only if it was locked out, pulled nothing new, or the new image passed, was recorded and old images were pruned |
| `ImageUpdate.BuildStartsIff` | ansible/roles/hermes/files/image-update.sh:39-66 | A build is started if and only if the lock, the pull and the look at the image succeed, the image is not the recorded one nor, without a record, the one there was, and the running image can be tagged; a start needs a build |
| `ImageUpdate.HealthyReleaseStays` | ansible/roles/hermes/files/image-update.sh:60-78 | A release that passes stays, with tag and container on it and the image before it kept for roll-back |
| `ImageUpdate.UnhealthyReleaseIsRolledBack` | ansible/roles/hermes/files/image-update.sh:80-94 | A release that fails is recorded and rolled back to the image before it, which is started and checked again |
| `ImageUpdate.FirstImageStays` | ansible/roles/hermes/files/image-update.sh:82-85 | With no image before it a failing release stays, whatever the roll-back tag still names |
| `ImageUpdate.NightKeepsLastKnownGoodIff` | ansible/roles/hermes/files/image-update.sh:60-94 | A night that starts with tag and container on an image that passed its check, and builds an image not checked before, ends so if and only if none of the commands `set -e` can stop at left it stranded |
| `ImageUpdate.NightEndsOnOneOfTwo` | ansible/roles/hermes/files/image-update.sh:60-94 | A night that is not stranded ends on the image held at its start or on this night's image after its check |
| `ImageUpdate.LastKnownGoodOverAllNights` | ansible/roles/hermes/files/image-update.sh:60-94 | Over any number of nights of which none is stranded, tag and container stay on one image that passed a check, whatever pulls, builds and health checks do |
| `ImageUpdate.LastKnownGoodEveryNightIff` | ansible/roles/hermes/files/image-update.sh:60-94 | And exactly so: with a new image each night, the host is on its last known good after every night if and only if no night is stranded |
| `ImageUpdate.CommandsSucceedStrandNobody` | ansible/roles/hermes/files/image-update.sh:70-88 | Nights on which every command after the build succeeds are never stranded, whatever build and health do |
| `ImageUpdate.FailingUpBreaksLastKnownGood` | ansible/roles/hermes/files/image-update.sh:70 | A night with a failing first `up` that leaves the tag on an unchecked image |
| `ImageUpdate.NightLosesGoodTagIff` | ansible/roles/hermes/files/image-update.sh:60-94 | If some tag names a checked image and the night builds one not checked before, some tag still does afterwards unless, and only unless, the night finds the derived tag on an unchecked image, tags that for roll-back, and no image it starts passes |
| `ImageUpdate.OneNightKeepsAGoodTag` | ansible/roles/hermes/files/image-update.sh:60-63 | While the derived tag is on a checked image no single night loses it, whatever fails and whatever it builds |
| `ImageUpdate.GoodTagEveryNightIff` | ansible/roles/hermes/files/image-update.sh:60-94 | Over all nights some tag names a checked image after every night if and only if no night is one of those |
| `ImageUpdate.FirstStrandedNightKeepsAGoodTag` | ansible/roles/hermes/files/image-update.sh:60-94 | From a last known good the first stranded night leaves some tag on a checked image; only a later night can lose it |
| `ImageUpdate.GoodTagCanBeLost` | ansible/roles/hermes/files/image-update.sh:60-69 | Two nights, the first with a failing `up`, the second with a failing build, after which no tag names a checked image |
| `ImageUpdate.HandledReleaseIsSkipped` | ansible/roles/hermes/files/image-update.sh:54-58 | While upstream stays on the recorded release, no number of nights builds, starts or changes anything |
| `ImageUpdate.StartedReleaseIsNotBuiltAgain` | ansible/roles/hermes/files/image-update.sh:54-81 | Over all nights: a release whose container was started and could be recorded is not even built again, healthy or not, until the container of another release has been started |
| `ImageUpdate.StartedReleaseIsRecorded` | ansible/roles/hermes/files/image-update.sh:72-81 | For every night: the state file is written exactly when the container was started and the directory and the file can be written, healthy or not, and then with this release |
| `ImageUpdate.FailedBuildsChangeNothing` | ansible/roles/hermes/files/image-update.sh:47-69 | However many nights' builds fail, state file, container and derived tag stay as they were and nothing is started |
| `ImageUpdate.ReleaseIsTakenUpAgainIff` | ansible/roles/hermes/files/image-update.sh:47-81 | A release that a night took up is taken up again the next night if and only if the state file existed and the night did not write it |
| `ImageUpdate.FailedBuildIsRetriedIffFileExists` | ansible/roles/hermes/files/image-update.sh:47-69 | The next night with the same release starts the build again after a failed one if and only if the state file existed and the running image, if any, can be tagged |
| `ImageUpdate.UnrecordedFirstRunIsFinal` | ansible/roles/hermes/files/image-update.sh:47-58 | On a first-ever run a release whose night ends without writing the file is not taken up again on any later night until upstream publishes another, whatever failed |
| `ImageUpdate.FirstFailureIsNeverRetried` | ansible/roles/hermes/files/image-update.sh:47-70 | So after a failed build, and after a failed first `up`, which leaves the derived tag on an image that no later night checks |
| `CreatorTools.Flatten` | ansible/roles/openclaw/files/codex-apps-patch/extensions/codex/src/app-server/run-attempt-tool-setup.ts:658-700 | The nested loops fill the insertion-ordered set with exactly the captured paths |
| `CreatorTools.CapturedPathsAre` | ansible/roles/openclaw/files/codex-apps-patch/extensions/codex/src/app-server/run-attempt-tool-setup.ts:658-700 | A path is in the set, once, iff it is valid and some app captured it undenied, as a dotted name or as a method of a table |
| `CreatorTools.ValidPathIff` | ansible/roles/openclaw/files/codex-apps-patch/extensions/codex/src/app-server/run-attempt-tool-setup.ts:671-679 | A path is valid if and only if it has a dot, none at either end, no two side by side, and neither white space nor a star |
| `CreatorTools.DeniedIff` | ansible/roles/openclaw/files/codex-apps-patch/extensions/codex/src/app-server/run-attempt-tool-setup.ts:665-670 | A mode denies if it is `deny`, a table if its `mode` is, and nothing else does |
| `CreatorTools.StripPrefixIs` | ansible/roles/openclaw/files/codex-apps-patch/extensions/codex/src/app-server/run-attempt-tool-setup.ts:683-685 | The canonical prefix is taken off where it stands, and no other name is changed |
| `CreatorTools.CapturedPathsGrow` | ansible/roles/openclaw/files/codex-apps-patch/extensions/codex/src/app-server/run-attempt-tool-setup.ts:658-700 | Paths stand in the order of their first capture: a further app only adds behind |
| `CreatorTools.PlainModeAdds` | ansible/roles/openclaw/files/codex-apps-patch/extensions/codex/src/app-server/run-attempt-tool-setup.ts:671-698 | A tool with a plain mode adds to any authority exactly its stripped name, if it is not denied and that name is a valid path, and nothing else |
| `CreatorTools.PlainModeContributesIff` | ansible/roles/openclaw/files/codex-apps-patch/extensions/codex/src/app-server/run-attempt-tool-setup.ts:671-698 | A tool captured undenied with a plain mode contributes a path if and only if its stripped name is a valid path; in particular it needs a dot |
| `CreatorTools.PlainAuthorityAddsNothingIff` | ansible/roles/openclaw/files/codex-apps-patch/extensions/codex/src/app-server/run-attempt-tool-setup.ts:658-700 | An authority of plain modes contributes no path if and only if none of its undenied tools has a valid path for a stripped name |
| `CreatorTools.FlatUndottedAuthorityAddsNothing` | ansible/roles/openclaw/files/codex-apps-patch/extensions/codex/src/app-server/run-attempt-tool-setup.ts:658-700 | Any authority of plain modes under undotted names contributes no path at all |
| `CreatorTools.UndottedToolIsMissing` | ansible/roles/openclaw/files/codex-apps-patch/extensions/codex/src/app-server/run-attempt-tool-setup.ts:686-698 | One such tool, `send` captured as `auto`, that is not on the surface |
| `CreatorTools.StarredToolIsMissing` | ansible/roles/openclaw/files/codex-apps-patch/extensions/codex/src/app-server/run-attempt-tool-setup.ts:671-679 | Another, `mail.*` captured as `auto`, whose name has a dot but is no valid path |
| `CreatorTools.MergePath` | ansible/roles/openclaw/files/codex-apps-patch/extensions/codex/src/app-server/run-attempt-tool-setup.ts:701-717 | One turn of the merge pushes the record of a missing name, or else gives the first entry of that name its alias, and changes nothing else |
| `CreatorTools.WithAliasIs` | ansible/roles/openclaw/files/codex-apps-patch/extensions/codex/src/app-server/run-attempt-tool-setup.ts:711-716 | An entry that gains its alias keeps its name, its plugin and any alias it has |
| `CreatorTools.AliasIs` | ansible/roles/openclaw/files/codex-apps-patch/extensions/codex/src/app-server/run-attempt-tool-setup.ts:702-703 | The alias is the fixed prefix and the path with an underscore for each dot and no other change |
| `CreatorTools.Merge` | ansible/roles/openclaw/files/codex-apps-patch/extensions/codex/src/app-server/run-attempt-tool-setup.ts:701-717 | The loop makes one turn after the other |
| `CreatorTools.MergeAllMeans` | ansible/roles/openclaw/files/codex-apps-patch/extensions/codex/src/app-server/run-attempt-tool-setup.ts:701-717 | After any number of turns all old entries are in place, changed only by gaining their own alias; each path is present; unique names stay unique; and behind them stand exactly the records of the missing paths, in order |
| `CreatorTools.FilterIsEntrywise` | ansible/roles/openclaw/files/codex-apps-patch/extensions/codex/src/app-server/run-attempt-tool-setup.ts:724-737 | The filter keeps or drops each entry by itself and keeps the order |
| `CreatorTools.KeepEntryIff` | ansible/roles/openclaw/files/codex-apps-patch/extensions/codex/src/app-server/run-attempt-tool-setup.ts:725-736 | An entry passes if and only if its name has neither prefix, or its name or alias is the canonical name or alias of a captured path |
| `CreatorTools.CreatorSurface` | ansible/roles/openclaw/files/codex-apps-patch/extensions/codex/src/app-server/run-attempt-tool-setup.ts:658-737 | Other tools stay, in order; every valid undenied captured path is there under its canonical name with an alias; a Codex entry stays if and only if its name or alias was captured; nothing else is added; unique names stay unique; and the list ends with the records of the paths that were missing, in order of capture |
| `CreatorTools.RunTimeAllowTest` | ansible/roles/openclaw/files/codex-apps-patch/extensions/codex/src/app-server/scheduled-app-authority.ts:609-615 | With a job that allows the canonical names of chosen paths, exactly the tools whose bare or canonical name was chosen pass the run-time test |
| `CreatorTools.CanonicalNamesSurviveIff` | ansible/roles/openclaw/files/codex-apps-patch/extensions/codex/src/app-server/run-attempt-tool-setup.ts:683-703 | These are the tools whose prefix-stripped name was chosen, for every tool name, if and only if no chosen path starts with the prefix without its stripped form being chosen |
| `CreatorTools.AliasStaysIff` | ansible/roles/openclaw/files/codex-apps-patch/extensions/codex/src/app-server/run-attempt-tool-setup.ts:718-737 | A bare alias stays on the surface if and only if some captured path equals its own up to dots and underscores |
| `CreatorTools.AliasesCanCollide` | ansible/roles/openclaw/files/codex-apps-patch/extensions/codex/src/app-server/run-attempt-tool-setup.ts:718-737 | Two different paths that share an alias, so that the entry of one stays on account of the other |
| `CreatorMemo.CallIs` | ansible/roles/openclaw/files/codex-apps-patch/extensions/codex/src/app-server/run-attempt-tool-setup.ts:240-262 | In every run a call throws at once, changing nothing, if and only if the resolver is not set up or its own signal has aborted; any other gets the memo, starting a resolution under its own signal if there is none |
| `CreatorMemo.OneInFlight` | ansible/roles/openclaw/files/codex-apps-patch/extensions/codex/src/app-server/run-attempt-tool-setup.ts:240-262 | In every run at most one resolution is in flight, and a call made meanwhile starts none |
| `CreatorMemo.ClearedOnlyByOwnAbort` | ansible/roles/openclaw/files/codex-apps-patch/extensions/codex/src/app-server/run-attempt-tool-setup.ts:250-260 | The memo is cleared by exactly one event: the handler of the current resolution when its failure is the abort reason of the call that started it |
| `CreatorMemo.HandlerFindsItselfCurrent` | ansible/roles/openclaw/files/codex-apps-patch/extensions/codex/src/app-server/run-attempt-tool-setup.ts:254 | The handler's identity test never fails in any run |
| `CreatorMemo.OutcomeIsShared` | ansible/roles/openclaw/files/codex-apps-patch/extensions/codex/src/app-server/run-attempt-tool-setup.ts:245-260 | From the moment the current resolution succeeds or fails with anything but its own caller's abort, over any continuation and also before its handler has run, every call gets it or throws at once, and none is ever started again |
| `CreatorMemo.AbortDoesNotPoison` | ansible/roles/openclaw/files/codex-apps-patch/extensions/codex/src/app-server/run-attempt-tool-setup.ts:248-262 | Once the memo is cleared, over any continuation no call shares a resolution started before, and none of those is still open |
| `CreatorMemo.ForeignAbortIff` | ansible/roles/openclaw/files/codex-apps-patch/extensions/codex/src/app-server/run-attempt-tool-setup.ts:245-260 | In any run a call with a live signal fails with the abort of another if and only if it found a memo and the resolution it joined ends in its starter's abort |
| `CreatorMemo.SafeFromForeignAbortIff` | ansible/roles/openclaw/files/codex-apps-patch/extensions/codex/src/app-server/run-attempt-tool-setup.ts:245-260 | A call is safe from that in every continuation if and only if, when it is made, its signal has aborted or the memo is empty, fulfilled, its own signal's, unsignalled, or failed with an error its starter cannot abort with any more |
| `CreatorMemo.JoinedCallerSharesTheAbort` | ansible/roles/openclaw/files/codex-apps-patch/extensions/codex/src/app-server/run-attempt-tool-setup.ts:245-247 | A reachable run in which a call with a live signal fails with the abort of the call it joined |
| `DiscoveryDeadline.BudgetIsClampedQuarter` | ansible/roles/openclaw/files/codex-apps-patch/extensions/codex/src/app-server/plugin-thread-config-deadline.ts:250-262 | The budget is in [100, 60000] ms for every input, infinities and NaN included, and between the clamps it is the floor of a quarter of the request timeout |
| `DiscoveryDeadline.EveryRequestEndsByTheDeadline` | ansible/roles/openclaw/files/codex-apps-patch/extensions/codex/src/app-server/plugin-thread-config-deadline.ts:107-120 | Every request of every run is allowed exactly the positive time left to the one deadline |
| `DiscoveryDeadline.NothingIsSentAfterATimeout` | ansible/roles/openclaw/files/codex-apps-patch/extensions/codex/src/app-server/plugin-thread-config-deadline.ts:113-127 | After a request has timed out no later call is sent, in any continuation |
| `DiscoveryDeadline.ReturnedMeansNoTimeout` | ansible/roles/openclaw/files/codex-apps-patch/extensions/codex/src/app-server/plugin-thread-config-deadline.ts:133-143 | A configuration is returned if and only if no request of the run timed out, swallowed or not, and the deadline has not passed |
| `DiscoveryDeadline.SentIff` | ansible/roles/openclaw/files/codex-apps-patch/extensions/codex/src/app-server/plugin-thread-config-deadline.ts:114-120 | In every run a request is sent if and only if none has timed out and time is left, and is given exactly that time |
| `DiscoveryDeadline.EndingIs` | ansible/roles/openclaw/files/codex-apps-patch/extensions/codex/src/app-server/plugin-thread-config-deadline.ts:128-166 | How a turn ends in every run: with its configuration if returned in time; with the error itself if aborted, even after a timeout; as late turns do if there is a timeout to show; else with the error itself |
| `DiscoveryDeadline.ResultIsFinal` | ansible/roles/openclaw/files/codex-apps-patch/extensions/codex/src/app-server/plugin-thread-config-deadline.ts:128-166 | A turn ends once |
| `DiscoveryDeadline.TimeoutIsNeverHidden` | ansible/roles/openclaw/files/codex-apps-patch/extensions/codex/src/app-server/plugin-thread-config-deadline.ts:133-166 | Once a request has timed out, swallowed or not, or the deadline has passed, a turn that is not aborted can end only by failing closed or falling back as configured, whatever happens after |
| `DiscoveryDeadline.NoFallbackWithoutATimeout` | ansible/roles/openclaw/files/codex-apps-patch/extensions/codex/src/app-server/plugin-thread-config-deadline.ts:147-166 | A run within its budget in which nothing timed out ends neither by fallback nor by failing closed |
| `Watchdog.Loop.constructor` | ansible/roles/hermes/files/exit-node-watchdog.sh:22-23 | The route is unknown at first, with no failures and no command issued |
| `Watchdog.Loop.Probe` | ansible/roles/hermes/files/exit-node-watchdog.sh:25-51 | One turn of the loop takes the variables and the issued commands to the specified next state |
| `Watchdog.CounterSeesTwoLosses` | ansible/roles/hermes/files/exit-node-watchdog.sh:25-30 | In every run the counter reaches the threshold iff the last two probes were lost, and is zero iff the last was answered |
| `Watchdog.RouteIsClosedForm` | ansible/roles/hermes/files/exit-node-watchdog.sh:24-53 | While switches succeed, the route after a probe is the exit node iff that probe or the one before it was answered |
| `Watchdog.SwitchesOnlyWhenTheClosedFormChanges` | ansible/roles/hermes/files/exit-node-watchdog.sh:37-51 | While switches succeed, a command is issued at the first probe and after that iff the closed form changes |
| `Watchdog.IsolatedLossNeverSwitches` | ansible/roles/hermes/files/exit-node-watchdog.sh:28-35 | With any failures of the switch commands, a probe lost right after an answered one issues no command and keeps a known route |
| `Watchdog.RecordedRouteIsApplied` | ansible/roles/hermes/files/exit-node-watchdog.sh:37-51 | Whatever commands fail, the recorded route is the route of the last successful command in the log of issued commands |
| `Watchdog.NetworkIsOnTheRouteCalledFor` | ansible/roles/hermes/files/exit-node-watchdog.sh:24-53 | With any failures, the route last applied is the one the probes alone call for, defined without counter or commands: exit node on an answer, direct on two losses or a first loss, no change otherwise |
| `Notifications.SortSorts` | ansible/roles/openclaw/files/hermes-mcp-bridge/server.mjs:229-231 | The sort is newest first and a permutation of its input |
| `Notifications.SortIsStable` | ansible/roles/openclaw/files/hermes-mcp-bridge/server.mjs:231 | It is stable: notifications posted at the same time keep their order |
| `Notifications.RecentKeepsOrder` | ansible/roles/openclaw/files/hermes-mcp-bridge/server.mjs:229-232 | Among the recent items those of one time stand as the phone sent them, with what the cut drops behind them |
| `Notifications.RecentIsTheNewestOfTheWindow` | ansible/roles/openclaw/files/hermes-mcp-bridge/server.mjs:229-232 | For any reply the answer is newest first and at most fifty, and together with what is cut off, none of which is newer, it is a permutation of the window |
| `Notifications.CompleteIff` | ansible/roles/openclaw/files/hermes-mcp-bridge/server.mjs:226-263 | An answer is complete if and only if the phone is connected, the reply holds as many items as it counts or is newest first and reaches the cutoff, and at most fifty of its items are recent |
| `Notifications.CompleteIsSound` | ansible/roles/openclaw/files/hermes-mcp-bridge/server.mjs:226-263 | If the reply is a newest-first prefix of the phone's list and the count its length, a complete answer is a permutation of the window and has every notification strictly newer than the cutoff, as often as the phone |
| `Notifications.CompleteAtTheCutoffIff` | ansible/roles/openclaw/files/hermes-mcp-bridge/server.mjs:227-263 | A complete answer is guaranteed, whatever the phone's list behind the reply, to have all items from the cutoff on if and only if the count matches or some item of the reply is strictly older than the cutoff |
| `Notifications.CompleteCanMissTheCutoff` | ansible/roles/openclaw/files/hermes-mcp-bridge/server.mjs:227-263 | A reply that is reported complete and lacks an item exactly at the cutoff |

## Left out

- The startup protocol is modelled on values, as one interleaved machine; a closure is named by the attempt whose variables it holds, so nothing is said about the identity of closures beyond that.
- StartupSafety.LeaseReleasedExactlyOnce: assumes the wrapper's behaviour stated under "Assumptions".
- StartupSafety.SuccessIsFinal: a timer that fires after the caller has its result is excluded by the assumption on the wrapper, not by the code shown.
- StartupSafety.SandboxReleasedByTheEnd: the two throws are inputs of the model; which arguments make a resolver throw is not modelled.
- Closing and retiring the app-server client itself (`startupClientForAbandonedRequestCleanup`, `shouldRetireCodexStartupClient`), diagnostics, stage names and the thread parameters.
- Restarting a thread after a context overflow (`attempt-startup.ts:564-586`).
- SharedStoreProofs.NoLostUpdate: revisions above 2^53 - 1 cannot be submitted again, so a group that reached them no longer changes; SQLite's own 64-bit limit appears only as a failing statement.
- `updatedAtMs`, `groups_list`, busy timeouts, file permissions, and the HTTP, stdio and JSON-RPC layers of both servers.
- ScheduledAuthority.CaptureIsExact: the order of the captured apps is the order given for the policy's ids, which the code sorts by locale; requests, deadline and diagnostics of the capture are left out.
- ScheduledAuthority.Intersect: the loop over the policy's apps and the loop over the stored apps are one loop over the stored apps; sorting, plugin ids, fingerprints, approval overrides for `ask`, `disableUnlistedCodexApps` and the other fields of an entry are left out.
- Tool names that are also members of JavaScript's `Object.prototype`, such as `constructor`.
- AppInventory.ReadToolsByApp: a response is read as already classified (well formed or not, connector or none); the page size and the request itself are left out.
- ImageUpdate.Host.Update: log lines, the environment file's syntax and what image pruning removes are left out; a write to the state file succeeds or leaves the old contents, while a shell redirection may truncate the file first.
- CreatorTools.CreatorSurface: the input is the list of creator tools as it stands at line 658; materialising configured MCP tools and the provenance are left out, and so are the properties of an entry other than its name, plugin and alias.
- CreatorMemo.OutcomeIsShared: what a resolution computes is left out; it settles with any outcome.
- ImageUpdate.LastKnownGoodEveryNightIff: requires every night to build an image that has not passed a check before; a rebuilt image that has would be good even on a stranded night.
- ImageUpdate.GoodTagEveryNightIff: requires the same, for the same reason.
- DiscoveryDeadline.EveryRequestEndsByTheDeadline: states the allowance each request is given; that the client honours it is not modelled, and times are real numbers.
- Watchdog.RouteIsClosedForm: the name of the exit node is taken to differ from `direct` and `unknown`; the pause between probes and log lines are left out.
- Clipping of notification texts and their fingerprints; the phone's reply is taken as parsed, with finite post times.
- All Ansible tasks, templates and inventories, Terraform, nginx, PHP, cron and Docker files: configuration without an algorithm.
