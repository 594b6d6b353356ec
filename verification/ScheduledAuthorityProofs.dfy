/** Round trip, narrowing and idempotence of the stored permission set. */
module ScheduledAuthorityProofs {
  import opened Common
  import opened Strings
  import opened ToolPolicy
  import opened AppInventory
  import opened ScheduledAuthority

  // ----- serialisation -----

  function DestructiveName(m: Destructive): string {
    match m
    case Deny => "deny"
    case Ask => "ask"
    case Auto => "auto"
    case Allow => "allow"
  }

  function ToolModeName(m: ToolMode): string {
    match m
    case AutoMode => "auto"
    case Prompt => "prompt"
    case Writes => "writes"
    case Approve => "approve"
  }

  /** The keys of a map in some order; the code sorts them. */
  ghost predicate Lists(names: seq<string>, keys: set<string>) {
    && NoDuplicates(names)
    && forall x :: x in keys <==> x in names
  }

  function EncodeTools(names: seq<string>, tools: map<string, ToolMode>): seq<(string, Json)>
    requires forall i :: 0 <= i < |names| ==> names[i] in tools
  {
    seq(|names|, i requires 0 <= i < |names| => (names[i], Str(ToolModeName(tools[names[i]]))))
  }

  function AppFields(app: App, names: seq<string>): seq<(string, Json)>
    requires forall i :: 0 <= i < |names| ==> names[i] in app.tools
  {
    [("id", Str(app.id)),
     ("allowDestructiveActions", Bool(app.allowDestructive)),
     ("allowOpenWorld", Bool(app.allowOpenWorld)),
     ("destructiveApprovalMode", Str(DestructiveName(app.destructive))),
     ("tools", Obj(EncodeTools(names, app.tools)))]
  }

  function AuthFields(auth: Auth): seq<(string, Json)> {
    match auth
    case PreparedProfile(profileId, accountId) => [("profileId", Str(profileId)), ("accountId", Str(accountId))]
    case ConfiguredServer(connection, managed) =>
      [("kind", Str("configured-app-server")), ("connectionFingerprint", Str(connection)),
       ("managedRequirementsFingerprint", Str(managed))]
  }

  /** One listing of tool names for each app. */
  ghost predicate ListsAll(apps: seq<App>, listing: seq<seq<string>>) {
    |listing| == |apps| && forall i :: 0 <= i < |apps| ==> Lists(listing[i], apps[i].tools.Keys)
  }

  ghost function EncodeApps(apps: seq<App>, listing: seq<seq<string>>): seq<Json>
    requires ListsAll(apps, listing)
  {
    seq(|apps|, i requires 0 <= i < |apps| => Obj(AppFields(apps[i], listing[i])))
  }

  ghost function PayloadFields(p: Payload, listing: seq<seq<string>>): seq<(string, Json)>
    requires ListsAll(p.apps, listing)
  {
    [("version", Num(1)), ("auth", Obj(AuthFields(p.auth))), ("apps", Arr(EncodeApps(p.apps, listing)))]
  }

  /** The authority a capture returns. */
  ghost function Encode(p: Payload, listing: seq<seq<string>>): Json
    requires ListsAll(p.apps, listing)
  {
    Obj([("version", Num(1)), ("runtimeId", Str("codex")), ("namespace", Str("codex.apps")), ("payload", Obj(PayloadFields(p, listing)))])
  }

  // ----- parsing what was serialised -----

  lemma {:induction false} FieldAt(fields: seq<(string, Json)>, k: nat)
    requires k < |fields|
    requires forall j :: 0 <= j < k ==> fields[j].0 != fields[k].0
    ensures FieldOf(fields, fields[k].0) == fields[k].1
  {
    if k > 0 {
      FieldAt(fields[1..], k - 1);
    }
  }

  lemma {:induction false} FieldAbsent(fields: seq<(string, Json)>, name: string)
    requires forall j :: 0 <= j < |fields| ==> fields[j].0 != name
    ensures FieldOf(fields, name) == Undefined
  {
    if fields != [] {
      FieldAbsent(fields[1..], name);
    }
  }

  ghost predicate CleanTools(tools: map<string, ToolMode>) {
    forall name :: name in tools ==> Clean(name)
  }

  ghost predicate CleanAuth(auth: Auth) {
    match auth
    case PreparedProfile(profileId, accountId) => Clean(profileId) && Clean(accountId)
    case ConfiguredServer(connection, managed) => Clean(connection) && Clean(managed)
  }

  /** Ids and names carry no surrounding white space and are not empty. */
  ghost predicate CleanPayload(p: Payload) {
    && CleanAuth(p.auth)
    && forall i :: 0 <= i < |p.apps| ==> Clean(p.apps[i].id) && CleanTools(p.apps[i].tools)
  }

  lemma OptionalStringIsClean(j: Json)
    ensures OptionalString(j).Some? ==> Clean(OptionalString(j).value)
    ensures j.Str? ==> (OptionalString(j) == Some(j.s) <==> Clean(j.s))
  {
    if j.Str? {
      TrimKeepsTrimmed(j.s, Space);
      var i, k := TrimIsSlice(j.s, Space);
    }
  }

  lemma {:induction false} ParsedToolsAreClean(fields: seq<(string, Json)>)
    requires ParseTools(fields).Some?
    ensures CleanTools(ParseTools(fields).value)
  {
    if fields != [] {
      var last := fields[|fields| - 1];
      ParsedToolsAreClean(fields[..|fields| - 1]);
      OptionalStringIsClean(Str(last.0));
    }
  }

  lemma ParseAppIsClean(raw: Json)
    requires ParseApp(raw).Some?
    ensures Clean(ParseApp(raw).value.id) && CleanTools(ParseApp(raw).value.tools)
  {
    OptionalStringIsClean(Field(raw, "id"));
    ParsedToolsAreClean(Field(raw, "tools").fields);
  }

  /** Whatever parses is clean and names each app once. */
  lemma ParseIsClean(authority: Json)
    requires Parse(authority).Ok? && Parse(authority).value.Some?
    ensures CleanPayload(Parse(authority).value.value) && DistinctIds(Parse(authority).value.value.apps)
  {
    var payload := Field(authority, "payload");
    var auth := Field(payload, "auth");
    OptionalStringIsClean(Field(auth, "profileId"));
    OptionalStringIsClean(Field(auth, "accountId"));
    OptionalStringIsClean(Field(auth, "connectionFingerprint"));
    OptionalStringIsClean(Field(auth, "managedRequirementsFingerprint"));
    var raw := Field(payload, "apps").items;
    var apps := ParsedApps(raw).value;
    ParsedAppsMeans(raw, apps);
    forall i | 0 <= i < |apps| ensures Clean(apps[i].id) && CleanTools(apps[i].tools) {
      assert ParseApp(raw[i]) == Some(apps[i]);
      ParseAppIsClean(raw[i]);
    }
  }

  /** The modes of the first n names. */
  ghost function FirstModes(names: seq<string>, tools: map<string, ToolMode>, n: nat): map<string, ToolMode>
    requires n <= |names|
  {
    map name | name in names[..n] && name in tools :: tools[name]
  }

  lemma FirstModesNext(names: seq<string>, tools: map<string, ToolMode>, n: nat)
    requires n < |names| && names[n] in tools
    ensures FirstModes(names, tools, n + 1) == FirstModes(names, tools, n)[names[n] := tools[names[n]]]
  {
    assert names[..n + 1] == names[..n] + [names[n]];
  }

  lemma ParseOneMore(fields: seq<(string, Json)>, n: nat, name: string, mode: ToolMode)
    requires n < |fields| && fields[n] == (name, Str(ToolModeName(mode))) && Clean(name)
    requires ParseTools(fields[..n]).Some?
    ensures ParseTools(fields[..n + 1]) == Some(ParseTools(fields[..n]).value[name := mode])
  {
    assert fields[..n + 1][..n] == fields[..n];
    OptionalStringIsClean(Str(name));
    assert ParseToolMode(Str(ToolModeName(mode))) == Some(mode);
  }

  lemma {:induction false} ToolsRoundTrip(names: seq<string>, tools: map<string, ToolMode>, n: nat)
    requires CleanTools(tools) && n <= |names|
    requires forall i :: 0 <= i < |names| ==> names[i] in tools
    ensures ParseTools(EncodeTools(names, tools)[..n]) == Some(FirstModes(names, tools, n))
  {
    if n > 0 {
      ToolsRoundTrip(names, tools, n - 1);
      ParseOneMore(EncodeTools(names, tools), n - 1, names[n - 1], tools[names[n - 1]]);
      FirstModesNext(names, tools, n - 1);
    }
  }

  lemma AppRoundTrip(app: App, names: seq<string>)
    requires Lists(names, app.tools.Keys) && Clean(app.id) && CleanTools(app.tools)
    ensures ParseApp(Obj(AppFields(app, names))) == Some(app)
  {
    var fields := AppFields(app, names);
    FieldAt(fields, 0);
    FieldAt(fields, 1);
    FieldAt(fields, 2);
    FieldAt(fields, 3);
    FieldAt(fields, 4);
    OptionalStringIsClean(Str(app.id));
    ToolsRoundTrip(names, app.tools, |names|);
    assert EncodeTools(names, app.tools)[..|names|] == EncodeTools(names, app.tools);
    assert names[..|names|] == names;
    assert FirstModes(names, app.tools, |names|) == app.tools;
    assert ParseDestructive(Str(DestructiveName(app.destructive))) == Some(app.destructive);
  }

  lemma AuthRoundTrip(auth: Auth)
    requires CleanAuth(auth)
    ensures ParseAuth(Obj(AuthFields(auth))) == Some(auth)
  {
    var fields := AuthFields(auth);
    match auth
    case PreparedProfile(profileId, accountId) =>
      FieldAt(fields, 0);
      FieldAt(fields, 1);
      FieldAbsent(fields, "kind");
      OptionalStringIsClean(Str(profileId));
      OptionalStringIsClean(Str(accountId));
    case ConfiguredServer(connection, managed) =>
      FieldAt(fields, 0);
      FieldAt(fields, 1);
      FieldAt(fields, 2);
      OptionalStringIsClean(Str(connection));
      OptionalStringIsClean(Str(managed));
  }

  lemma EncodedFields(p: Payload, listing: seq<seq<string>>)
    requires ListsAll(p.apps, listing)
    ensures var j := Encode(p, listing);
            && Field(j, "version") == Num(1) && Field(j, "runtimeId") == Str("codex")
            && Field(j, "namespace") == Str("codex.apps") && Field(j, "payload") == Obj(PayloadFields(p, listing))
    ensures var j := Obj(PayloadFields(p, listing));
            && Field(j, "version") == Num(1) && Field(j, "auth") == Obj(AuthFields(p.auth))
            && Field(j, "apps") == Arr(EncodeApps(p.apps, listing))
  {
    var outer := Encode(p, listing).fields;
    var inner := PayloadFields(p, listing);
    FieldAt(outer, 0);
    FieldAt(outer, 1);
    FieldAt(outer, 2);
    FieldAt(outer, 3);
    FieldAt(inner, 0);
    FieldAt(inner, 1);
    FieldAt(inner, 2);
  }

  /** Serialising and parsing gives the payload back exactly when its ids and names are clean. */
  lemma RoundTripIffClean(p: Payload, listing: seq<seq<string>>)
    requires ListsAll(p.apps, listing) && DistinctIds(p.apps)
    ensures Parse(Encode(p, listing)) == Ok(Some(p)) <==> CleanPayload(p)
  {
    EncodedFields(p, listing);
    if CleanPayload(p) {
      AuthRoundTrip(p.auth);
      var raw := EncodeApps(p.apps, listing);
      forall i | 0 <= i < |raw| ensures ParseApp(raw[i]) == Some(p.apps[i]) {
        AppRoundTrip(p.apps[i], listing[i]);
      }
      ParsedAppsMeans(raw, p.apps);
    } else if Parse(Encode(p, listing)) == Ok(Some(p)) {
      ParseIsClean(Encode(p, listing));
    }
  }

  // ----- narrowing -----

  /** One app's narrowed entry grants no more than today's entry and no more than the stored one. */
  ghost predicate EntryNarrows(entry: PolicyEntry, now: PolicyEntry, stored: App) {
    && (entry.allowDestructive <==> now.allowDestructive && stored.allowDestructive)
    && (entry.allowOpenWorld != Some(false) <==> now.allowOpenWorld != Some(false) && stored.allowOpenWorld)
    && Rank(DefaultMode(entry)) == Min(Rank(DefaultMode(now)), Rank(stored.destructive))
  }

  /**
   One tool's patch is under each of its four bounds, and is the greatest mode that is. `entry` is the narrowed
   entry of the app: the current mode and the current ceiling are the ones read under it.
   */
  ghost predicate ToolNarrows(patch: ToolPatch, capturedMode: ToolMode, stored: App, now: ToolMode, entry: PolicyEntry) {
    && AtMost(patch.mode, capturedMode)
    && AtMost(patch.mode, Ceiling(stored.destructive))
    && AtMost(patch.mode, now)
    && AtMost(patch.mode, Ceiling(DefaultMode(entry)))
    && forall m ::
         (AtMost(m, capturedMode) && AtMost(m, Ceiling(stored.destructive)) && AtMost(m, now) && AtMost(m, Ceiling(DefaultMode(entry))))
         ==> AtMost(m, patch.mode)
  }

  /** A stored tool keeps its captured mode as a bound; a tool that appeared later is bounded by the stored ceiling. */
  function CapturedMode(stored: App, tool: string): ToolMode {
    if tool in stored.tools then stored.tools[tool] else Ceiling(stored.destructive)
  }

  lemma PatchNarrows(stored: App, entry: PolicyEntry, current: CurrentPolicy, toolsAllow: Option<set<string>>, tool: string)
    requires stored.id in current.toolsByApp
    ensures ToolNarrows(PatchTool(stored, entry, current, toolsAllow, tool), CapturedMode(stored, tool), stored,
                        CurrentMode(current, stored.id, tool, entry), entry)
  {
    var a, b, c, d := CapturedMode(stored, tool), Ceiling(stored.destructive),
                      CurrentMode(current, stored.id, tool, entry), Ceiling(DefaultMode(entry));
    MeetIsGreatestLowerBound(a, b, a);
    MeetIsGreatestLowerBound(c, d, c);
    MeetIsGreatestLowerBound(Meet(a, b), Meet(c, d), a);
  }

  /** Destructive or open-world use of a tool that does not declare itself free of it was allowed at capture and is allowed today. */
  ghost predicate UseAllowedTwice(meta: Option<ToolMeta>, now: PolicyEntry, stored: App) {
    && ((now.allowDestructive && stored.allowDestructive) || (meta.Some? && meta.value.notDestructive))
    && ((now.allowOpenWorld != Some(false) && stored.allowOpenWorld) || (meta.Some? && meta.value.notOpenWorld))
  }

  /** Today's own entry enables the tool, the job's list names it, and both the stored and the current flags cover what it may do. */
  ghost predicate EnabledThenAndNow(stored: App, now: PolicyEntry, current: CurrentPolicy, toolsAllow: Option<set<string>>, tool: string)
    requires stored.id in current.toolsByApp
  {
    var meta := MetaOf(current.toolsByApp[stored.id], tool);
    && JobAllows(toolsAllow, tool)
    && UseAllowedTwice(meta, now, stored)
    && ReadCurrentTool(current.config, stored.id, tool, meta, Ceiling(DefaultMode(now))).enabled
  }

  lemma EnabledIffThenAndNow(stored: App, now: PolicyEntry, current: CurrentPolicy, toolsAllow: Option<set<string>>, tool: string)
    requires stored.id in current.toolsByApp
    ensures PatchTool(stored, NarrowEntry(now, stored), current, toolsAllow, tool).enabled
            <==> EnabledThenAndNow(stored, now, current, toolsAllow, tool)
  {
  }

  /** What the intersection does to one app: its entry, and the patches of exactly today's tools. */
  ghost predicate AppNarrows(stored: App, now: PolicyEntry, current: CurrentPolicy, toolsAllow: Option<set<string>>,
                             entry: PolicyEntry, patches: map<string, ToolPatch>)
    requires stored.id in current.toolsByApp
  {
    && EntryNarrows(entry, now, stored)
    && patches.Keys == current.toolsByApp[stored.id].Keys
    && forall tool :: tool in patches ==>
         && ToolNarrows(patches[tool], CapturedMode(stored, tool), stored, CurrentMode(current, stored.id, tool, entry), entry)
         && (patches[tool].enabled <==> EnabledThenAndNow(stored, now, current, toolsAllow, tool))
  }

  lemma PatchedAppNarrows(stored: App, now: PolicyEntry, current: CurrentPolicy, toolsAllow: Option<set<string>>)
    requires stored.id in current.toolsByApp
    ensures var entry := NarrowEntry(now, stored);
            AppNarrows(stored, now, current, toolsAllow, entry, PatchApp(stored, entry, current, toolsAllow))
  {
    var entry := NarrowEntry(now, stored);
    forall tool | tool in current.toolsByApp[stored.id]
      ensures ToolNarrows(PatchTool(stored, entry, current, toolsAllow, tool), CapturedMode(stored, tool), stored,
                          CurrentMode(current, stored.id, tool, entry), entry)
      ensures PatchTool(stored, entry, current, toolsAllow, tool).enabled
              <==> EnabledThenAndNow(stored, now, current, toolsAllow, tool)
    {
      PatchNarrows(stored, entry, current, toolsAllow, tool);
      EnabledIffThenAndNow(stored, now, current, toolsAllow, tool);
    }
  }

  /**
   The intersection admits exactly the stored apps and lists exactly today's tools of each. Each flag and the
   destructive mode is at most the stored one and today's; each tool's mode is at most the captured one and at
   most what the narrowed entry gives today. Against today's own, wider entry see `TodaysCeilingIsKeptIff`.
   */
  lemma IntersectionNarrows(apps: seq<App>, policy: Policy, current: CurrentPolicy, toolsAllow: Option<set<string>>, n: Narrowed)
    requires NarrowedBy(apps, policy, current, toolsAllow, n)
    ensures n.policy.Keys == n.tools.Keys == IdsOf(apps)
    ensures forall i :: 0 <= i < |apps| ==>
              && Available(policy, current, apps[i].id)
              && AppNarrows(apps[i], policy[apps[i].id], current, toolsAllow, n.policy[apps[i].id], n.tools[apps[i].id])
  {
    forall i | 0 <= i < |apps|
      ensures AppNarrows(apps[i], policy[apps[i].id], current, toolsAllow, n.policy[apps[i].id], n.tools[apps[i].id])
    {
      PatchedAppNarrows(apps[i], policy[apps[i].id], current, toolsAllow);
    }
  }

  // ----- against today's own entry -----

  /**
   Today's entry says `ask`, the stored one says `deny`, and nothing else holds the tool below `auto`. The stricter
   of the two is `deny`, whose ceiling `auto` is above the ceiling `prompt` of `ask`.
   */
  ghost predicate DenyLiftsAsk(stored: App, now: PolicyEntry, current: CurrentPolicy, tool: string)
    requires stored.id in current.toolsByApp
  {
    && DefaultMode(now) == Ask && stored.destructive == Deny
    && AtMost(AutoMode, CapturedMode(stored, tool))
    && AtMost(AutoMode, CurrentMode(current, stored.id, tool, NarrowEntry(now, stored)))
  }

  /** A tool stays under today's own ceiling if and only if this is not the case. */
  lemma TodaysCeilingIsKeptIff(stored: App, now: PolicyEntry, current: CurrentPolicy, toolsAllow: Option<set<string>>, tool: string)
    requires stored.id in current.toolsByApp
    ensures AtMost(PatchTool(stored, NarrowEntry(now, stored), current, toolsAllow, tool).mode, Ceiling(DefaultMode(now)))
            <==> !DenyLiftsAsk(stored, now, current, tool)
  {
  }

  lemma PatchModeOfLifted(stored: App, now: PolicyEntry, current: CurrentPolicy, toolsAllow: Option<set<string>>, tool: string)
    requires stored.id in current.toolsByApp && DefaultMode(now) == Ask && stored.destructive == Deny
    ensures PatchTool(stored, NarrowEntry(now, stored), current, toolsAllow, tool).mode
            == if DenyLiftsAsk(stored, now, current, tool) then AutoMode else Prompt
  {
  }

  /** It stays under the mode today's own entry reads if and only if this is not the case, or that mode is configured as `auto` or above. */
  lemma TodaysModeIsKeptIff(stored: App, now: PolicyEntry, current: CurrentPolicy, toolsAllow: Option<set<string>>, tool: string)
    requires stored.id in current.toolsByApp
    ensures AtMost(PatchTool(stored, NarrowEntry(now, stored), current, toolsAllow, tool).mode, CurrentMode(current, stored.id, tool, now))
            <==> !(DenyLiftsAsk(stored, now, current, tool) && CurrentMode(current, stored.id, tool, now) == Prompt)
  {
    var meta := MetaOf(current.toolsByApp[stored.id], tool);
    var entry := NarrowEntry(now, stored);
    if DefaultMode(now) == Ask && stored.destructive == Deny {
      PatchModeOfLifted(stored, now, current, toolsAllow, tool);
      ReadUnderPrompt(current.config, stored.id, tool, meta, AutoMode);
    } else {
      CeilingMonotoneExceptDenyAsk(DefaultMode(entry), DefaultMode(now));
      ReadIsMonotone(current.config, stored.id, tool, meta, Ceiling(DefaultMode(entry)), Ceiling(DefaultMode(now)));
      PatchNarrows(stored, entry, current, toolsAllow, tool);
      AtMostIsTransitive(PatchTool(stored, entry, current, toolsAllow, tool).mode,
                         CurrentMode(current, stored.id, tool, entry), CurrentMode(current, stored.id, tool, now));
    }
  }

  lemma AtMostIsTransitive(a: ToolMode, b: ToolMode, c: ToolMode)
    requires AtMost(a, b) && AtMost(b, c)
    ensures AtMost(a, c)
  {
  }

  /** Over a whole intersection: a tool of the result is above today's own ceiling exactly where a stored `deny` lifts today's `ask`. */
  lemma ResultExceedsTodayIff(apps: seq<App>, policy: Policy, current: CurrentPolicy, toolsAllow: Option<set<string>>, n: Narrowed)
    requires NarrowedBy(apps, policy, current, toolsAllow, n)
    ensures forall i :: 0 <= i < |apps| ==>
              forall tool :: tool in n.tools[apps[i].id] ==>
                (AtMost(n.tools[apps[i].id][tool].mode, Ceiling(DefaultMode(policy[apps[i].id])))
                 <==> !DenyLiftsAsk(apps[i], policy[apps[i].id], current, tool))
  {
    forall i, tool | 0 <= i < |apps| && tool in n.tools[apps[i].id]
      ensures AtMost(n.tools[apps[i].id][tool].mode, Ceiling(DefaultMode(policy[apps[i].id])))
              <==> !DenyLiftsAsk(apps[i], policy[apps[i].id], current, tool)
    {
      TodaysCeilingIsKeptIff(apps[i], policy[apps[i].id], current, toolsAllow, tool);
    }
  }

  /** Such a tool: today alone it reads `prompt`, and after the intersection with a stricter authority it is enabled with `auto`. */
  lemma StoredDenyLiftsTodaysAsk() returns (stored: App, now: PolicyEntry, current: CurrentPolicy)
    ensures stored.id in current.toolsByApp && "mail.read" in current.toolsByApp[stored.id]
    ensures stored.destructive == Deny && now.destructive == Some(Ask)
    ensures CurrentMode(current, stored.id, "mail.read", now) == Prompt
    ensures PatchTool(stored, NarrowEntry(now, stored), current, None, "mail.read") == ToolPatch(true, AutoMode)
  {
    stored := App("mail", false, false, Deny, map["mail.read" := AutoMode]);
    now := PolicyEntry(true, None, Some(Ask));
    current := CurrentPolicy(Config(map[], None), map["mail" := map["mail.read" := ToolMeta(None, None, false, true, true)]]);
  }

  // ----- tighter inputs -----

  ghost predicate TighterEntry(a: PolicyEntry, b: PolicyEntry) {
    (a.allowDestructive ==> b.allowDestructive) && (a.allowOpenWorld != Some(false) ==> b.allowOpenWorld != Some(false))
  }

  ghost predicate TighterApp(a: App, b: App) {
    a.id == b.id && (a.allowDestructive ==> b.allowDestructive) && (a.allowOpenWorld ==> b.allowOpenWorld)
  }

  /** Taking away flags, today or from what is stored, or names from the job's list, enables no further tool, whatever the destructive modes. */
  lemma TighterInputsEnableLess(a: App, b: App, nowA: PolicyEntry, nowB: PolicyEntry, current: CurrentPolicy,
                                allowA: Option<set<string>>, allowB: Option<set<string>>, tool: string)
    requires TighterApp(a, b) && TighterEntry(nowA, nowB) && a.id in current.toolsByApp
    requires JobAllows(allowA, tool) ==> JobAllows(allowB, tool)
    ensures PatchTool(a, NarrowEntry(nowA, a), current, allowA, tool).enabled
            ==> PatchTool(b, NarrowEntry(nowB, b), current, allowB, tool).enabled
  {
    EnabledIffThenAndNow(a, nowA, current, allowA, tool);
    EnabledIffThenAndNow(b, nowB, current, allowB, tool);
  }

  lemma NarrowEntryTwice(now: PolicyEntry, stored: App)
    ensures NarrowEntry(NarrowEntry(now, stored), stored) == NarrowEntry(now, stored)
  {
  }

  lemma SameAppTwice(apps: seq<App>, i: nat, policy: Policy, current: CurrentPolicy, toolsAllow: Option<set<string>>,
                     once: Narrowed, twice: Narrowed)
    requires i < |apps|
    requires NarrowedBy(apps, policy, current, toolsAllow, once)
    requires NarrowedBy(apps, once.policy, current, toolsAllow, twice)
    ensures apps[i].id in once.policy && apps[i].id in twice.policy
    ensures twice.policy[apps[i].id] == once.policy[apps[i].id]
    ensures twice.tools[apps[i].id] == once.tools[apps[i].id]
  {
    NarrowEntryTwice(policy[apps[i].id], apps[i]);
  }

  lemma EqualMaps<V>(a: map<string, V>, b: map<string, V>)
    requires a.Keys == b.Keys && forall id :: id in a ==> a[id] == b[id]
    ensures a == b
  {
  }

  lemma IdOfSomeApp(apps: seq<App>, id: string) returns (i: nat)
    requires id in IdsOf(apps)
    ensures i < |apps| && apps[i].id == id
  {
    var a :| a in apps && a.id == id;
    i :| 0 <= i < |apps| && apps[i] == a;
  }

  /** Intersecting the result once more changes nothing. */
  lemma IntersectionIsIdempotent(apps: seq<App>, policy: Policy, current: CurrentPolicy, toolsAllow: Option<set<string>>,
                                 once: Narrowed, twice: Narrowed)
    requires NarrowedBy(apps, policy, current, toolsAllow, once)
    requires NarrowedBy(apps, once.policy, current, toolsAllow, twice)
    ensures twice.policy == once.policy
    ensures twice.tools == once.tools
  {
    forall id | id in IdsOf(apps) ensures twice.policy[id] == once.policy[id] && twice.tools[id] == once.tools[id] {
      var i := IdOfSomeApp(apps, id);
      SameAppTwice(apps, i, policy, current, toolsAllow, once, twice);
    }
    EqualMaps(twice.policy, once.policy);
    EqualMaps(twice.tools, once.tools);
  }

  /** The second intersection cannot fail where the first did not. */
  lemma NarrowedStaysAvailable(apps: seq<App>, policy: Policy, current: CurrentPolicy, toolsAllow: Option<set<string>>, n: Narrowed)
    requires NarrowedBy(apps, policy, current, toolsAllow, n)
    ensures Omitted(apps, n.policy, current) == {}
  {
    forall a | a in apps ensures Available(n.policy, current, a.id) {
      var i :| 0 <= i < |apps| && apps[i] == a;
    }
  }

  // ----- capture, then intersect with the same policy -----

  /** The flags and modes of an entry are those the capture recorded. */
  ghost predicate SameFlags(entry: PolicyEntry, captured: App) {
    && entry.allowDestructive == captured.allowDestructive
    && (entry.allowOpenWorld != Some(false)) == captured.allowOpenWorld
    && DefaultMode(entry) == captured.destructive
  }

  lemma UnchangedTool(captured: App, policy: Policy, current: CurrentPolicy, toolsAllow: Option<set<string>>, tool: string)
    requires captured.id in policy && captured.id in current.toolsByApp && tool in current.toolsByApp[captured.id]
    requires captured == CaptureApp(captured.id, policy[captured.id], current)
    ensures var patch := PatchTool(captured, NarrowEntry(policy[captured.id], captured), current, toolsAllow, tool);
            && patch.mode == Meet(captured.tools[tool], Ceiling(captured.destructive))
            && (patch.mode == captured.tools[tool] <==> AtMost(captured.tools[tool], Ceiling(captured.destructive)))
  {
    var m, c := captured.tools[tool], Ceiling(captured.destructive);
    MeetIsGreatestLowerBound(m, c, m);
    MeetIsGreatestLowerBound(Meet(m, c), Meet(m, c), m);
  }

  /** One captured app after the intersection: its flags, its tools, and their modes lowered to the ceiling of the app. */
  ghost predicate AppKept(captured: App, entry: PolicyEntry, patches: map<string, ToolPatch>) {
    && SameFlags(entry, captured)
    && patches.Keys == captured.tools.Keys
    && forall tool :: tool in captured.tools ==> patches[tool].mode == Meet(captured.tools[tool], Ceiling(captured.destructive))
  }

  lemma CapturedAppIsKept(captured: App, policy: Policy, current: CurrentPolicy, toolsAllow: Option<set<string>>)
    requires captured.id in policy && captured.id in current.toolsByApp
    requires captured == CaptureApp(captured.id, policy[captured.id], current)
    ensures var entry := NarrowEntry(policy[captured.id], captured);
            AppKept(captured, entry, PatchApp(captured, entry, current, toolsAllow))
  {
    forall tool | tool in captured.tools {
      UnchangedTool(captured, policy, current, toolsAllow, tool);
    }
  }

  /**
   Against an unchanged policy and inventory the intersection admits exactly the captured apps with the flags
   they were captured with, and gives every tool its captured mode lowered to the ceiling of its app.
   */
  lemma UnchangedPolicyKeepsPermissions(policy: Policy, callable: set<string>, current: CurrentPolicy, apps: seq<App>,
                                        toolsAllow: Option<set<string>>, n: Narrowed)
    requires Captured(policy, callable, current, apps)
    requires NarrowedBy(apps, policy, current, toolsAllow, n)
    ensures n.policy.Keys == Eligible(policy, callable, current)
    ensures forall i :: 0 <= i < |apps| ==> AppKept(apps[i], n.policy[apps[i].id], n.tools[apps[i].id])
  {
    forall i | 0 <= i < |apps| ensures AppKept(apps[i], n.policy[apps[i].id], n.tools[apps[i].id]) {
      CapturedAppIsKept(apps[i], policy, current, toolsAllow);
    }
  }

  /** No captured mode exceeds the ceiling it was read under. */
  ghost predicate UnderCeilings(apps: seq<App>) {
    forall i, tool :: 0 <= i < |apps| && tool in apps[i].tools ==> AtMost(apps[i].tools[tool], Ceiling(apps[i].destructive))
  }

  /** So the modes come back as captured exactly when none of them exceeded the ceiling at capture. */
  lemma UnchangedPolicyIsIdentityIffUnderCeilings(policy: Policy, callable: set<string>, current: CurrentPolicy, apps: seq<App>,
                                                  toolsAllow: Option<set<string>>, n: Narrowed)
    requires Captured(policy, callable, current, apps)
    requires NarrowedBy(apps, policy, current, toolsAllow, n)
    ensures UnderCeilings(apps) <==>
            forall i, tool :: 0 <= i < |apps| && tool in apps[i].tools ==> n.tools[apps[i].id][tool].mode == apps[i].tools[tool]
  {
    UnchangedPolicyKeepsPermissions(policy, callable, current, apps, toolsAllow, n);
    forall i, tool | 0 <= i < |apps| && tool in apps[i].tools
      ensures n.tools[apps[i].id][tool].mode == apps[i].tools[tool]
              <==> AtMost(apps[i].tools[tool], Ceiling(apps[i].destructive))
    {
      UnchangedTool(apps[i], policy, current, toolsAllow, tool);
    }
  }

  /** A capture never fails later for want of its apps: with the same policy and an inventory read from any replies nothing is omitted. */
  lemma UnchangedPolicyOmitsNothing(policy: Policy, callable: set<string>, current: CurrentPolicy, apps: seq<App>,
                                    responses: nat -> Response, pages: nat)
    requires Captured(policy, callable, current, apps) && current.toolsByApp == InventoryOf(responses, pages)
    ensures Omitted(apps, policy, current) == {}
  {
    AppsHaveTools(responses, pages);
    forall a | a in apps ensures Available(policy, current, a.id) {
      var i :| 0 <= i < |apps| && apps[i] == a;
    }
  }

  /** All captured permissions, exactly as captured. */
  ghost predicate PermissionsKept(apps: seq<App>, n: Narrowed) {
    && n.policy.Keys == n.tools.Keys == IdsOf(apps)
    && forall i :: 0 <= i < |apps| ==>
         && apps[i].id in n.policy
         && SameFlags(n.policy[apps[i].id], apps[i])
         && n.tools[apps[i].id].Keys == apps[i].tools.Keys
         && forall tool :: tool in apps[i].tools ==> n.tools[apps[i].id][tool].mode == apps[i].tools[tool]
  }

  lemma KeptWhereUnderCeilings(policy: Policy, callable: set<string>, current: CurrentPolicy, apps: seq<App>,
                               toolsAllow: Option<set<string>>, n: Narrowed)
    requires Captured(policy, callable, current, apps) && UnderCeilings(apps)
    requires NarrowedBy(apps, policy, current, toolsAllow, n)
    ensures PermissionsKept(apps, n)
  {
    UnchangedPolicyKeepsPermissions(policy, callable, current, apps, toolsAllow, n);
    UnchangedPolicyIsIdentityIffUnderCeilings(policy, callable, current, apps, toolsAllow, n);
  }

  /**
   The whole way: a capture over an inventory read from any replies, serialised, parses to itself, is not refused for
   a missing app, and every intersection of it with the same policy gives the same apps, flags, tools and modes.
   */
  lemma CaptureSurvivesStorage(auth: Auth, policy: Policy, callable: set<string>, current: CurrentPolicy, apps: seq<App>,
                               responses: nat -> Response, pages: nat, listing: seq<seq<string>>, toolsAllow: Option<set<string>>)
    requires current.toolsByApp == InventoryOf(responses, pages)
    requires Captured(policy, callable, current, apps) && ListsAll(apps, listing)
    requires CleanPayload(Payload(auth, apps)) && UnderCeilings(apps)
    ensures Parse(Encode(Payload(auth, apps), listing)) == Ok(Some(Payload(auth, apps)))
    ensures Omitted(apps, policy, current) == {}
    ensures forall n :: NarrowedBy(apps, policy, current, toolsAllow, n) ==> PermissionsKept(apps, n)
  {
    RoundTripIffClean(Payload(auth, apps), listing);
    UnchangedPolicyOmitsNothing(policy, callable, current, apps, responses, pages);
    forall n | NarrowedBy(apps, policy, current, toolsAllow, n) ensures PermissionsKept(apps, n) {
      KeptWhereUnderCeilings(policy, callable, current, apps, toolsAllow, n);
    }
  }

  /** A tool whose mode is configured above its app's ceiling: captured as `approve`, granted as `prompt`. */
  lemma CapturedModeIsLoweredAtRunTime() returns (policy: Policy, current: CurrentPolicy, apps: seq<App>)
    ensures Captured(policy, {"mail"}, current, apps) && !UnderCeilings(apps)
    ensures |apps| == 1 && "mail.send" in apps[0].tools && apps[0].tools["mail.send"] == Approve
    ensures apps[0].id == "mail" && "mail" in policy && "mail" in current.toolsByApp
    ensures PatchTool(apps[0], NarrowEntry(policy["mail"], apps[0]), current, None, "mail.send").mode == Prompt
  {
    var meta := ToolMeta(None, None, false, false, false);
    var settings := AppSettings(true, None, Some(Approve), None, None, map[], []);
    policy := map["mail" := PolicyEntry(true, None, Some(Ask))];
    current := CurrentPolicy(Config(map["mail" := settings], None), map["mail" := map["mail.send" := meta]]);
    apps := [CaptureApp("mail", policy["mail"], current)];
    assert apps[0].id == "mail";
    assert IdsOf(apps) == {"mail"} == Eligible(policy, {"mail"}, current);
    assert "mail.send" in apps[0].tools;
  }
}
