/**
 The stored permission set of a scheduled job, as `scheduled-app-authority.ts` handles it: captured from the
 owner's turn, serialised, parsed again at run time, and intersected with the policy of that day.
 */
module ScheduledAuthority {
  import opened Common
  import opened Strings
  import opened ToolPolicy
  import opened AppInventory
  import GroupNames

  // ----- JSON as it is stored -----

  datatype Json = Undefined | Null | Bool(b: bool) | Num(n: int) | Str(s: string) | Arr(items: seq<Json>) | Obj(fields: seq<(string, Json)>)

  function FieldOf(fields: seq<(string, Json)>, name: string): Json {
    if fields == [] then Undefined
    else if fields[0].0 == name then fields[0].1
    else FieldOf(fields[1..], name)
  }

  /** Reading a property; anything but an object has none. */
  function Field(j: Json, name: string): Json {
    if j.Obj? then FieldOf(j.fields, name) else Undefined
  }

  predicate Space(c: char) {
    GroupNames.IsSpace(c as int)
  }

  /** A string that survives `normalizeOptionalString` unchanged. */
  predicate Clean(s: string) {
    s != "" && IsTrimmed(s, Space)
  }

  /** `normalizeOptionalString`: a string with something left after trimming. */
  function OptionalString(j: Json): Option<string> {
    if j.Str? && Trim(j.s, Space) != "" then Some(Trim(j.s, Space)) else None
  }

  function ParseDestructive(j: Json): Option<Destructive> {
    if j == Str("allow") then Some(Allow)
    else if j == Str("deny") then Some(Deny)
    else if j == Str("auto") then Some(Auto)
    else if j == Str("ask") then Some(Ask)
    else None
  }

  function ParseToolMode(j: Json): Option<ToolMode> {
    if j == Str("auto") then Some(AutoMode)
    else if j == Str("prompt") then Some(Prompt)
    else if j == Str("writes") then Some(Writes)
    else if j == Str("approve") then Some(Approve)
    else None
  }

  // ----- the parsed authority -----

  datatype Auth =
    | PreparedProfile(profileId: string, accountId: string)
    | ConfiguredServer(connectionFingerprint: string, managedRequirementsFingerprint: string)

  datatype App = App(id: string, allowDestructive: bool, allowOpenWorld: bool, destructive: Destructive, tools: map<string, ToolMode>)

  datatype Payload = Payload(auth: Auth, apps: seq<App>)

  datatype ParseError = UnsupportedVersion | UnsupportedNamespace | InvalidAuthority

  function ParseAuth(auth: Json): Option<Auth> {
    var profileId := OptionalString(Field(auth, "profileId"));
    var accountId := OptionalString(Field(auth, "accountId"));
    var connection := OptionalString(Field(auth, "connectionFingerprint"));
    var managed := OptionalString(Field(auth, "managedRequirementsFingerprint"));
    if Field(auth, "kind") == Str("configured-app-server") && connection.Some? && managed.Some?
    then Some(ConfiguredServer(connection.value, managed.value))
    else if Field(auth, "kind") == Undefined && profileId.Some? && accountId.Some?
    then Some(PreparedProfile(profileId.value, accountId.value))
    else None
  }

  /** The loop over an app's tools: a name that trims to an earlier one replaces it. */
  function ParseTools(fields: seq<(string, Json)>): Option<map<string, ToolMode>> {
    if fields == [] then Some(map[])
    else
      var last := fields[|fields| - 1];
      var before := ParseTools(fields[..|fields| - 1]);
      var name := OptionalString(Str(last.0));
      var mode := ParseToolMode(last.1);
      if before.None? || name.None? || mode.None? then None else Some(before.value[name.value := mode.value])
  }

  /** One raw app, apart from the check against the ids already seen. */
  function ParseApp(raw: Json): Option<App> {
    var id := OptionalString(Field(raw, "id"));
    var destructive := ParseDestructive(Field(raw, "destructiveApprovalMode"));
    var rawTools := Field(raw, "tools");
    if || id.None? || !Field(raw, "allowDestructiveActions").Bool? || !Field(raw, "allowOpenWorld").Bool?
       || destructive.None? || !rawTools.Obj? || ParseTools(rawTools.fields).None?
    then None
    else Some(App(id.value, Field(raw, "allowDestructiveActions").b, Field(raw, "allowOpenWorld").b,
                  destructive.value, ParseTools(rawTools.fields).value))
  }

  predicate DistinctIds(apps: seq<App>) {
    forall i, j :: 0 <= i < j < |apps| ==> apps[i].id != apps[j].id
  }

  function IdsOf(apps: seq<App>): set<string> {
    set a | a in apps :: a.id
  }

  /** All apps, unless one is invalid or repeats an id. */
  function Collect(parsed: seq<Option<App>>): Option<seq<App>> {
    if parsed == [] then Some([])
    else
      var last := |parsed| - 1;
      var before := Collect(parsed[..last]);
      if before.None? || parsed[last].None? || parsed[last].value.id in IdsOf(before.value) then None
      else Some(before.value + [parsed[last].value])
  }

  function ParseEach(raw: seq<Json>): seq<Option<App>> {
    seq(|raw|, i requires 0 <= i < |raw| => ParseApp(raw[i]))
  }

  function ParsedApps(raw: seq<Json>): Option<seq<App>> {
    Collect(ParseEach(raw))
  }

  ghost predicate OneByOne(parsed: seq<Option<App>>, apps: seq<App>) {
    |apps| == |parsed| && forall i :: 0 <= i < |parsed| ==> parsed[i] == Some(apps[i])
  }

  lemma DistinctExtend(apps: seq<App>, app: App)
    requires DistinctIds(apps) && app.id !in IdsOf(apps)
    ensures DistinctIds(apps + [app])
  {
    forall i | 0 <= i < |apps| ensures apps[i].id != app.id {
      assert apps[i] in apps;
    }
  }

  lemma {:induction false} CollectedAreValid(parsed: seq<Option<App>>)
    requires Collect(parsed).Some?
    ensures OneByOne(parsed, Collect(parsed).value) && DistinctIds(Collect(parsed).value)
  {
    if parsed != [] {
      var last := |parsed| - 1;
      CollectedAreValid(parsed[..last]);
      DistinctExtend(Collect(parsed[..last]).value, parsed[last].value);
    }
  }

  lemma {:induction false} ValidAreCollected(parsed: seq<Option<App>>, apps: seq<App>)
    requires OneByOne(parsed, apps) && DistinctIds(apps)
    ensures Collect(parsed) == Some(apps)
  {
    if parsed != [] {
      var last := |parsed| - 1;
      ValidAreCollected(parsed[..last], apps[..last]);
      assert apps == apps[..last] + [apps[last]];
    }
  }

  /** The apps come out in order, one for each raw app, if and only if each is valid and no id comes twice. */
  lemma ParsedAppsMeans(raw: seq<Json>, apps: seq<App>)
    ensures ParsedApps(raw) == Some(apps) <==> OneByOne(ParseEach(raw), apps) && DistinctIds(apps)
  {
    if ParsedApps(raw) == Some(apps) {
      CollectedAreValid(ParseEach(raw));
    }
    if OneByOne(ParseEach(raw), apps) && DistinctIds(apps) {
      ValidAreCollected(ParseEach(raw), apps);
    }
  }

  lemma {:induction false} FailureIsFinal(parsed: seq<Option<App>>, n: nat)
    requires n <= |parsed| && Collect(parsed[..n]) == None
    ensures Collect(parsed) == None
  {
    if n < |parsed| {
      assert parsed[..|parsed| - 1][..n] == parsed[..n];
      FailureIsFinal(parsed[..|parsed| - 1], n);
    } else {
      assert parsed[..n] == parsed;
    }
  }

  lemma CollectStep(parsed: seq<Option<App>>, i: nat, apps: seq<App>)
    requires i < |parsed| && Collect(parsed[..i]) == Some(apps)
    ensures if parsed[i].None? || parsed[i].value.id in IdsOf(apps) then Collect(parsed) == None
            else Collect(parsed[..i + 1]) == Some(apps + [parsed[i].value])
    ensures parsed[i].Some? ==> IdsOf(apps + [parsed[i].value]) == IdsOf(apps) + {parsed[i].value.id}
  {
    assert parsed[..i + 1][..i] == parsed[..i];
    if parsed[i].None? || parsed[i].value.id in IdsOf(apps) {
      FailureIsFinal(parsed, i + 1);
    }
  }

  /** The loop of the code, with its set of ids already seen. */
  method ParseApps(raw: seq<Json>) returns (r: Option<seq<App>>)
    ensures r == ParsedApps(raw)
  {
    var seen: set<string> := {};
    var apps: seq<App> := [];
    ghost var parsed := ParseEach(raw);
    for i := 0 to |raw|
      invariant Collect(parsed[..i]) == Some(apps)
      invariant seen == IdsOf(apps)
    {
      CollectStep(parsed, i, apps);
      var app := ParseApp(raw[i]);
      if app.None? || app.value.id in seen {
        return None;
      }
      seen := seen + {app.value.id};
      apps := apps + [app.value];
    }
    assert parsed[..|raw|] == parsed;
    return Some(apps);
  }

  /** `parseScheduledCodexAppAuthority`: no authority of this runtime, or one, or an error. */
  function Parse(authority: Json): Result<Option<Payload>, ParseError> {
    if Field(authority, "runtimeId") != Str("codex") then Ok(None)
    else if Field(authority, "version") != Num(1) then Err(UnsupportedVersion)
    else if Field(authority, "namespace") != Str("codex.apps") then Err(UnsupportedNamespace)
    else
      var payload := Field(authority, "payload");
      var auth := ParseAuth(Field(payload, "auth"));
      var rawApps := Field(payload, "apps");
      if Field(payload, "version") != Num(1) || auth.None? || !rawApps.Arr? then Err(InvalidAuthority)
      else
        match ParsedApps(rawApps.items)
        case None => Err(InvalidAuthority)
        case Some(apps) => Ok(Some(Payload(auth.value, apps)))
  }

  /** The parse as the program runs it, with its loop over the apps. */
  method ParseAuthority(authority: Json) returns (r: Result<Option<Payload>, ParseError>)
    ensures r == Parse(authority)
  {
    if Field(authority, "runtimeId") != Str("codex") {
      return Ok(None);
    }
    if Field(authority, "version") != Num(1) {
      return Err(UnsupportedVersion);
    }
    if Field(authority, "namespace") != Str("codex.apps") {
      return Err(UnsupportedNamespace);
    }
    var payload := Field(authority, "payload");
    var auth := ParseAuth(Field(payload, "auth"));
    var rawApps := Field(payload, "apps");
    if Field(payload, "version") != Num(1) || auth.None? || !rawApps.Arr? {
      return Err(InvalidAuthority);
    }
    var apps := ParseApps(rawApps.items);
    if apps.None? {
      return Err(InvalidAuthority);
    }
    return Ok(Some(Payload(auth.value, apps.value)));
  }

  lemma ParsedIdsAreDistinct(authority: Json)
    requires Parse(authority).Ok? && Parse(authority).value.Some?
    ensures DistinctIds(Parse(authority).value.value.apps)
  {
    var raw := Field(Field(authority, "payload"), "apps").items;
    ParsedAppsMeans(raw, ParsedApps(raw).value);
  }

  // ----- capture -----

  /** An entry of the thread's app policy. */
  datatype PolicyEntry = PolicyEntry(allowDestructive: bool, allowOpenWorld: Option<bool>, destructive: Option<Destructive>)

  /** `defaultApprovalMode`. */
  function DefaultMode(entry: PolicyEntry): Destructive {
    entry.destructive.GetOr(if entry.allowDestructive then Allow else Deny)
  }

  datatype CurrentPolicy = CurrentPolicy(config: Config, toolsByApp: Inventory)

  function MetaOf(tools: map<string, ToolMeta>, name: string): Option<ToolMeta> {
    if name in tools then Some(tools[name]) else None
  }

  /** The tool's mode today under the ceiling of an app entry. */
  function CurrentMode(current: CurrentPolicy, id: string, tool: string, entry: PolicyEntry): ToolMode
    requires id in current.toolsByApp
  {
    ReadCurrentTool(current.config, id, tool, MetaOf(current.toolsByApp[id], tool), Ceiling(DefaultMode(entry))).mode
  }

  /** An app entry as the capture records it. */
  function CaptureApp(id: string, entry: PolicyEntry, current: CurrentPolicy): App
    requires id in current.toolsByApp
  {
    App(id,
        entry.allowDestructive,
        entry.allowOpenWorld != Some(false),
        DefaultMode(entry),
        map tool | tool in current.toolsByApp[id] :: CurrentMode(current, id, tool, entry))
  }

  type Policy = map<string, PolicyEntry>

  function Eligible(policy: Policy, callable: set<string>, current: CurrentPolicy): set<string> {
    set id | id in policy && id in callable && id in current.toolsByApp
  }

  /** `apps` is the capture of exactly the eligible apps, in some order (the code sorts them by id). */
  ghost predicate Captured(policy: Policy, callable: set<string>, current: CurrentPolicy, apps: seq<App>) {
    && DistinctIds(apps)
    && IdsOf(apps) == Eligible(policy, callable, current)
    && (forall i :: 0 <= i < |apps| ==>
          && apps[i].id in Eligible(policy, callable, current)
          && apps[i] == CaptureApp(apps[i].id, policy[apps[i].id], current))
  }

  /** The filter and map over the policy's entries, in the order of `ids`; the code ends with the ids sorted. */
  function CaptureApps(ids: seq<string>, policy: Policy, callable: set<string>, current: CurrentPolicy): seq<App> {
    if ids == [] then []
    else
      var last := ids[|ids| - 1];
      CaptureApps(ids[..|ids| - 1], policy, callable, current)
        + (if last in Eligible(policy, callable, current) then [CaptureApp(last, policy[last], current)] else [])
  }

  /** The app-building part of `captureScheduledCodexAppAuthority`; a capture of no apps is an error. */
  function Capture(ids: seq<string>, policy: Policy, callable: set<string>, current: CurrentPolicy): Option<seq<App>> {
    var apps := CaptureApps(ids, policy, callable, current);
    if apps == [] then None else Some(apps)
  }

  lemma {:induction false} CaptureAppsAre(ids: seq<string>, policy: Policy, callable: set<string>, current: CurrentPolicy)
    requires NoDuplicates(ids)
    ensures var apps := CaptureApps(ids, policy, callable, current);
            && DistinctIds(apps)
            && (forall id :: id in IdsOf(apps) <==> id in ids && id in Eligible(policy, callable, current))
            && (forall i :: 0 <= i < |apps| ==>
                  && apps[i].id in Eligible(policy, callable, current)
                  && apps[i] == CaptureApp(apps[i].id, policy[apps[i].id], current))
  {
    if ids != [] {
      var last := ids[|ids| - 1];
      var before := CaptureApps(ids[..|ids| - 1], policy, callable, current);
      CaptureAppsAre(ids[..|ids| - 1], policy, callable, current);
      if last in Eligible(policy, callable, current) {
        var app := CaptureApp(last, policy[last], current);
        DistinctExtend(before, app);
        IdsExtend(before, app);
      }
    }
  }

  lemma IdsExtend(apps: seq<App>, app: App)
    ensures IdsOf(apps + [app]) == IdsOf(apps) + {app.id}
  {
    assert app in apps + [app];
    forall a | a in apps ensures a in apps + [app] {
    }
  }

  lemma NoIdsNoApps(apps: seq<App>)
    ensures IdsOf(apps) == {} <==> apps == []
  {
    assert apps != [] ==> apps[0].id in IdsOf(apps);
  }

  /** What the capture records of an app: the policy's flags, with their defaults, and each of today's tools with the mode it reads today. */
  ghost predicate RecordsApp(app: App, entry: PolicyEntry, current: CurrentPolicy) {
    && app.allowDestructive == entry.allowDestructive
    && (app.allowOpenWorld <==> entry.allowOpenWorld != Some(false))
    && app.destructive == (match entry.destructive
                           case Some(m) => m
                           case None => if entry.allowDestructive then Allow else Deny)
    && app.id in current.toolsByApp && app.tools.Keys == current.toolsByApp[app.id].Keys
    && forall tool :: tool in app.tools ==>
         app.tools[tool] == ReadCurrentTool(current.config, app.id, tool, Some(current.toolsByApp[app.id][tool]), Ceiling(app.destructive)).mode
  }

  /** The capture is exactly the policy's callable apps that have tools today, each as it stands, and fails when there is none. */
  lemma CaptureIsExact(ids: seq<string>, policy: Policy, callable: set<string>, current: CurrentPolicy)
    requires NoDuplicates(ids) && forall id :: id in ids <==> id in policy
    ensures var apps := CaptureApps(ids, policy, callable, current);
            && Captured(policy, callable, current, apps)
            && (forall id :: id in IdsOf(apps) <==> id in policy && id in callable && id in current.toolsByApp)
            && (forall i :: 0 <= i < |apps| ==> apps[i].id in policy && RecordsApp(apps[i], policy[apps[i].id], current))
    ensures Capture(ids, policy, callable, current) ==
            if exists id :: id in policy && id in callable && id in current.toolsByApp
            then Some(CaptureApps(ids, policy, callable, current)) else None
  {
    CaptureAppsAre(ids, policy, callable, current);
    var apps := CaptureApps(ids, policy, callable, current);
    assert IdsOf(apps) == Eligible(policy, callable, current);
    NoIdsNoApps(apps);
    forall i | 0 <= i < |apps| ensures RecordsApp(apps[i], policy[apps[i].id], current) {
      CapturedRecords(apps[i].id, policy[apps[i].id], current);
    }
    if id :| id in policy && id in callable && id in current.toolsByApp {
      assert id in Eligible(policy, callable, current);
    }
  }

  lemma CapturedRecords(id: string, entry: PolicyEntry, current: CurrentPolicy)
    requires id in current.toolsByApp
    ensures RecordsApp(CaptureApp(id, entry, current), entry, current)
  {
  }

  // ----- intersection -----

  datatype ToolPatch = ToolPatch(enabled: bool, mode: ToolMode)

  datatype Narrowed = Narrowed(policy: Policy, tools: map<string, map<string, ToolPatch>>)

  /** The two-way entry of an app that is both stored and in the current policy. */
  function NarrowEntry(now: PolicyEntry, captured: App): PolicyEntry {
    PolicyEntry(
      now.allowDestructive && captured.allowDestructive,
      Some(now.allowOpenWorld != Some(false) && captured.allowOpenWorld),
      Some(Stricter(DefaultMode(now), captured.destructive)))
  }

  /** The job's own tool list: absent, a wildcard, the tool's name, or its canonical name. */
  predicate JobAllows(toolsAllow: Option<set<string>>, tool: string) {
    || toolsAllow.None?
    || "*" in toolsAllow.value
    || tool in toolsAllow.value
    || "codex_apps." + tool in toolsAllow.value
  }

  /** Without a list, and with a wildcard in it, the job allows every tool; else exactly those listed by name or canonical name. */
  lemma JobAllowsIff(toolsAllow: Option<set<string>>, tool: string)
    ensures toolsAllow == None ==> JobAllows(toolsAllow, tool)
    ensures toolsAllow.Some? && "*" in toolsAllow.value ==> JobAllows(toolsAllow, tool)
    ensures toolsAllow.Some? && "*" !in toolsAllow.value ==>
              (JobAllows(toolsAllow, tool) <==> exists name :: name in toolsAllow.value && (name == tool || name == "codex_apps." + tool))
  {
  }

  function PatchTool(captured: App, entry: PolicyEntry, current: CurrentPolicy, toolsAllow: Option<set<string>>, tool: string): ToolPatch
    requires captured.id in current.toolsByApp
  {
    var storedCeiling := Ceiling(captured.destructive);
    var currentCeiling := Ceiling(DefaultMode(entry));
    var capturedMode := if tool in captured.tools then captured.tools[tool] else storedCeiling;
    var meta := MetaOf(current.toolsByApp[captured.id], tool);
    var now := ReadCurrentTool(current.config, captured.id, tool, meta, currentCeiling);
    ToolPatch(
      && now.enabled
      && HintsAllowed(meta, entry.allowDestructive, entry.allowOpenWorld != Some(false))
      && JobAllows(toolsAllow, tool),
      Meet(Meet(capturedMode, storedCeiling), Meet(now.mode, currentCeiling)))
  }

  /** The patch of one app: exactly today's tools. */
  function PatchApp(captured: App, entry: PolicyEntry, current: CurrentPolicy, toolsAllow: Option<set<string>>): map<string, ToolPatch>
    requires captured.id in current.toolsByApp
  {
    map tool | tool in current.toolsByApp[captured.id] :: PatchTool(captured, entry, current, toolsAllow, tool)
  }

  predicate Available(policy: Policy, current: CurrentPolicy, id: string) {
    id in policy && id in current.toolsByApp && current.toolsByApp[id] != map[]
  }

  function Omitted(apps: seq<App>, policy: Policy, current: CurrentPolicy): set<string> {
    set a | a in apps && !Available(policy, current, a.id) :: a.id
  }

  lemma OmittedIsMissing(apps: seq<App>, policy: Policy, current: CurrentPolicy)
    ensures Omitted(apps, policy, current) != {} <==> exists i :: 0 <= i < |apps| && !Available(policy, current, apps[i].id)
  {
    if i :| 0 <= i < |apps| && !Available(policy, current, apps[i].id) {
      assert apps[i].id in Omitted(apps, policy, current);
    }
  }

  /** The omitted ids are those of exactly the stored apps that today's policy does not list or that have no tool today. */
  lemma OmittedAre(apps: seq<App>, policy: Policy, current: CurrentPolicy, id: string)
    ensures id in Omitted(apps, policy, current) <==>
            && (exists i :: 0 <= i < |apps| && apps[i].id == id)
            && !(id in policy && exists tool, meta :: Lookup(current.toolsByApp, id, tool) == Some(meta))
  {
    if id in current.toolsByApp && current.toolsByApp[id] != map[] {
      var tool :| tool in current.toolsByApp[id];
      assert Lookup(current.toolsByApp, id, tool) == Some(current.toolsByApp[id][tool]);
    }
    if i :| 0 <= i < |apps| && apps[i].id == id {
      assert apps[i] in apps;
    }
  }

  /** What the two loops build when no stored app is missing. */
  ghost predicate NarrowedBy(apps: seq<App>, policy: Policy, current: CurrentPolicy, toolsAllow: Option<set<string>>, n: Narrowed) {
    && n.policy.Keys == IdsOf(apps)
    && n.tools.Keys == n.policy.Keys
    && forall i :: 0 <= i < |apps| ==>
         var a := apps[i];
         && Available(policy, current, a.id)
         && a.id in n.policy
         && n.policy[a.id] == NarrowEntry(policy[a.id], a)
         && n.tools[a.id] == PatchApp(a, n.policy[a.id], current, toolsAllow)
  }

  /** The loops over the stored apps, once none of them is missing. */
  method NarrowAll(apps: seq<App>, policy: Policy, current: CurrentPolicy, toolsAllow: Option<set<string>>) returns (n: Narrowed)
    requires DistinctIds(apps)
    requires forall i :: 0 <= i < |apps| ==> Available(policy, current, apps[i].id)
    ensures NarrowedBy(apps, policy, current, toolsAllow, n)
  {
    var narrowed: Policy := map[];
    var tools: map<string, map<string, ToolPatch>> := map[];
    for i := 0 to |apps|
      invariant narrowed.Keys == tools.Keys == IdsOf(apps[..i])
      invariant forall k :: 0 <= k < i ==>
                  && apps[k].id in narrowed
                  && narrowed[apps[k].id] == NarrowEntry(policy[apps[k].id], apps[k])
                  && tools[apps[k].id] == PatchApp(apps[k], narrowed[apps[k].id], current, toolsAllow)
    {
      var a := apps[i];
      var entry := NarrowEntry(policy[a.id], a);
      assert apps[..i + 1] == apps[..i] + [a];
      narrowed := narrowed[a.id := entry];
      tools := tools[a.id := PatchApp(a, entry, current, toolsAllow)];
    }
    assert apps[..|apps|] == apps;
    n := Narrowed(narrowed, tools);
  }

  /** `intersectCodexPluginThreadConfigWithScheduledAuthority` for a parsed authority: the omitted ids, or the narrowed policy. */
  method Intersect(apps: seq<App>, policy: Policy, current: CurrentPolicy, toolsAllow: Option<set<string>>)
    returns (r: Result<Narrowed, set<string>>)
    requires DistinctIds(apps)
    ensures r.Err? <==> exists i :: 0 <= i < |apps| && !Available(policy, current, apps[i].id)
    ensures r.Err? ==> r.error == Omitted(apps, policy, current)
    ensures r.Ok? ==> NarrowedBy(apps, policy, current, toolsAllow, r.value)
  {
    OmittedIsMissing(apps, policy, current);
    var omitted := Omitted(apps, policy, current);
    if omitted != {} {
      return Err(omitted);
    }
    var n := NarrowAll(apps, policy, current, toolsAllow);
    return Ok(n);
  }

  /** What a job's stored authority does to the configuration of its thread. */
  datatype Admission = Refused(reason: ParseError) | Unrestricted | Unavailable(ids: set<string>) | Admitted(narrowed: Narrowed)

  /** `intersectCodexPluginThreadConfigWithScheduledAuthority` as a whole: parse what is stored, then intersect. */
  method IntersectStored(authority: Json, policy: Policy, current: CurrentPolicy, toolsAllow: Option<set<string>>) returns (r: Admission)
    ensures r.Refused? <==> Parse(authority).Err?
    ensures r.Refused? ==> r.reason == Parse(authority).error
    ensures r.Unrestricted? <==> Parse(authority) == Ok(None)
    ensures r.Unavailable? ==> r.ids != {}
    ensures r.Unavailable? || r.Admitted? ==>
              var apps := Parse(authority).value.value.apps;
              if Omitted(apps, policy, current) == {} then r.Admitted? && NarrowedBy(apps, policy, current, toolsAllow, r.narrowed)
              else r == Unavailable(Omitted(apps, policy, current))
  {
    var parsed := ParseAuthority(authority);
    if parsed.Err? {
      return Refused(parsed.error);
    }
    if parsed.value.None? {
      return Unrestricted;
    }
    var apps := parsed.value.value.apps;
    ParsedIdsAreDistinct(authority);
    OmittedIsMissing(apps, policy, current);
    var result := Intersect(apps, policy, current, toolsAllow);
    return if result.Err? then Unavailable(result.error) else Admitted(result.value);
  }
}
