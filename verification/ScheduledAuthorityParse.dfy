/**
 What the parse of a stored authority accepts and rejects, stated on the JSON itself: which fields must hold what, and
 which error a stored value gives that does not.
 */
module ScheduledAuthorityParse {
  import opened Common
  import opened Strings
  import opened ToolPolicy
  import opened ScheduledAuthority

  // ----- what a well-formed authority is -----

  /** The JSON is a string that names this: not empty, and the string but for white space around it. */
  ghost predicate Names(j: Json, name: string) {
    && j.Str? && name != "" && IsTrimmed(name, Space)
    && exists i, k :: IsCore(j.s, Space, name, i, k)
  }

  ghost predicate IsDestructive(j: Json, m: Destructive) {
    match m
    case Deny => j == Str("deny")
    case Ask => j == Str("ask")
    case Auto => j == Str("auto")
    case Allow => j == Str("allow")
  }

  ghost predicate IsToolMode(j: Json, m: ToolMode) {
    match m
    case AutoMode => j == Str("auto")
    case Prompt => j == Str("prompt")
    case Writes => j == Str("writes")
    case Approve => j == Str("approve")
  }

  /** The field names a tool and holds one of the four modes. */
  ghost predicate FieldOk(field: (string, Json)) {
    (exists name :: Names(Str(field.0), name)) && (exists m :: IsToolMode(field.1, m))
  }

  ghost predicate AllModes(fields: seq<(string, Json)>) {
    forall i :: 0 <= i < |fields| ==> FieldOk(fields[i])
  }

  /** A field names this tool. */
  ghost predicate SomeField(fields: seq<(string, Json)>, name: string) {
    exists i :: 0 <= i < |fields| && Names(Str(fields[i].0), name)
  }

  /** Field number i is the last one for this tool, and holds this mode. */
  ghost predicate LastFor(fields: seq<(string, Json)>, i: nat, name: string, m: ToolMode) {
    && i < |fields| && Names(Str(fields[i].0), name) && IsToolMode(fields[i].1, m)
    && forall k :: i < k < |fields| ==> !Names(Str(fields[k].0), name)
  }

  /** The tools are the named ones, each with the mode of its last field. */
  ghost predicate ToolsAre(fields: seq<(string, Json)>, tools: map<string, ToolMode>) {
    && AllModes(fields)
    && (forall name :: name in tools <==> SomeField(fields, name))
    && (forall i, name, m :: LastFor(fields, i, name, m) ==> name in tools && tools[name] == m)
  }

  ghost predicate AppIs(raw: Json, app: App) {
    && Names(Field(raw, "id"), app.id)
    && Field(raw, "allowDestructiveActions") == Bool(app.allowDestructive)
    && Field(raw, "allowOpenWorld") == Bool(app.allowOpenWorld)
    && IsDestructive(Field(raw, "destructiveApprovalMode"), app.destructive)
    && Field(raw, "tools").Obj? && ToolsAre(Field(raw, "tools").fields, app.tools)
  }

  ghost predicate AuthIs(j: Json, auth: Auth) {
    match auth
    case PreparedProfile(profileId, accountId) =>
      && Field(j, "kind") == Undefined
      && Names(Field(j, "profileId"), profileId) && Names(Field(j, "accountId"), accountId)
    case ConfiguredServer(connection, managed) =>
      && Field(j, "kind") == Str("configured-app-server")
      && Names(Field(j, "connectionFingerprint"), connection) && Names(Field(j, "managedRequirementsFingerprint"), managed)
  }

  ghost predicate AppsAre(raw: seq<Json>, apps: seq<App>) {
    |apps| == |raw| && DistinctIds(apps) && forall i :: 0 <= i < |raw| ==> AppIs(raw[i], apps[i])
  }

  ghost predicate PayloadIs(j: Json, p: Payload) {
    && Field(j, "version") == Num(1)
    && AuthIs(Field(j, "auth"), p.auth)
    && Field(j, "apps").Arr? && AppsAre(Field(j, "apps").items, p.apps)
  }

  // ----- the pieces of the parse -----

  lemma OptionalStringIff(j: Json, name: string)
    ensures OptionalString(j) == Some(name) <==> Names(j, name)
  {
    if j.Str? && name != "" {
      TrimIff(j.s, Space, name);
    }
  }

  lemma DestructiveIff(j: Json, m: Destructive)
    ensures ParseDestructive(j) == Some(m) <==> IsDestructive(j, m)
  {
  }

  lemma ToolModeIff(j: Json, m: ToolMode)
    ensures ParseToolMode(j) == Some(m) <==> IsToolMode(j, m)
  {
  }

  lemma AuthIff(j: Json, auth: Auth)
    ensures ParseAuth(j) == Some(auth) <==> AuthIs(j, auth)
  {
    match auth
    case PreparedProfile(profileId, accountId) =>
      OptionalStringIff(Field(j, "profileId"), profileId);
      OptionalStringIff(Field(j, "accountId"), accountId);
    case ConfiguredServer(connection, managed) =>
      OptionalStringIff(Field(j, "connectionFingerprint"), connection);
      OptionalStringIff(Field(j, "managedRequirementsFingerprint"), managed);
  }

  /** One field of the tools is accepted exactly if it names a tool and holds a mode. */
  lemma FieldAccepted(field: (string, Json))
    ensures OptionalString(Str(field.0)).Some? && ParseToolMode(field.1).Some? <==> FieldOk(field)
  {
    if OptionalString(Str(field.0)).Some? && ParseToolMode(field.1).Some? {
      OptionalStringIff(Str(field.0), OptionalString(Str(field.0)).value);
      ToolModeIff(field.1, ParseToolMode(field.1).value);
    }
    if FieldOk(field) {
      var name :| Names(Str(field.0), name);
      var m :| IsToolMode(field.1, m);
      OptionalStringIff(Str(field.0), name);
      ToolModeIff(field.1, m);
    }
  }

  lemma AllModesSplit(front: seq<(string, Json)>, last: (string, Json))
    ensures AllModes(front + [last]) <==> AllModes(front) && FieldOk(last)
  {
    var fields := front + [last];
    assert forall i :: 0 <= i < |front| ==> fields[i] == front[i];
    assert fields[|front|] == last;
  }

  lemma {:induction false} ToolsAcceptedIff(fields: seq<(string, Json)>)
    ensures ParseTools(fields).Some? <==> AllModes(fields)
  {
    if fields != [] {
      var last := |fields| - 1;
      ToolsAcceptedIff(fields[..last]);
      FieldAccepted(fields[last]);
      AllModesSplit(fields[..last], fields[last]);
      assert fields == fields[..last] + [fields[last]];
    }
  }

  lemma SomeFieldSplit(front: seq<(string, Json)>, last: (string, Json), name: string)
    ensures SomeField(front + [last], name) <==> SomeField(front, name) || Names(Str(last.0), name)
  {
    var fields := front + [last];
    assert forall i :: 0 <= i < |front| ==> fields[i] == front[i];
    assert fields[|front|] == last;
  }

  lemma {:induction false} ToolNamesAre(fields: seq<(string, Json)>, name: string)
    requires ParseTools(fields).Some?
    ensures name in ParseTools(fields).value <==> SomeField(fields, name)
  {
    if fields != [] {
      var last := |fields| - 1;
      ToolNamesAre(fields[..last], name);
      OptionalStringIff(Str(fields[last].0), name);
      SomeFieldSplit(fields[..last], fields[last], name);
      assert fields == fields[..last] + [fields[last]];
    }
  }

  lemma {:induction false} LastFieldWins(fields: seq<(string, Json)>, i: nat, name: string, m: ToolMode)
    requires ParseTools(fields).Some? && LastFor(fields, i, name, m)
    ensures name in ParseTools(fields).value && ParseTools(fields).value[name] == m
  {
    var last := |fields| - 1;
    OptionalStringIff(Str(fields[last].0), name);
    if i == last {
      ToolModeIff(fields[last].1, m);
    } else {
      assert forall k :: 0 <= k < last ==> fields[..last][k] == fields[k];
      LastFieldWins(fields[..last], i, name, m);
    }
  }

  lemma LastForInFront(front: seq<(string, Json)>, last: (string, Json), i: nat, name: string, m: ToolMode)
    requires LastFor(front, i, name, m) && !Names(Str(last.0), name)
    ensures LastFor(front + [last], i, name, m)
  {
    assert forall k :: 0 <= k < |front| ==> (front + [last])[k] == front[k];
  }

  /** Some field is the last for a tool that is named at all. */
  lemma {:induction false} LastFieldExists(fields: seq<(string, Json)>, name: string) returns (i: nat, m: ToolMode)
    requires AllModes(fields) && SomeField(fields, name)
    ensures LastFor(fields, i, name, m)
  {
    var front, last := fields[..|fields| - 1], fields[|fields| - 1];
    if Names(Str(last.0), name) {
      i := |fields| - 1;
      assert FieldOk(fields[i]);
      m :| IsToolMode(last.1, m);
    } else {
      assert fields == front + [last];
      SomeFieldSplit(front, last, name);
      AllModesSplit(front, last);
      i, m := LastFieldExists(front, name);
      LastForInFront(front, last, i, name, m);
    }
  }

  lemma ParsedToolsAre(fields: seq<(string, Json)>)
    requires ParseTools(fields).Some?
    ensures ToolsAre(fields, ParseTools(fields).value)
  {
    ToolsAcceptedIff(fields);
    forall name ensures name in ParseTools(fields).value <==> SomeField(fields, name) {
      ToolNamesAre(fields, name);
    }
    forall i: nat, name, m | LastFor(fields, i, name, m)
      ensures name in ParseTools(fields).value && ParseTools(fields).value[name] == m
    {
      LastFieldWins(fields, i, name, m);
    }
  }

  lemma ToolsAreUnique(fields: seq<(string, Json)>, a: map<string, ToolMode>, b: map<string, ToolMode>)
    requires ToolsAre(fields, a) && ToolsAre(fields, b)
    ensures a == b
  {
    assert a.Keys == b.Keys;
    forall name | name in a ensures a[name] == b[name] {
      var i, m := LastFieldExists(fields, name);
    }
  }

  /** The tools of an app parse to a table exactly if that is what they are. */
  lemma ToolsIff(fields: seq<(string, Json)>, tools: map<string, ToolMode>)
    ensures ParseTools(fields) == Some(tools) <==> ToolsAre(fields, tools)
  {
    ToolsAcceptedIff(fields);
    if ParseTools(fields).Some? {
      ParsedToolsAre(fields);
      if ToolsAre(fields, tools) {
        ToolsAreUnique(fields, tools, ParseTools(fields).value);
      }
    }
  }

  lemma AppIff(raw: Json, app: App)
    ensures ParseApp(raw) == Some(app) <==> AppIs(raw, app)
  {
    OptionalStringIff(Field(raw, "id"), app.id);
    DestructiveIff(Field(raw, "destructiveApprovalMode"), app.destructive);
    if Field(raw, "tools").Obj? {
      ToolsIff(Field(raw, "tools").fields, app.tools);
    }
  }

  /** The raw apps parse to these exactly if each is one of them, in order, and no id comes twice. */
  lemma AppsIff(raw: seq<Json>, apps: seq<App>)
    ensures ParsedApps(raw) == Some(apps) <==> AppsAre(raw, apps)
  {
    ParsedAppsMeans(raw, apps);
    if |apps| == |raw| {
      forall i | 0 <= i < |raw| ensures ParseEach(raw)[i] == Some(apps[i]) <==> AppIs(raw[i], apps[i]) {
        AppIff(raw[i], apps[i]);
      }
    }
  }

  // ----- the whole parse -----

  /** A value is of this runtime, version and namespace. */
  ghost predicate HeaderIs(authority: Json) {
    && Field(authority, "runtimeId") == Str("codex")
    && Field(authority, "version") == Num(1)
    && Field(authority, "namespace") == Str("codex.apps")
  }

  /** A stored value gives an authority exactly if it is of this runtime, version and namespace and its payload is that authority. */
  lemma ParseIff(authority: Json, p: Payload)
    ensures Parse(authority) == Ok(Some(p)) <==> HeaderIs(authority) && PayloadIs(Field(authority, "payload"), p)
  {
    var payload := Field(authority, "payload");
    AuthIff(Field(payload, "auth"), p.auth);
    if Field(payload, "apps").Arr? {
      AppsIff(Field(payload, "apps").items, p.apps);
    }
  }

  /** And otherwise exactly the answer that is due: none of this runtime, or the first thing that is wrong. */
  lemma RejectedIff(authority: Json)
    ensures Parse(authority) == Ok(None) <==> Field(authority, "runtimeId") != Str("codex")
    ensures Parse(authority) == Err(UnsupportedVersion) <==>
            Field(authority, "runtimeId") == Str("codex") && Field(authority, "version") != Num(1)
    ensures Parse(authority) == Err(UnsupportedNamespace) <==>
            && Field(authority, "runtimeId") == Str("codex") && Field(authority, "version") == Num(1)
            && Field(authority, "namespace") != Str("codex.apps")
    ensures Parse(authority) == Err(InvalidAuthority) <==>
            HeaderIs(authority) && !exists p :: PayloadIs(Field(authority, "payload"), p)
  {
    if Parse(authority).Ok? && Parse(authority).value.Some? {
      ParseIff(authority, Parse(authority).value.value);
    }
    forall p | HeaderIs(authority) && PayloadIs(Field(authority, "payload"), p) ensures Parse(authority) == Ok(Some(p)) {
      ParseIff(authority, p);
    }
  }

  lemma BadFieldIsNoApp(raw: Json, t: nat, app: App)
    requires Field(raw, "tools").Obj? && t < |Field(raw, "tools").fields| && !FieldOk(Field(raw, "tools").fields[t])
    ensures !AppIs(raw, app)
  {
  }

  /** For one, a tool whose name is blank or whose mode is none of the four makes the whole authority invalid, whatever else it holds. */
  lemma BadToolIsInvalid(authority: Json, a: nat, t: nat)
    requires HeaderIs(authority) && Field(Field(authority, "payload"), "apps").Arr?
    requires var raw := Field(Field(authority, "payload"), "apps").items;
             && a < |raw| && Field(raw[a], "tools").Obj? && t < |Field(raw[a], "tools").fields|
             && !FieldOk(Field(raw[a], "tools").fields[t])
    ensures Parse(authority) == Err(InvalidAuthority)
  {
    var payload := Field(authority, "payload");
    var raw := Field(payload, "apps").items;
    RejectedIff(authority);
    forall p ensures !PayloadIs(payload, p) {
      if a < |p.apps| {
        BadFieldIsNoApp(raw[a], t, p.apps[a]);
      }
    }
  }
}
