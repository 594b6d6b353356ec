/**
 The creator tool surface of `run-attempt-tool-setup.ts`: captured app tools are flattened into paths, their
 canonical names are merged into the list of creator tools in place, and the list is filtered.
 */
module CreatorTools {
  import opened Common
  import GroupNames
  import opened ScheduledAuthority

  const PREFIX := "codex_apps."
  const MCP_PREFIX := "mcp__codex_apps__"

  // ----- flattening -----

  /** A captured tool policy: a mode, or a table of methods. */
  datatype ToolValue = Mode(mode: string) | Table(methods: seq<(string, ToolValue)>) | Other

  /** The tools of one captured app; some entry of the stored payload may not be a table at all. */
  datatype CapturedApp = NoTools | Tools(tools: seq<(string, ToolValue)>)

  function MethodNamed(methods: seq<(string, ToolValue)>, name: string): Option<ToolValue> {
    if methods == [] then None
    else if methods[0].0 == name then Some(methods[0].1)
    else MethodNamed(methods[1..], name)
  }

  /** `isDenied`. */
  predicate Denied(v: ToolValue) {
    match v
    case Mode(m) => m == "deny"
    case Table(methods) => MethodNamed(methods, "mode") == Some(Mode("deny"))
    case Other => false
  }

  predicate StartsWith(s: string, prefix: string) {
    prefix <= s
  }

  /** The name of a captured tool without the canonical prefix. */
  function StripPrefix(name: string): string {
    if StartsWith(name, PREFIX) then name[|PREFIX|..] else name
  }

  predicate SpaceOrStar(c: char) {
    GroupNames.IsSpace(c as int) || c == '*'
  }

  /** The parts between the dots. */
  function Split(path: string): (parts: seq<string>)
    ensures parts != []
  {
    if path == "" then [""]
    else
      var last := path[|path| - 1];
      var before := Split(path[..|path| - 1]);
      if last == '.' then before + [""]
      else before[..|before| - 1] + [before[|before| - 1] + [last]]
  }

  predicate ValidPart(part: string) {
    |part| > 0 && forall i :: 0 <= i < |part| ==> !SpaceOrStar(part[i])
  }

  /** The check of `addPath`: at least two parts, each non-empty and without white space or star. */
  predicate ValidPath(path: string) {
    |Split(path)| >= 2 && AllValid(Split(path))
  }

  predicate AllValid(parts: seq<string>) {
    forall i :: 0 <= i < |parts| ==> ValidPart(parts[i])
  }

  /** The candidate paths of one tool, before `addPath` checks them. */
  function ToolPaths(name: string, value: ToolValue): seq<string> {
    if Denied(value) then []
    else
      var path := StripPrefix(name);
      if '.' in path then [path]
      else if value.Table? then MethodPaths(path, value.methods)
      else []
  }

  function MethodPaths(path: string, methods: seq<(string, ToolValue)>): seq<string> {
    if methods == [] then []
    else
      var last := methods[|methods| - 1];
      MethodPaths(path, methods[..|methods| - 1]) + (if Denied(last.1) then [] else [path + "." + last.0])
  }

  function AppPaths(tools: seq<(string, ToolValue)>): seq<string> {
    if tools == [] then [] else AppPaths(tools[..|tools| - 1]) + ToolPaths(tools[|tools| - 1].0, tools[|tools| - 1].1)
  }

  function AllPaths(apps: seq<CapturedApp>): seq<string> {
    if apps == [] then []
    else
      var last := apps[|apps| - 1];
      AllPaths(apps[..|apps| - 1]) + (if last.Tools? then AppPaths(last.tools) else [])
  }

  /** A JavaScript Set in insertion order: adding a member again changes nothing. */
  function AddPath(paths: seq<string>, path: string): seq<string> {
    if ValidPath(path) && path !in paths then paths + [path] else paths
  }

  function AddPaths(paths: seq<string>, candidates: seq<string>): seq<string> {
    if candidates == [] then paths
    else AddPath(AddPaths(paths, candidates[..|candidates| - 1]), candidates[|candidates| - 1])
  }

  /** `capturedCodexAppToolPaths`. */
  function CapturedPaths(apps: seq<CapturedApp>): seq<string> {
    AddPaths([], AllPaths(apps))
  }

  lemma {:induction false} AddPathsIsASet(paths: seq<string>, candidates: seq<string>)
    requires NoDuplicates(paths)
    ensures NoDuplicates(AddPaths(paths, candidates))
    ensures forall p :: p in AddPaths(paths, candidates) <==> p in paths || (p in candidates && ValidPath(p))
  {
    if candidates != [] {
      var last := |candidates| - 1;
      AddPathsIsASet(paths, candidates[..last]);
      assert candidates == candidates[..last] + [candidates[last]];
    }
  }

  lemma AddPathsStep(paths: seq<string>, candidates: seq<string>, p: string)
    ensures AddPaths(paths, candidates + [p]) == AddPath(AddPaths(paths, candidates), p)
  {
    assert (candidates + [p])[..|candidates + [p]| - 1] == candidates;
  }

  lemma {:induction false} AddPathsAppend(paths: seq<string>, a: seq<string>, b: seq<string>)
    ensures AddPaths(paths, a + b) == AddPaths(AddPaths(paths, a), b)
  {
    if b == [] {
      assert a + b == a;
    } else {
      assert (a + b)[..|a + b| - 1] == a + b[..|b| - 1];
      AddPathsAppend(paths, a, b[..|b| - 1]);
    }
  }

  lemma MethodPathsStep(path: string, methods: seq<(string, ToolValue)>, i: nat)
    requires i < |methods|
    ensures MethodPaths(path, methods[..i + 1]) ==
            if Denied(methods[i].1) then MethodPaths(path, methods[..i])
            else MethodPaths(path, methods[..i]) + [path + "." + methods[i].0]
  {
    assert methods[..i + 1][..i] == methods[..i];
  }

  lemma AppPathsStep(tools: seq<(string, ToolValue)>, i: nat)
    requires i < |tools|
    ensures AppPaths(tools[..i + 1]) == AppPaths(tools[..i]) + ToolPaths(tools[i].0, tools[i].1)
  {
    assert tools[..i + 1][..i] == tools[..i];
  }

  lemma AllPathsStep(apps: seq<CapturedApp>, i: nat)
    requires i < |apps|
    ensures AllPaths(apps[..i + 1]) ==
            if apps[i].Tools? then AllPaths(apps[..i]) + AppPaths(apps[i].tools) else AllPaths(apps[..i])
  {
    assert apps[..i + 1][..i] == apps[..i];
  }

  method FlattenMethods(start: seq<string>, path: string, methods: seq<(string, ToolValue)>) returns (paths: seq<string>)
    ensures paths == AddPaths(start, MethodPaths(path, methods))
  {
    paths := start;
    for i := 0 to |methods|
      invariant paths == AddPaths(start, MethodPaths(path, methods[..i]))
    {
      MethodPathsStep(path, methods, i);
      if !Denied(methods[i].1) {
        AddPathsStep(start, MethodPaths(path, methods[..i]), path + "." + methods[i].0);
        paths := AddPath(paths, path + "." + methods[i].0);
      }
    }
    assert methods[..|methods|] == methods;
  }

  method FlattenTool(start: seq<string>, name: string, value: ToolValue) returns (paths: seq<string>)
    ensures paths == AddPaths(start, ToolPaths(name, value))
  {
    if Denied(value) {
      return start;
    }
    var path := StripPrefix(name);
    if '.' in path {
      AddPathsStep(start, [], path);
      return AddPath(start, path);
    }
    if value.Table? {
      paths := FlattenMethods(start, path, value.methods);
      return;
    }
    return start;
  }

  method FlattenApp(start: seq<string>, tools: seq<(string, ToolValue)>) returns (paths: seq<string>)
    ensures paths == AddPaths(start, AppPaths(tools))
  {
    paths := start;
    for i := 0 to |tools|
      invariant paths == AddPaths(start, AppPaths(tools[..i]))
    {
      AppPathsStep(tools, i);
      AddPathsAppend(start, AppPaths(tools[..i]), ToolPaths(tools[i].0, tools[i].1));
      paths := FlattenTool(paths, tools[i].0, tools[i].1);
    }
    assert tools[..|tools|] == tools;
  }

  /** The flattening loops, adding to one set. */
  method Flatten(apps: seq<CapturedApp>) returns (paths: seq<string>)
    ensures paths == CapturedPaths(apps)
  {
    paths := [];
    for i := 0 to |apps|
      invariant paths == AddPaths([], AllPaths(apps[..i]))
    {
      AllPathsStep(apps, i);
      if apps[i].Tools? {
        AddPathsAppend([], AllPaths(apps[..i]), AppPaths(apps[i].tools));
        paths := FlattenApp(paths, apps[i].tools);
      }
    }
    assert apps[..|apps|] == apps;
  }

  // ----- which paths are captured -----

  ghost predicate CapturedInApp(tools: seq<(string, ToolValue)>, p: string) {
    exists t :: 0 <= t < |tools| && CapturedBy(tools[t].0, tools[t].1, p)
  }

  /** Some app captured this path without denying it: as a dotted tool name, or as a method of a table. */
  ghost predicate CapturedUndenied(apps: seq<CapturedApp>, p: string) {
    exists a :: 0 <= a < |apps| && apps[a].Tools? && CapturedInApp(apps[a].tools, p)
  }

  /** Some method of the table is not denied and makes this path. */
  ghost predicate MethodGives(path: string, methods: seq<(string, ToolValue)>, p: string) {
    exists m :: 0 <= m < |methods| && !Denied(methods[m].1) && p == path + "." + methods[m].0
  }

  ghost predicate CapturedBy(name: string, value: ToolValue, p: string) {
    && !Denied(value)
    && (if '.' in StripPrefix(name) then p == StripPrefix(name)
        else value.Table? && MethodGives(StripPrefix(name), value.methods, p))
  }

  lemma MethodGivesMore(path: string, methods: seq<(string, ToolValue)>, name: string, value: ToolValue, p: string)
    ensures MethodGives(path, methods + [(name, value)], p) <==>
            MethodGives(path, methods, p) || (!Denied(value) && p == path + "." + name)
  {
    var more := methods + [(name, value)];
    if m :| 0 <= m < |methods| && !Denied(methods[m].1) && p == path + "." + methods[m].0 {
      assert more[m] == methods[m];
    }
    assert more[|methods|] == (name, value);
  }

  lemma {:induction false} MethodPathsAre(path: string, methods: seq<(string, ToolValue)>, p: string)
    ensures p in MethodPaths(path, methods) <==> MethodGives(path, methods, p)
  {
    if methods != [] {
      var last := |methods| - 1;
      MethodPathsAre(path, methods[..last], p);
      MethodGivesMore(path, methods[..last], methods[last].0, methods[last].1, p);
      assert methods == methods[..last] + [(methods[last].0, methods[last].1)];
    }
  }

  lemma ToolPathsAre(name: string, value: ToolValue, p: string)
    ensures p in ToolPaths(name, value) <==> CapturedBy(name, value, p)
  {
    if value.Table? {
      MethodPathsAre(StripPrefix(name), value.methods, p);
    }
  }

  lemma CapturedInLongerApp(tools: seq<(string, ToolValue)>, name: string, value: ToolValue, p: string)
    ensures CapturedInApp(tools + [(name, value)], p) <==> CapturedInApp(tools, p) || CapturedBy(name, value, p)
  {
    var longer := tools + [(name, value)];
    if t :| 0 <= t < |tools| && CapturedBy(tools[t].0, tools[t].1, p) {
      assert longer[t] == tools[t];
    }
    assert longer[|tools|] == (name, value);
  }

  lemma {:induction false} AppPathsAre(tools: seq<(string, ToolValue)>, p: string)
    ensures p in AppPaths(tools) <==> CapturedInApp(tools, p)
  {
    if tools != [] {
      var last := |tools| - 1;
      AppPathsAre(tools[..last], p);
      ToolPathsAre(tools[last].0, tools[last].1, p);
      CapturedInLongerApp(tools[..last], tools[last].0, tools[last].1, p);
      assert tools == tools[..last] + [(tools[last].0, tools[last].1)];
    }
  }

  lemma CapturedInMoreApps(apps: seq<CapturedApp>, app: CapturedApp, p: string)
    ensures CapturedUndenied(apps + [app], p) <==> CapturedUndenied(apps, p) || (app.Tools? && CapturedInApp(app.tools, p))
  {
    var more := apps + [app];
    if a :| 0 <= a < |apps| && apps[a].Tools? && CapturedInApp(apps[a].tools, p) {
      assert more[a] == apps[a];
    }
    assert more[|apps|] == app;
  }

  lemma {:induction false} AllPathsAre(apps: seq<CapturedApp>, p: string)
    ensures p in AllPaths(apps) <==> CapturedUndenied(apps, p)
  {
    if apps != [] {
      var last := |apps| - 1;
      AllPathsAre(apps[..last], p);
      if apps[last].Tools? {
        AppPathsAre(apps[last].tools, p);
      }
      CapturedInMoreApps(apps[..last], apps[last], p);
      assert apps == apps[..last] + [apps[last]];
    }
  }

  /** The set of paths is exactly the valid paths some app captured undenied, each once. */
  lemma CapturedPathsAre(apps: seq<CapturedApp>)
    ensures NoDuplicates(CapturedPaths(apps))
    ensures forall p :: p in CapturedPaths(apps) <==> CapturedUndenied(apps, p) && ValidPath(p)
  {
    AddPathsIsASet([], AllPaths(apps));
    forall p {
      AllPathsAre(apps, p);
    }
  }

  lemma {:induction false} AddPathsGrows(paths: seq<string>, candidates: seq<string>)
    ensures paths <= AddPaths(paths, candidates)
  {
    if candidates != [] {
      AddPathsGrows(paths, candidates[..|candidates| - 1]);
    }
  }

  /** The paths stand in the order of their first capture: further apps only add behind. */
  lemma CapturedPathsGrow(apps: seq<CapturedApp>, app: CapturedApp)
    ensures CapturedPaths(apps) <= CapturedPaths(apps + [app])
  {
    var more := apps + [app];
    AllPathsStep(more, |apps|);
    assert more[..|apps| + 1] == more && more[..|apps|] == apps;
    if app.Tools? {
      AddPathsAppend([], AllPaths(apps), AppPaths(app.tools));
      AddPathsGrows(CapturedPaths(apps), AppPaths(app.tools));
    }
  }

  lemma CapturedInOneApp(name: string, value: ToolValue, p: string)
    ensures CapturedInApp([(name, value)], p) <==> CapturedBy(name, value, p)
  {
    CapturedInLongerApp([], name, value, p);
    assert [] + [(name, value)] == [(name, value)];
  }

  /**
   What a tool with a plain mode adds to any authority: its stripped name, if it is not denied and that name is a
   valid path, and nothing else.
   */
  lemma PlainModeAdds(apps: seq<CapturedApp>, name: string, mode: string, p: string)
    ensures p in CapturedPaths(apps + [Tools([(name, Mode(mode))])]) <==>
            p in CapturedPaths(apps) || (mode != "deny" && p == StripPrefix(name) && ValidPath(p))
  {
    var app := Tools([(name, Mode(mode))]);
    CapturedPathsAre(apps);
    CapturedPathsAre(apps + [app]);
    CapturedInMoreApps(apps, app, p);
    CapturedInOneApp(name, Mode(mode), p);
    ValidPathHasADot(p);
  }

  lemma SplitLength(path: string, last: char)
    ensures |Split(path + [last])| == |Split(path)| + (if last == '.' then 1 else 0)
  {
    assert (path + [last])[..|path|] == path;
  }

  lemma {:induction false} SplitCountsDots(path: string)
    ensures |Split(path)| >= 2 <==> '.' in path
  {
    if path != "" {
      var front, last := path[..|path| - 1], path[|path| - 1];
      assert path == front + [last];
      SplitCountsDots(front);
      SplitLength(front, last);
    }
  }

  lemma ValidPathHasADot(path: string)
    ensures ValidPath(path) ==> '.' in path
  {
    SplitCountsDots(path);
  }

  lemma SomeMember<T>(s: seq<T>)
    ensures s != [] <==> exists x :: x in s
  {
    assert s != [] ==> s[0] in s;
  }

  lemma NothingCaptured(p: string)
    ensures !CapturedUndenied([], p)
  {
  }

  /** A tool captured undenied with a plain mode contributes a path if and only if its stripped name is a valid path. */
  lemma PlainModeContributesIff(name: string, mode: string)
    requires mode != "deny"
    ensures CapturedPaths([Tools([(name, Mode(mode))])]) != [] <==> ValidPath(StripPrefix(name))
    ensures CapturedPaths([Tools([(name, Mode(mode))])]) != [] ==> '.' in StripPrefix(name)
  {
    var apps := [Tools([(name, Mode(mode))])];
    assert [] + apps == apps;
    CapturedPathsAre([]);
    SomeMember(CapturedPaths(apps));
    ValidPathHasADot(StripPrefix(name));
    forall p ensures p in CapturedPaths(apps) <==> p == StripPrefix(name) && ValidPath(p) {
      PlainModeAdds([], name, mode, p);
      NothingCaptured(p);
    }
  }

  /** Every tool has a plain mode, and is denied or has a stripped name that is no valid path. */
  ghost predicate AddsNoPath(tools: seq<(string, ToolValue)>) {
    forall t :: 0 <= t < |tools| ==>
      tools[t].1.Mode? && (Denied(tools[t].1) || !ValidPath(StripPrefix(tools[t].0)))
  }

  ghost predicate PlainModes(tools: seq<(string, ToolValue)>) {
    forall t :: 0 <= t < |tools| ==> tools[t].1.Mode?
  }

  lemma PlainAppIff(tools: seq<(string, ToolValue)>)
    requires PlainModes(tools)
    ensures AddsNoPath(tools) <==> forall p :: ValidPath(p) ==> !CapturedInApp(tools, p)
  {
    forall t | 0 <= t < |tools| && !Denied(tools[t].1) && ValidPath(StripPrefix(tools[t].0))
      ensures CapturedInApp(tools, StripPrefix(tools[t].0))
    {
      ValidPathHasADot(StripPrefix(tools[t].0));
      assert CapturedBy(tools[t].0, tools[t].1, StripPrefix(tools[t].0));
    }
  }

  /** An authority of plain modes adds nothing to the surface if and only if none of its undenied tools has a valid path for a name. */
  lemma PlainAuthorityAddsNothingIff(apps: seq<CapturedApp>)
    requires forall a :: 0 <= a < |apps| && apps[a].Tools? ==> PlainModes(apps[a].tools)
    ensures CapturedPaths(apps) == [] <==> forall a :: 0 <= a < |apps| && apps[a].Tools? ==> AddsNoPath(apps[a].tools)
  {
    SomeMember(CapturedPaths(apps));
    CapturedPathsAre(apps);
    forall a | 0 <= a < |apps| && apps[a].Tools?
      ensures AddsNoPath(apps[a].tools) <==> forall p :: ValidPath(p) ==> !CapturedInApp(apps[a].tools, p)
    {
      PlainAppIff(apps[a].tools);
    }
  }

  /** So one whose plain modes stand under undotted names adds nothing. */
  lemma FlatUndottedAuthorityAddsNothing(apps: seq<CapturedApp>)
    requires forall a :: 0 <= a < |apps| && apps[a].Tools? ==> PlainModes(apps[a].tools)
    requires forall a, t :: 0 <= a < |apps| && apps[a].Tools? && 0 <= t < |apps[a].tools| ==> '.' !in StripPrefix(apps[a].tools[t].0)
    ensures CapturedPaths(apps) == []
  {
    PlainAuthorityAddsNothingIff(apps);
    forall a, t | 0 <= a < |apps| && apps[a].Tools? && 0 <= t < |apps[a].tools|
      ensures !ValidPath(StripPrefix(apps[a].tools[t].0))
    {
      ValidPathHasADot(StripPrefix(apps[a].tools[t].0));
    }
  }

  lemma StarIsInvalid(front: string)
    ensures !ValidPath(front + ['*'])
  {
    var path := front + ['*'];
    assert path[..|path| - 1] == front;
    var before := Split(front);
    var part := before[|before| - 1] + ['*'];
    assert Split(path) == before[..|before| - 1] + [part];
    assert Split(path)[|before| - 1] == part && SpaceOrStar(part[|part| - 1]);
  }

  lemma ShortNamesStay(name: string)
    requires |name| < |PREFIX|
    ensures StripPrefix(name) == name
  {
  }

  /** For one, an app that captured `send`, which has no dot, with mode `auto`. */
  lemma UndottedToolIsMissing()
    ensures CapturedPaths([Tools([("send", Mode("auto"))])]) == []
  {
    ShortNamesStay("send");
    ValidPathHasADot("send");
    PlainModeContributesIff("send", "auto");
  }

  /** For another, one that captured `mail.*`, which has a dot and a star. */
  lemma StarredToolIsMissing()
    ensures CapturedPaths([Tools([("mail.*", Mode("auto"))])]) == []
  {
    assert "mail.*" == "mail." + ['*'];
    ShortNamesStay("mail.*");
    StarIsInvalid("mail.");
    PlainModeContributesIff("mail.*", "auto");
  }

  // ----- what makes a path, a denial and a name -----

  ghost predicate CleanChars(path: string) {
    forall i :: 0 <= i < |path| ==> !SpaceOrStar(path[i])
  }

  /** No two dots stand side by side. */
  ghost predicate NoDotPair(path: string) {
    forall i :: 0 <= i < |path| - 1 ==> path[i] != '.' || path[i + 1] != '.'
  }

  /** No part but the last is empty: no dot at the start, and no two dots in a row. */
  ghost predicate NoEmptyFront(path: string) {
    (path != "" ==> path[0] != '.') && NoDotPair(path)
  }

  /** All parts are valid but that the last may be empty. */
  ghost predicate FrontValid(parts: seq<string>)
    requires parts != []
  {
    && (forall i :: 0 <= i < |parts| - 1 ==> ValidPart(parts[i]))
    && CleanChars(parts[|parts| - 1])
  }

  lemma FrontValidDot(before: seq<string>)
    requires before != []
    ensures FrontValid(before + [""]) <==> FrontValid(before) && before[|before| - 1] != ""
  {
    var after := before + [""];
    assert forall i :: 0 <= i < |before| ==> after[i] == before[i];
    if FrontValid(after) {
      assert ValidPart(after[|before| - 1]);
    }
    assert after[|after| - 1] == "";
  }

  lemma FrontValidChar(before: seq<string>, c: char)
    requires before != []
    ensures FrontValid(before[..|before| - 1] + [before[|before| - 1] + [c]]) <==> FrontValid(before) && !SpaceOrStar(c)
  {
    var last := before[|before| - 1];
    var after := before[..|before| - 1] + [last + [c]];
    assert after[|after| - 1] == last + [c];
    assert forall i :: 0 <= i < |before| - 1 ==> after[i] == before[i];
    assert (last + [c])[|last|] == c;
    assert forall i :: 0 <= i < |last| ==> (last + [c])[i] == last[i];
  }

  lemma NextChar(front: string, c: char)
    ensures CleanChars(front + [c]) <==> CleanChars(front) && !SpaceOrStar(c)
  {
    assert (front + [c])[|front|] == c;
    assert forall i :: 0 <= i < |front| ==> (front + [c])[i] == front[i];
  }

  lemma {:induction false} NextPair(front: string, c: char)
    ensures NoDotPair(front + [c]) <==> NoDotPair(front) && (front == "" || front[|front| - 1] != '.' || c != '.')
  {
    var path := front + [c];
    assert forall i :: 0 <= i < |front| ==> path[i] == front[i];
    assert path[|front|] == c;
    assert front != "" ==> path[|front| - 1] == front[|front| - 1];
  }

  lemma {:induction false} NextDot(front: string, c: char)
    ensures NoEmptyFront(front + [c]) <==> NoEmptyFront(front) && (c == '.' ==> front != "" && front[|front| - 1] != '.')
  {
    NextPair(front, c);
    assert (front + [c])[0] == if front == "" then c else front[0];
  }

  lemma {:induction false} SplitNext(front: string, c: char)
    ensures Split(front + [c]) ==
            if c == '.' then Split(front) + [""]
            else Split(front)[..|Split(front)| - 1] + [Split(front)[|Split(front)| - 1] + [c]]
  {
    assert (front + [c])[..|front|] == front;
  }

  /** The front of a path is valid as its characters say. */
  ghost predicate FrontAgrees(path: string) {
    && (FrontValid(Split(path)) <==> CleanChars(path) && NoEmptyFront(path))
    && (Split(path)[|Split(path)| - 1] == "" <==> path == "" || path[|path| - 1] == '.')
  }

  lemma {:induction false} FrontAgreesDot(front: string)
    requires FrontAgrees(front)
    ensures FrontAgrees(front + ['.'])
  {
    SplitNext(front, '.');
    NextChar(front, '.');
    NextDot(front, '.');
    FrontValidDot(Split(front));
    assert (front + ['.'])[|front|] == '.';
  }

  lemma {:induction false} FrontAgreesChar(front: string, c: char)
    requires FrontAgrees(front) && c != '.'
    ensures FrontAgrees(front + [c])
  {
    SplitNext(front, c);
    NextChar(front, c);
    NextDot(front, c);
    FrontValidChar(Split(front), c);
    assert (front + [c])[|front|] == c;
  }

  lemma {:induction false} FrontValidIff(path: string)
    ensures FrontAgrees(path)
  {
    if path != "" {
      var front, c := path[..|path| - 1], path[|path| - 1];
      FrontValidIff(front);
      if c == '.' { FrontAgreesDot(front); } else { FrontAgreesChar(front, c); }
      assert path == front + [c];
    }
  }

  /** A path is valid exactly if it has a dot, none at either end, no two in a row, and neither white space nor a star. */
  lemma {:induction false} ValidPathIff(path: string)
    ensures ValidPath(path) <==>
            '.' in path && NoEmptyFront(path) && path[|path| - 1] != '.' && CleanChars(path)
  {
    SplitCountsDots(path);
    FrontValidIff(path);
    AllValidIff(Split(path));
  }

  lemma AllValidIff(parts: seq<string>)
    requires parts != []
    ensures AllValid(parts) <==> FrontValid(parts) && parts[|parts| - 1] != ""
  {
    var last := |parts| - 1;
    assert ValidPart(parts[last]) <==> parts[last] != "" && CleanChars(parts[last]);
    if FrontValid(parts) && parts[last] != "" {
      forall i | 0 <= i < |parts| ensures ValidPart(parts[i]) {
        assert i < last || i == last;
      }
    }
  }

  /** A mode denies if it is `deny`, a table if its field `mode` is; nothing else does. */
  lemma DeniedIff(value: ToolValue)
    requires value.Table? ==> forall i, j :: 0 <= i < j < |value.methods| ==> value.methods[i].0 != value.methods[j].0
    ensures Denied(value) <==>
            match value
            case Mode(m) => m == "deny"
            case Table(methods) => ("mode", Mode("deny")) in methods
            case Other => false
  {
    if value.Table? {
      MethodNamedIff(value.methods, "mode");
    }
  }

  lemma {:induction false} MethodNamedIff(methods: seq<(string, ToolValue)>, name: string)
    requires forall i, j :: 0 <= i < j < |methods| ==> methods[i].0 != methods[j].0
    ensures forall v :: MethodNamed(methods, name) == Some(v) <==> (name, v) in methods
  {
    if methods != [] {
      MethodNamedIff(methods[1..], name);
      assert methods == [methods[0]] + methods[1..];
      assert forall v :: (methods[0].0, v) !in methods[1..];
    }
  }

  /** The prefix goes if it is there, and nothing else does. */
  lemma StripPrefixIs(name: string)
    ensures StripPrefix("codex_apps." + name) == name
    ensures !("codex_apps." <= name) ==> StripPrefix(name) == name
  {
    assert ("codex_apps." + name)[|PREFIX|..] == name;
  }

  // ----- merging into the creator's list -----

  /** An entry of the list: a bare name, or a record. An absent alias and an empty one count alike. */
  datatype Entry = Bare(name: string) | Record(name: string, plugin: Option<string>, alias: string)

  function Canonical(path: string): string {
    PREFIX + path
  }

  function Underscored(path: string): string {
    if path == "" then "" else Underscored(path[..|path| - 1]) + [if path[|path| - 1] == '.' then '_' else path[|path| - 1]]
  }

  /** `mcp__codex_apps__` and the path with its dots replaced. */
  function AliasOf(path: string): string {
    MCP_PREFIX + Underscored(path)
  }

  /** The first entry with this name, -1 if there is none. */
  method FindIndex(tools: seq<Entry>, name: string) returns (index: int)
    ensures -1 <= index < |tools|
    ensures index >= 0 ==> tools[index].name == name && forall k :: 0 <= k < index ==> tools[k].name != name
    ensures index < 0 ==> forall k :: 0 <= k < |tools| ==> tools[k].name != name
  {
    for k := 0 to |tools|
      invariant forall j :: 0 <= j < k ==> tools[j].name != name
    {
      if tools[k].name == name {
        return k;
      }
    }
    return -1;
  }

  /** What merging one path does to the entry it finds. */
  function WithAlias(e: Entry, path: string): Entry {
    match e
    case Bare(name) => Record(name, None, AliasOf(path))
    case Record(name, plugin, alias) => if alias == "" then Record(name, plugin, AliasOf(path)) else e
  }

  /** The alias is the fixed prefix and the path with an underscore for each dot. */
  lemma AliasIs(path: string)
    ensures AliasOf(path) == "mcp__codex_apps__" + Underscored(path) && Canonical(path) == "codex_apps." + path
    ensures |Underscored(path)| == |path|
    ensures forall i :: 0 <= i < |path| ==> Underscored(path)[i] == if path[i] == '.' then '_' else path[i]
  {
    UnderscoredAt(path);
  }

  lemma {:induction false} UnderscoredAt(path: string)
    ensures |Underscored(path)| == |path|
    ensures forall i :: 0 <= i < |path| ==> Underscored(path)[i] == if path[i] == '.' then '_' else path[i]
  {
    if path != "" {
      UnderscoredAt(path[..|path| - 1]);
    }
  }

  /** An entry that gains its alias keeps its name, its plugin and any alias it has. */
  lemma WithAliasIs(e: Entry, path: string)
    ensures var r := WithAlias(e, path);
            && r.Record? && r.name == e.name
            && r.plugin == (if e.Record? then e.plugin else None)
            && r.alias == (if e.Record? && e.alias != "" then e.alias else AliasOf(path))
  {
  }

  predicate UniqueNames(tools: seq<Entry>) {
    forall i, j :: 0 <= i < j < |tools| ==> tools[i].name != tools[j].name
  }

  ghost predicate GainedAlias(before: Entry, after: Entry, paths: seq<string>) {
    exists p :: p in paths && before.name == Canonical(p) && after == WithAlias(before, p)
  }

  ghost predicate IsRecordOf(e: Entry, paths: seq<string>) {
    exists p :: p in paths && e == Record(Canonical(p), None, AliasOf(p))
  }

  /** Each old entry is still in its place, changed at most by gaining an alias for its own canonical name. */
  ghost predicate KeepsPlaces(before: seq<Entry>, after: seq<Entry>, paths: seq<string>) {
    |before| <= |after| && forall i :: 0 <= i < |before| ==> after[i] == before[i] || GainedAlias(before[i], after[i], paths)
  }

  /** Each new entry is the record of one captured path. */
  ghost predicate AppendsRecords(before: seq<Entry>, after: seq<Entry>, paths: seq<string>) {
    forall i :: |before| <= i < |after| ==> IsRecordOf(after[i], paths)
  }

  /** The records of paths, in order. */
  function Records(paths: seq<string>): seq<Entry> {
    if paths == [] then []
    else
      var last := paths[|paths| - 1];
      Records(paths[..|paths| - 1]) + [Record(Canonical(last), None, AliasOf(last))]
  }

  ghost predicate Named(tools: seq<Entry>, path: string) {
    exists i :: 0 <= i < |tools| && tools[i].name == Canonical(path)
  }

  /** Those of the first n paths whose canonical name is not in the list yet, in order. */
  ghost function Missing(tools: seq<Entry>, paths: seq<string>, n: nat): seq<string>
    requires n <= |paths|
  {
    if n == 0 then []
    else if Named(tools, paths[n - 1]) then Missing(tools, paths, n - 1)
    else Missing(tools, paths, n - 1) + [paths[n - 1]]
  }

  lemma RecordsNext(paths: seq<string>, path: string)
    ensures Records(paths + [path]) == Records(paths) + [Record(Canonical(path), None, AliasOf(path))]
  {
    assert (paths + [path])[..|paths|] == paths;
  }

  lemma {:induction false} RecordNames(paths: seq<string>, path: string)
    ensures Named(Records(paths), path) <==> path in paths
  {
    if paths != [] {
      var front, last := paths[..|paths| - 1], paths[|paths| - 1];
      RecordNames(front, path);
      CanonicalIsInjective(path, last);
      assert paths == front + [last];
      RecordsNext(front, last);
      var record := Record(Canonical(last), None, AliasOf(last));
      NamedSplit(Records(front), [record], path);
      assert [record][0] == record;
    }
  }

  lemma NamedSplit(a: seq<Entry>, b: seq<Entry>, path: string)
    ensures Named(a + b, path) <==> Named(a, path) || Named(b, path)
  {
    assert forall i :: 0 <= i < |a| ==> (a + b)[i] == a[i];
    assert forall i :: 0 <= i < |b| ==> (a + b)[|a| + i] == b[i];
  }

  lemma {:induction false} MissingSubset(tools: seq<Entry>, paths: seq<string>, n: nat, path: string)
    requires n <= |paths|
    ensures path in Missing(tools, paths, n) <==> path in paths[..n] && !Named(tools, path)
  {
    if n > 0 {
      MissingSubset(tools, paths, n - 1, path);
      assert paths[..n] == paths[..n - 1] + [paths[n - 1]];
    }
  }

  /** The path's canonical name is in the list, with some alias. */
  predicate Present(tools: seq<Entry>, path: string) {
    exists i :: 0 <= i < |tools| && tools[i].name == Canonical(path) && tools[i].Record? && tools[i].alias != ""
  }

  lemma CanonicalIsInjective(p: string, q: string)
    ensures Canonical(p) == Canonical(q) <==> p == q
  {
    assert Canonical(p)[|PREFIX|..] == p;
    assert Canonical(q)[|PREFIX|..] == q;
  }

  /** What a turn for this path makes of the list: a record behind it if the name was missing, else an alias for the first entry of that name. */
  ghost predicate Turned(r: seq<Entry>, next: seq<Entry>, path: string) {
    || (!Named(r, path) && next == r + [Record(Canonical(path), None, AliasOf(path))])
    || exists i :: 0 <= i < |r| && r[i].name == Canonical(path) && (forall j :: 0 <= j < i ==> r[j].name != Canonical(path))
                   && next == r[i := WithAlias(r[i], path)]
  }

  /** The place of the first entry with this name, or the end. */
  function FirstNamed(tools: seq<Entry>, name: string): (i: nat)
    ensures i <= |tools|
  {
    if tools == [] || tools[0].name == name then 0 else 1 + FirstNamed(tools[1..], name)
  }

  lemma {:induction false} FirstNamedIs(tools: seq<Entry>, name: string, i: nat)
    requires i <= |tools| && (i < |tools| ==> tools[i].name == name) && forall j :: 0 <= j < i ==> tools[j].name != name
    ensures FirstNamed(tools, name) == i
  {
    if i > 0 {
      assert tools[1..] != [] || i == 1;
      FirstNamedIs(tools[1..], name, i - 1);
    }
  }

  lemma {:induction false} FirstNamedFinds(tools: seq<Entry>, name: string)
    ensures var i := FirstNamed(tools, name);
            (i < |tools| ==> tools[i].name == name) && forall j :: 0 <= j < i ==> tools[j].name != name
  {
    if tools != [] && tools[0].name != name {
      FirstNamedFinds(tools[1..], name);
      assert forall j :: 1 <= j < |tools| ==> tools[j] == tools[1..][j - 1];
    }
  }

  /** One turn of the loop, as a function. */
  function TurnOf(tools: seq<Entry>, path: string): seq<Entry> {
    var i := FirstNamed(tools, Canonical(path));
    if i == |tools| then tools + [Record(Canonical(path), None, AliasOf(path))] else tools[i := WithAlias(tools[i], path)]
  }

  lemma TurnOfTurns(tools: seq<Entry>, path: string)
    ensures Turned(tools, TurnOf(tools, path), path)
  {
    FirstNamedFinds(tools, Canonical(path));
  }

  /** One turn of the loop at 701-717: edits the list in place or pushes a record. */
  method MergePath(tools: seq<Entry>, path: string) returns (r: seq<Entry>)
    ensures r == TurnOf(tools, path)
    ensures Turned(tools, r, path)
  {
    TurnOfTurns(tools, path);
    var existingIndex := FindIndex(tools, Canonical(path));
    FirstNamedIs(tools, Canonical(path), if existingIndex < 0 then |tools| else existingIndex);
    if existingIndex < 0 {
      return tools + [Record(Canonical(path), None, AliasOf(path))];
    }
    return tools[existingIndex := WithAlias(tools[existingIndex], path)];
  }

  /**
   What the merge of the first k paths makes of the list: old entries stay in place but for their own alias, what is new
   are records of paths, names that were unique stay so, each of the paths is present, and the records are exactly
   those of the paths that were missing, in order.
   */
  ghost predicate MergedUpTo(tools: seq<Entry>, r: seq<Entry>, paths: seq<string>, k: nat)
    requires k <= |paths|
  {
    && KeepsPlaces(tools, r, paths)
    && AppendsRecords(tools, r, paths)
    && (UniqueNames(tools) ==> UniqueNames(r))
    && (forall j :: 0 <= j < k ==> Present(r, paths[j]))
    && (NoDuplicates(paths) ==> r[|tools|..] == Records(Missing(tools, paths, k)))
  }

  /** The list after turns for the first k paths, one after the other. */
  function MergeAll(tools: seq<Entry>, paths: seq<string>, k: nat): seq<Entry>
    requires k <= |paths|
  {
    if k == 0 then tools else TurnOf(MergeAll(tools, paths, k - 1), paths[k - 1])
  }

  /** The whole merge loop. */
  method Merge(tools: seq<Entry>, paths: seq<string>) returns (r: seq<Entry>)
    ensures r == MergeAll(tools, paths, |paths|)
  {
    r := tools;
    for k := 0 to |paths|
      invariant r == MergeAll(tools, paths, k)
    {
      r := MergePath(r, paths[k]);
    }
  }

  lemma TurnedKeepsUnique(r: seq<Entry>, next: seq<Entry>, path: string)
    requires Turned(r, next, path) && UniqueNames(r)
    ensures UniqueNames(next)
  {
    TurnedIs(r, next, path);
    if |r| < |next| {
      assert forall i :: 0 <= i < |r| ==> next[i] == r[i] && r[i].name != Canonical(path);
    } else {
      assert forall i :: 0 <= i < |r| ==> next[i].name == r[i].name;
    }
  }

  lemma PresentAt(next: seq<Entry>, i: nat, path: string)
    requires i < |next| && next[i].name == Canonical(path) && next[i].Record? && next[i].alias != ""
    ensures Present(next, path)
  {
  }

  lemma TurnedIsPresent(r: seq<Entry>, next: seq<Entry>, path: string)
    requires Turned(r, next, path)
    ensures Present(next, path)
  {
    AliasIsNotEmpty(path);
    if |next| == |r| + 1 {
      PresentAt(next, |r|, path);
    } else {
      var i :| 0 <= i < |r| && r[i].name == Canonical(path) && next == r[i := WithAlias(r[i], path)];
      WithAliasIs(r[i], path);
      PresentAt(next, i, path);
    }
  }

  lemma AliasIsNotEmpty(path: string)
    ensures AliasOf(path) != ""
  {
    assert AliasOf(path)[0] == 'm';
  }

  lemma PresentNext(r: seq<Entry>, next: seq<Entry>, paths: seq<string>, k: nat)
    requires k < |paths| && Turned(r, next, paths[k]) && forall j :: 0 <= j < k ==> Present(r, paths[j])
    ensures forall j :: 0 <= j < k + 1 ==> Present(next, paths[j])
  {
    TurnedIsPresent(r, next, paths[k]);
    TurnedIs(r, next, paths[k]);
    forall j | 0 <= j < k ensures Present(next, paths[j]) {
      PresentStays(r, next, paths[k], paths[j]);
    }
  }

  lemma PlacesNext(tools: seq<Entry>, r: seq<Entry>, next: seq<Entry>, paths: seq<string>, k: nat)
    requires k < |paths| && KeepsPlaces(tools, r, paths) && AppendsRecords(tools, r, paths) && Turned(r, next, paths[k])
    ensures KeepsPlaces(tools, next, paths) && AppendsRecords(tools, next, paths)
  {
    TurnedIs(r, next, paths[k]);
    MergedOnce(tools, r, next, paths, k);
  }

  lemma OrderNext(tools: seq<Entry>, r: seq<Entry>, next: seq<Entry>, paths: seq<string>, k: nat)
    requires k < |paths| && KeepsPlaces(tools, r, paths) && Turned(r, next, paths[k]) && NoDuplicates(paths)
    requires r[|tools|..] == Records(Missing(tools, paths, k))
    ensures |tools| <= |next| && next[|tools|..] == Records(Missing(tools, paths, k + 1))
  {
    TurnedIs(r, next, paths[k]);
    FreshPath(paths, k);
    KeptPlacesKeepNames(tools, r, paths);
    NextAppended(tools, r, next, paths, k);
  }

  lemma NothingMergedYet(tools: seq<Entry>, paths: seq<string>)
    ensures MergedUpTo(tools, tools, paths, 0)
  {
    assert tools[|tools|..] == [];
  }

  lemma NextMerged(tools: seq<Entry>, r: seq<Entry>, next: seq<Entry>, paths: seq<string>, k: nat)
    requires k < |paths| && MergedUpTo(tools, r, paths, k) && Turned(r, next, paths[k])
    ensures MergedUpTo(tools, next, paths, k + 1)
  {
    PlacesNext(tools, r, next, paths, k);
    PresentNext(r, next, paths, k);
    if UniqueNames(tools) { TurnedKeepsUnique(r, next, paths[k]); }
    if NoDuplicates(paths) { OrderNext(tools, r, next, paths, k); }
  }

  lemma MergeAllNext(tools: seq<Entry>, paths: seq<string>, before: nat, k: nat)
    requires k == before + 1 && k <= |paths| && MergedUpTo(tools, MergeAll(tools, paths, before), paths, before)
    ensures MergedUpTo(tools, MergeAll(tools, paths, k), paths, k)
  {
    var r := MergeAll(tools, paths, before);
    TurnOfTurns(r, paths[before]);
    NextMerged(tools, r, TurnOf(r, paths[before]), paths, before);
  }

  /** One after the other, the turns make of the list what the merge promises. */
  lemma {:induction false} MergeAllMeans(tools: seq<Entry>, paths: seq<string>, k: nat)
    requires k <= |paths|
    ensures MergedUpTo(tools, MergeAll(tools, paths, k), paths, k)
  {
    if k == 0 {
      NothingMergedYet(tools, paths);
    } else {
      MergeAllMeans(tools, paths, k - 1);
      MergeAllNext(tools, paths, k - 1, k);
    }
  }

  /** The old entries keep their names. */
  ghost predicate KeepsNames(tools: seq<Entry>, r: seq<Entry>) {
    |tools| <= |r| && forall i :: 0 <= i < |tools| ==> r[i].name == tools[i].name
  }

  lemma KeptPlacesKeepNames(tools: seq<Entry>, r: seq<Entry>, paths: seq<string>)
    requires KeepsPlaces(tools, r, paths)
    ensures KeepsNames(tools, r)
  {
  }

  /** So what is named is what was, and what was appended. */
  lemma NamedInMerged(tools: seq<Entry>, r: seq<Entry>, added: seq<string>, path: string)
    requires KeepsNames(tools, r) && r[|tools|..] == Records(added)
    ensures Named(r, path) <==> Named(tools, path) || path in added
  {
    assert r == r[..|tools|] + r[|tools|..];
    NamedSplit(r[..|tools|], r[|tools|..], path);
    RecordNames(added, path);
    assert forall i :: 0 <= i < |tools| ==> r[..|tools|][i].name == tools[i].name;
  }

  lemma PushedBehind(tools: seq<Entry>, r: seq<Entry>, e: Entry)
    requires |tools| <= |r|
    ensures (r + [e])[|tools|..] == r[|tools|..] + [e]
  {
  }

  lemma NothingAppended(tools: seq<Entry>, r: seq<Entry>, next: seq<Entry>, path: string)
    requires |tools| <= |r| == |next|
    requires forall i :: 0 <= i < |r| ==> next[i] == r[i] || r[i].name == Canonical(path)
    requires forall i :: 0 <= i < |r[|tools|..]| ==> r[|tools|..][i].name != Canonical(path)
    ensures next[|tools|..] == r[|tools|..]
  {
    forall i | 0 <= i < |r| - |tools| ensures next[|tools|..][i] == r[|tools|..][i] {
      assert r[|tools|..][i] == r[|tools| + i];
    }
  }

  lemma TurnedIs(r: seq<Entry>, next: seq<Entry>, path: string)
    requires Turned(r, next, path)
    ensures |r| <= |next| <= |r| + 1
    ensures forall i :: 0 <= i < |r| ==> next[i] == r[i] || (r[i].name == Canonical(path) && next[i] == WithAlias(r[i], path))
    ensures |r| < |next| ==> !Named(r, path) && next == r + [Record(Canonical(path), None, AliasOf(path))]
    ensures |r| == |next| ==> Named(r, path)
  {
  }

  lemma AppendedInOrder(tools: seq<Entry>, r: seq<Entry>, next: seq<Entry>, added: seq<string>, path: string)
    requires KeepsNames(tools, r) && r[|tools|..] == Records(added) && path !in added
    requires Turned(r, next, path)
    ensures next[|tools|..] == Records(if Named(tools, path) then added else added + [path])
  {
    NamedInMerged(tools, r, added, path);
    TurnedIs(r, next, path);
    if |r| == |next| {
      NotAmongAppended(r[|tools|..], added, path);
      NothingAppended(tools, r, next, path);
    } else {
      RecordsNext(added, path);
      PushedBehind(tools, r, Record(Canonical(path), None, AliasOf(path)));
    }
  }

  lemma FreshPath(paths: seq<string>, k: nat)
    requires k < |paths| && NoDuplicates(paths)
    ensures paths[k] !in paths[..k]
  {
  }

  lemma NextAppended(tools: seq<Entry>, r: seq<Entry>, next: seq<Entry>, paths: seq<string>, k: nat)
    requires k < |paths| && paths[k] !in paths[..k] && KeepsNames(tools, r)
    requires r[|tools|..] == Records(Missing(tools, paths, k)) && Turned(r, next, paths[k])
    ensures next[|tools|..] == Records(Missing(tools, paths, k + 1))
  {
    MissingSubset(tools, paths, k, paths[k]);
    AppendedInOrder(tools, r, next, Missing(tools, paths, k), paths[k]);
  }

  lemma NotAmongAppended(records: seq<Entry>, added: seq<string>, path: string)
    requires records == Records(added) && path !in added
    ensures forall i :: 0 <= i < |records| ==> records[i].name != Canonical(path)
  {
    RecordNames(added, path);
    assert !Named(records, path);
  }

  lemma PresentStays(r: seq<Entry>, next: seq<Entry>, path: string, other: string)
    requires Present(r, other)
    requires |r| <= |next| && forall i :: 0 <= i < |r| ==> next[i] == r[i] || next[i] == WithAlias(r[i], path)
    ensures Present(next, other)
  {
    var i :| 0 <= i < |r| && r[i].name == Canonical(other) && r[i].Record? && r[i].alias != "";
    assert next[i].name == Canonical(other);
  }

  /** An entry that gained its alias does not change again. */
  lemma WithAliasAgain(original: Entry, e: Entry, paths: seq<string>, path: string)
    requires e == original || GainedAlias(original, e, paths)
    requires e.name == Canonical(path) && path in paths
    ensures GainedAlias(original, WithAlias(e, path), paths)
  {
    if e != original {
      var p :| p in paths && original.name == Canonical(p) && e == WithAlias(original, p);
      CanonicalIsInjective(p, path);
    }
  }

  lemma MergedOnce(tools: seq<Entry>, r: seq<Entry>, next: seq<Entry>, paths: seq<string>, k: nat)
    requires k < |paths|
    requires KeepsPlaces(tools, r, paths) && AppendsRecords(tools, r, paths)
    requires |r| <= |next| <= |r| + 1
    requires forall i :: 0 <= i < |r| ==> next[i] == r[i] || (r[i].name == Canonical(paths[k]) && next[i] == WithAlias(r[i], paths[k]))
    requires |r| < |next| ==> next[|r|] == Record(Canonical(paths[k]), None, AliasOf(paths[k]))
    ensures KeepsPlaces(tools, next, paths) && AppendsRecords(tools, next, paths)
  {
    forall i | 0 <= i < |tools| ensures next[i] == tools[i] || GainedAlias(tools[i], next[i], paths) {
      if next[i] != r[i] {
        WithAliasAgain(tools[i], r[i], paths, paths[k]);
      }
    }
    forall i | |tools| <= i < |next| ensures IsRecordOf(next[i], paths) {
      if i < |r| {
        assert IsRecordOf(r[i], paths);
        assert next[i] == r[i];
      }
    }
  }

  // ----- the filter -----

  predicate IsCodexName(name: string) {
    StartsWith(name, PREFIX) || StartsWith(name, MCP_PREFIX)
  }

  /** `capturedCodexAppToolNames`. */
  predicate CapturedName(paths: seq<string>, name: string) {
    exists i :: 0 <= i < |paths| && (name == Canonical(paths[i]) || name == AliasOf(paths[i]))
  }

  /** The filter's test: other tools stay, a Codex tool needs its name or alias among the captured ones. */
  predicate KeepEntry(paths: seq<string>, e: Entry) {
    || !IsCodexName(e.name)
    || CapturedName(paths, e.name)
    || (e.Record? && CapturedName(paths, e.alias))
  }

  function Filter(tools: seq<Entry>, paths: seq<string>): seq<Entry> {
    if tools == [] then []
    else
      var last := tools[|tools| - 1];
      if KeepEntry(paths, last) then Filter(tools[..|tools| - 1], paths) + [last] else Filter(tools[..|tools| - 1], paths)
  }

  lemma {:induction false} FilterMembers(tools: seq<Entry>, paths: seq<string>)
    ensures forall e :: e in Filter(tools, paths) <==> e in tools && KeepEntry(paths, e)
  {
    if tools != [] {
      FilterMembers(tools[..|tools| - 1], paths);
      assert tools == tools[..|tools| - 1] + [tools[|tools| - 1]];
    }
  }

  lemma {:induction false} FilterKeepsUnique(tools: seq<Entry>, paths: seq<string>)
    requires UniqueNames(tools)
    ensures UniqueNames(Filter(tools, paths))
  {
    if tools != [] {
      var last := |tools| - 1;
      FilterKeepsUnique(tools[..last], paths);
      FilterMembers(tools[..last], paths);
      var before := Filter(tools[..last], paths);
      forall i | 0 <= i < |before| ensures before[i].name != tools[last].name {
        assert before[i] in before;
        assert before[i] in tools[..last];
      }
    }
  }

  /** The filter keeps what it keeps in place: it works entry by entry. */
  lemma {:induction false} FilterIsEntrywise(a: seq<Entry>, b: seq<Entry>, paths: seq<string>)
    ensures Filter(a + b, paths) == Filter(a, paths) + Filter(b, paths)
    ensures b == [] ==> Filter(b, paths) == []
    ensures |b| == 1 ==> Filter(b, paths) == if KeepEntry(paths, b[0]) then b else []
  {
    if b == [] {
      assert a + b == a;
    } else {
      var last := |b| - 1;
      FilterIsEntrywise(a, b[..last], paths);
      assert (a + b)[..|a + b| - 1] == a + b[..last];
    }
  }

  /** The test of the filter in full: a name with neither prefix, or one, as name or as alias, of a captured path. */
  lemma KeepEntryIff(paths: seq<string>, e: Entry)
    ensures KeepEntry(paths, e) <==>
            || (!("codex_apps." <= e.name) && !("mcp__codex_apps__" <= e.name))
            || (exists p :: p in paths && NamesPath(e.name, p))
            || (e.Record? && exists p :: p in paths && NamesPath(e.alias, p))
  {
    CapturedNameIff(paths, e.name);
    if e.Record? {
      CapturedNameIff(paths, e.alias);
    }
  }

  /** The name is the canonical one of the path, or its alias. */
  predicate NamesPath(name: string, path: string) {
    name == "codex_apps." + path || name == "mcp__codex_apps__" + Underscored(path)
  }

  lemma CapturedNameIff(paths: seq<string>, name: string)
    ensures CapturedName(paths, name) <==> exists p :: p in paths && NamesPath(name, p)
  {
    if i :| 0 <= i < |paths| && (name == Canonical(paths[i]) || name == AliasOf(paths[i])) {
      assert NamesPath(name, paths[i]);
    }
    if p :| p in paths && NamesPath(name, p) {
      var i :| 0 <= i < |paths| && paths[i] == p;
      assert name == Canonical(paths[i]) || name == AliasOf(paths[i]);
    }
  }

  /** The entries of other tools, in order. */
  function NonCodex(tools: seq<Entry>): seq<Entry> {
    if tools == [] then []
    else
      var last := tools[|tools| - 1];
      if IsCodexName(last.name) then NonCodex(tools[..|tools| - 1]) else NonCodex(tools[..|tools| - 1]) + [last]
  }

  lemma {:induction false} FilterKeepsNonCodex(tools: seq<Entry>, paths: seq<string>)
    ensures NonCodex(Filter(tools, paths)) == NonCodex(tools)
  {
    if tools != [] {
      var last := tools[|tools| - 1];
      var before := Filter(tools[..|tools| - 1], paths);
      FilterKeepsNonCodex(tools[..|tools| - 1], paths);
      if KeepEntry(paths, last) {
        assert (before + [last])[..|before|] == before;
      }
    }
  }

  lemma NonCodexNext(s: seq<Entry>, n: nat)
    requires n < |s|
    ensures NonCodex(s[..n + 1]) == NonCodex(s[..n]) + (if IsCodexName(s[n].name) then [] else [s[n]])
  {
    assert s[..n + 1][..n] == s[..n];
  }

  /** The merge touches, and adds, only Codex entries. */
  ghost predicate ChangesOnlyCodex(tools: seq<Entry>, merged: seq<Entry>) {
    && |tools| <= |merged|
    && (forall i :: 0 <= i < |tools| ==> merged[i] == tools[i] || (IsCodexName(tools[i].name) && IsCodexName(merged[i].name)))
    && (forall i :: |tools| <= i < |merged| ==> IsCodexName(merged[i].name))
  }

  lemma MergeChangesOnlyCodex(tools: seq<Entry>, merged: seq<Entry>, paths: seq<string>)
    requires KeepsPlaces(tools, merged, paths) && AppendsRecords(tools, merged, paths)
    ensures ChangesOnlyCodex(tools, merged)
  {
  }

  lemma OldEntryKeepsNonCodex(tools: seq<Entry>, merged: seq<Entry>, n: nat)
    requires n < |tools| <= |merged| && NonCodex(merged[..n]) == NonCodex(tools[..n])
    requires merged[n] == tools[n] || (IsCodexName(tools[n].name) && IsCodexName(merged[n].name))
    ensures NonCodex(merged[..n + 1]) == NonCodex(tools[..n + 1])
  {
    NonCodexNext(merged, n);
    NonCodexNext(tools, n);
  }

  lemma {:induction false} OldEntriesKeepNonCodex(tools: seq<Entry>, merged: seq<Entry>, n: nat)
    requires ChangesOnlyCodex(tools, merged) && n <= |tools|
    ensures NonCodex(merged[..n]) == NonCodex(tools[..n])
  {
    if n == 0 {
      assert merged[..0] == tools[..0];
    } else {
      OldEntriesKeepNonCodex(tools, merged, n - 1);
      OldEntryKeepsNonCodex(tools, merged, n - 1);
    }
  }

  lemma {:induction false} MergeKeepsNonCodex(tools: seq<Entry>, merged: seq<Entry>, n: nat)
    requires ChangesOnlyCodex(tools, merged) && |tools| <= n <= |merged|
    ensures NonCodex(merged[..n]) == NonCodex(tools)
  {
    if n == |tools| {
      OldEntriesKeepNonCodex(tools, merged, n);
      assert tools[..n] == tools;
    } else {
      MergeKeepsNonCodex(tools, merged, n - 1);
      NonCodexNext(merged, n - 1);
    }
  }

  /** An entry of the result: an old one, an old one with its alias, or the record of a captured path. */
  ghost predicate HasOrigin(tools: seq<Entry>, e: Entry, paths: seq<string>) {
    || e in tools
    || (exists i :: 0 <= i < |tools| && GainedAlias(tools[i], e, paths))
    || IsRecordOf(e, paths)
  }

  /** An old entry is still there, possibly with its alias. */
  ghost predicate Kept(final: seq<Entry>, e: Entry, paths: seq<string>) {
    e in final || exists i :: 0 <= i < |final| && GainedAlias(e, final[i], paths)
  }

  lemma MergedHaveOrigin(tools: seq<Entry>, merged: seq<Entry>, paths: seq<string>, i: nat)
    requires KeepsPlaces(tools, merged, paths) && AppendsRecords(tools, merged, paths) && i < |merged|
    ensures HasOrigin(tools, merged[i], paths)
  {
    if i < |tools| && merged[i] == tools[i] {
      assert merged[i] in tools;
    }
  }

  lemma AliasedIsCaptured(e: Entry, aliased: Entry, paths: seq<string>)
    requires GainedAlias(e, aliased, paths)
    ensures KeepEntry(paths, aliased)
  {
    var p :| p in paths && e.name == Canonical(p) && aliased == WithAlias(e, p);
    var k :| 0 <= k < |paths| && paths[k] == p;
    assert CapturedName(paths, aliased.name);
  }

  lemma OldEntryIsKept(tools: seq<Entry>, merged: seq<Entry>, paths: seq<string>, i: nat)
    requires KeepsPlaces(tools, merged, paths) && i < |tools| && KeepEntry(paths, tools[i])
    ensures Kept(Filter(merged, paths), tools[i], paths)
  {
    FilterMembers(merged, paths);
    if merged[i] != tools[i] {
      AliasedIsCaptured(tools[i], merged[i], paths);
      var k :| 0 <= k < |Filter(merged, paths)| && Filter(merged, paths)[k] == merged[i];
    } else {
      assert merged[i] in merged;
    }
  }

  lemma SurfaceMembers(tools: seq<Entry>, merged: seq<Entry>, paths: seq<string>)
    requires KeepsPlaces(tools, merged, paths) && AppendsRecords(tools, merged, paths)
    ensures forall e :: e in Filter(merged, paths) ==> KeepEntry(paths, e) && HasOrigin(tools, e, paths)
    ensures forall e :: e in tools && KeepEntry(paths, e) ==> Kept(Filter(merged, paths), e, paths)
  {
    FilterMembers(merged, paths);
    forall e | e in Filter(merged, paths) ensures HasOrigin(tools, e, paths) {
      var i :| 0 <= i < |merged| && merged[i] == e;
      MergedHaveOrigin(tools, merged, paths, i);
    }
    forall e | e in tools && KeepEntry(paths, e) ensures Kept(Filter(merged, paths), e, paths) {
      var i :| 0 <= i < |tools| && tools[i] == e;
      OldEntryIsKept(tools, merged, paths, i);
    }
  }

  /**
   Lines 658-737 as a whole. Other tools stay as they were, in order; every valid path some app captured
   undenied is there under its canonical name with an alias; another Codex entry stays if and only if its name
   or alias is a captured one, and nothing else is added; names that were unique stay unique.
   */
  method CreatorSurface(tools: seq<Entry>, apps: seq<CapturedApp>) returns (final: seq<Entry>)
    ensures NonCodex(final) == NonCodex(tools)
    ensures forall p :: CapturedUndenied(apps, p) && ValidPath(p) ==> Present(final, p)
    ensures forall e :: e in final ==> KeepEntry(CapturedPaths(apps), e) && HasOrigin(tools, e, CapturedPaths(apps))
    ensures forall e :: e in tools && KeepEntry(CapturedPaths(apps), e) ==> Kept(final, e, CapturedPaths(apps))
    ensures UniqueNames(tools) ==> UniqueNames(final)
    ensures EndsWith(final, Records(Missing(tools, CapturedPaths(apps), |CapturedPaths(apps)|)))
  {
    var paths := Flatten(apps);
    var merged := Merge(tools, paths);
    MergeAllMeans(tools, paths, |paths|);
    final := Filter(merged, paths);
    SurfaceMembers(tools, merged, paths);
    FilterKeepsNonCodex(merged, paths);
    MergeChangesOnlyCodex(tools, merged, paths);
    MergeKeepsNonCodex(tools, merged, |merged|);
    assert merged[..|merged|] == merged;
    if UniqueNames(tools) {
      FilterKeepsUnique(merged, paths);
    }
    CapturedPathsAre(apps);
    AppendedSurviveFilter(tools, merged, paths);
    forall p | CapturedUndenied(apps, p) && ValidPath(p) ensures Present(final, p) {
      PresentSurvivesFilter(merged, paths, p);
    }
  }

  predicate EndsWith(s: seq<Entry>, suffix: seq<Entry>) {
    |suffix| <= |s| && s[|s| - |suffix|..] == suffix
  }

  /** The records of captured paths pass the filter, all of them and in order. */
  lemma {:induction false} RecordsPass(added: seq<string>, paths: seq<string>)
    requires forall p :: p in added ==> p in paths
    ensures Filter(Records(added), paths) == Records(added)
  {
    if added != [] {
      var front, last := added[..|added| - 1], added[|added| - 1];
      RecordsPass(front, paths);
      assert added == front + [last] && last in added;
      RecordsNext(front, last);
      var record := Record(Canonical(last), None, AliasOf(last));
      FilterIsEntrywise(Records(front), [record], paths);
      var k :| 0 <= k < |paths| && paths[k] == last;
      assert CapturedName(paths, record.name);
    }
  }

  lemma AppendedSurviveFilter(tools: seq<Entry>, merged: seq<Entry>, paths: seq<string>)
    requires |tools| <= |merged| && merged[|tools|..] == Records(Missing(tools, paths, |paths|))
    ensures EndsWith(Filter(merged, paths), Records(Missing(tools, paths, |paths|)))
  {
    assert merged == merged[..|tools|] + merged[|tools|..];
    FilterIsEntrywise(merged[..|tools|], merged[|tools|..], paths);
    forall p | p in Missing(tools, paths, |paths|) ensures p in paths {
      MissingSubset(tools, paths, |paths|, p);
    }
    RecordsPass(Missing(tools, paths, |paths|), paths);
  }

  lemma PresentSurvivesFilter(merged: seq<Entry>, paths: seq<string>, p: string)
    requires Present(merged, p) && p in paths
    ensures Present(Filter(merged, paths), p)
  {
    FilterMembers(merged, paths);
    var i :| 0 <= i < |merged| && merged[i].name == Canonical(p) && merged[i].Record? && merged[i].alias != "";
    var k :| 0 <= k < |paths| && paths[k] == p;
    assert CapturedName(paths, merged[i].name);
    assert merged[i] in Filter(merged, paths);
  }

  // ----- from the creator's list to run time -----

  /** A job that allows exactly the canonical names of the chosen paths. */
  function CanonicalNames(chosen: set<string>): set<string> {
    set p | p in chosen :: Canonical(p)
  }

  /** At run time such a job admits the chosen names themselves, bare or canonical. */
  lemma RunTimeAllowTest(chosen: set<string>, tool: string)
    ensures JobAllows(Some(CanonicalNames(chosen)), tool) <==>
            tool in chosen || (StartsWith(tool, PREFIX) && StripPrefix(tool) in chosen)
  {
    var names := CanonicalNames(chosen);
    assert forall p :: Canonical(p)[0] == 'c';
    assert "*" !in names;
    if tool in names {
      var p :| p in chosen && Canonical(p) == tool;
      assert StripPrefix(tool) == p;
    }
    if StartsWith(tool, PREFIX) && StripPrefix(tool) in chosen {
      assert tool == Canonical(StripPrefix(tool));
    }
    if Canonical(tool) in names {
      var p :| p in chosen && Canonical(p) == Canonical(tool);
      CanonicalIsInjective(p, tool);
    }
  }

  /**
   So the tools that pass are those whose stripped name was chosen, for every tool name, exactly when no chosen
   path starts with the prefix without its stripped form being chosen as well.
   */
  lemma CanonicalNamesSurviveIff(chosen: set<string>)
    ensures (forall tool :: JobAllows(Some(CanonicalNames(chosen)), tool) <==> StripPrefix(tool) in chosen)
            <==> (forall p :: p in chosen && StartsWith(p, PREFIX) ==> StripPrefix(p) in chosen)
  {
    forall tool {
      RunTimeAllowTest(chosen, tool);
    }
  }

  lemma UnderscoredStep(path: string, c: char)
    ensures Underscored(path + [c]) == Underscored(path) + [if c == '.' then '_' else c]
  {
    assert (path + [c])[..|path|] == path;
  }

  lemma AliasIsNeverCanonical(p: string, q: string)
    ensures AliasOf(p) != Canonical(q)
  {
    assert AliasOf(p)[0] == 'm' && Canonical(q)[0] == 'c';
  }

  lemma AliasesEqualIff(p: string, q: string)
    ensures AliasOf(p) == AliasOf(q) <==> Underscored(p) == Underscored(q)
  {
    assert AliasOf(p)[|MCP_PREFIX|..] == Underscored(p);
    assert AliasOf(q)[|MCP_PREFIX|..] == Underscored(q);
  }

  /** A bare alias stays if and only if some captured path is the same up to dots and underscores. */
  lemma AliasStaysIff(paths: seq<string>, q: string)
    ensures KeepEntry(paths, Bare(AliasOf(q))) <==> exists i :: 0 <= i < |paths| && Underscored(paths[i]) == Underscored(q)
  {
    assert IsCodexName(AliasOf(q));
    forall i | 0 <= i < |paths|
      ensures AliasOf(q) != Canonical(paths[i])
      ensures AliasOf(q) == AliasOf(paths[i]) <==> Underscored(paths[i]) == Underscored(q)
    {
      AliasIsNeverCanonical(q, paths[i]);
      AliasesEqualIff(q, paths[i]);
    }
  }

  /** Two paths can share an alias, so an entry may stay on account of another tool's capture. */
  lemma AliasesCanCollide()
    ensures "a.b.c" != "a.b_c" && AliasOf("a.b.c") == AliasOf("a.b_c")
    ensures KeepEntry(["a.b.c"], Bare(AliasOf("a.b_c")))
  {
    UnderscoredStep("a.b", '.');
    UnderscoredStep("a.b", '_');
    UnderscoredStep("a.b.", 'c');
    UnderscoredStep("a.b_", 'c');
    assert "a.b.c" == "a.b" + "." + "c" && "a.b_c" == "a.b" + "_" + "c";
    assert ["a.b.c"][0] == "a.b.c";
  }
}
