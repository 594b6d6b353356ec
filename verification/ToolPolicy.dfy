/**
 Approval modes and the current policy of one app tool. `intersectToolApprovalMode`, `readCurrentToolPolicy`
 and `appToolHintsAllowed` are modelled from the compiled bundle, the only place the repository holds them.
 */
module ToolPolicy {
  import opened Common

  /** What the user decided about destructive actions of an app. */
  datatype Destructive = Deny | Ask | Auto | Allow

  /** How a single tool asks for approval. */
  datatype ToolMode = AutoMode | Prompt | Writes | Approve

  /** APPROVAL_RANK. */
  function Rank(m: Destructive): nat {
    match m
    case Deny => 0
    case Ask => 1
    case Auto => 2
    case Allow => 3
  }

  /** `stricterApprovalMode`. */
  function Stricter(left: Destructive, right: Destructive): Destructive {
    if Rank(left) <= Rank(right) then left else right
  }

  /** `appApprovalCeiling`. */
  function Ceiling(m: Destructive): ToolMode {
    if m == Allow then Approve else if m == Ask then Prompt else AutoMode
  }

  /** `intersectToolApprovalMode`. */
  function Meet(captured: ToolMode, current: ToolMode): ToolMode {
    if captured == current || current == Approve then captured
    else if captured == Approve then current
    else Prompt
  }

  /** `a` grants no more than `b`. */
  predicate AtMost(a: ToolMode, b: ToolMode) {
    a == b || a == Prompt || b == Approve
  }

  /** The code's intersection is the greatest lower bound of the order with `prompt` below and `approve` above everything. */
  lemma MeetIsGreatestLowerBound(a: ToolMode, b: ToolMode, c: ToolMode)
    ensures AtMost(Meet(a, b), a) && AtMost(Meet(a, b), b)
    ensures AtMost(c, a) && AtMost(c, b) ==> AtMost(c, Meet(a, b))
    ensures Meet(a, b) == Meet(b, a)
    ensures Meet(a, Meet(b, c)) == Meet(Meet(a, b), c)
    ensures Meet(a, a) == a
    ensures AtMost(a, b) <==> Meet(a, b) == a
  {
  }

  /** An app that allows has no ceiling, one that asks prompts, and one that denies or decides by itself is at `auto`. */
  lemma CeilingIs(m: Destructive)
    ensures Ceiling(m) == Approve <==> m == Allow
    ensures Ceiling(m) == Prompt <==> m == Ask
    ensures Ceiling(m) == AutoMode <==> m == Deny || m == Auto
  {
  }

  /** A stricter destructive mode lowers the ceiling, except that `deny` allows more than `ask`. */
  lemma CeilingMonotoneExceptDenyAsk(a: Destructive, b: Destructive)
    requires Rank(a) <= Rank(b)
    ensures AtMost(Ceiling(a), Ceiling(b)) <==> !(a == Deny && b == Ask)
  {
  }

  // ----- the current policy of one tool -----

  /** Inventory metadata of a tool; the two hints are true when the tool declares itself harmless. */
  datatype ToolMeta = ToolMeta(
    title: Option<string>,
    linkId: Option<string>,
    requiresExplicitLinkId: bool,
    notDestructive: bool,
    notOpenWorld: bool)

  datatype ToolSettings = ToolSettings(enabled: Option<bool>, mode: Option<ToolMode>)

  datatype AppSettings = AppSettings(
    enabled: bool,
    toolsEnabled: Option<bool>,
    mode: Option<ToolMode>,
    destructiveEnabled: Option<bool>,
    openWorldEnabled: Option<bool>,
    tools: map<string, ToolSettings>,
    links: seq<(string, Option<ToolMode>)>)

  datatype DefaultSettings = DefaultSettings(
    enabled: bool,
    mode: Option<ToolMode>,
    destructiveEnabled: Option<bool>,
    openWorldEnabled: Option<bool>)

  /** The `apps` table of the user's configuration, with its `_default` entry apart. */
  datatype Config = Config(apps: map<string, AppSettings>, defaults: Option<DefaultSettings>)

  datatype CurrentTool = CurrentTool(enabled: bool, mode: ToolMode)

  function OrElse<T>(first: Option<T>, second: Option<T>): Option<T> {
    if first.Some? then first else second
  }

  /** `appToolHintsAllowed`; the metadata is absent when the tool is not in the inventory. */
  predicate HintsAllowed(meta: Option<ToolMeta>, allowDestructive: bool, allowOpenWorld: bool) {
    && (allowDestructive || (meta.Some? && meta.value.notDestructive))
    && (allowOpenWorld || (meta.Some? && meta.value.notOpenWorld))
  }

  function ToolSettingsOf(app: Option<AppSettings>, tool: string, meta: Option<ToolMeta>): Option<ToolSettings> {
    if app.None? then None
    else if tool in app.value.tools then Some(app.value.tools[tool])
    else if meta.Some? && meta.value.title.Some? && meta.value.title.value in app.value.tools
    then Some(app.value.tools[meta.value.title.value])
    else None
  }

  function LinkMode(links: seq<(string, Option<ToolMode>)>, id: string): Option<ToolMode> {
    if links == [] then None
    else if links[0].0 == id then links[0].1
    else LinkMode(links[1..], id)
  }

  function MeetLinks(links: seq<(string, Option<ToolMode>)>, mode: ToolMode): ToolMode {
    if links == [] then mode
    else MeetLinks(links[1..], if links[0].1.Some? then Meet(mode, links[0].1.value) else mode)
  }

  /** `readCurrentToolPolicy`. The fallback is used only when no mode is configured for the tool, its app or by default. */
  function ReadCurrentTool(config: Config, appId: string, tool: string, meta: Option<ToolMeta>, fallback: ToolMode): CurrentTool {
    var app := if appId in config.apps then Some(config.apps[appId]) else None;
    var settings := ToolSettingsOf(app, tool, meta);
    var toolMode := if settings.Some? then settings.value.mode else None;
    var appMode := if app.Some? then app.value.mode else None;
    var defaultMode := if config.defaults.Some? then config.defaults.value.mode else None;
    var base := OrElse(OrElse(toolMode, appMode), defaultMode).GetOr(fallback);
    var links := if app.Some? then app.value.links else [];
    var mode :=
      if toolMode.Some? || meta.None? then base
      else if meta.value.requiresExplicitLinkId then MeetLinks(links, base)
      else if meta.value.linkId.Some? then LinkMode(links, meta.value.linkId.value).GetOr(base)
      else base;
    var appEnabled :=
      if app.Some? then app.value.enabled else config.defaults.None? || config.defaults.value.enabled;
    var destructive := OrElse(if app.Some? then app.value.destructiveEnabled else None,
                              if config.defaults.Some? then config.defaults.value.destructiveEnabled else None);
    var openWorld := OrElse(if app.Some? then app.value.openWorldEnabled else None,
                            if config.defaults.Some? then config.defaults.value.openWorldEnabled else None);
    var toolEnabled :=
      if settings.Some? && settings.value.enabled.Some? then settings.value.enabled.value
      else if app.Some? && app.value.toolsEnabled.Some? then app.value.toolsEnabled.value
      else HintsAllowed(meta, destructive != Some(false), openWorld != Some(false));
    CurrentTool(appEnabled && toolEnabled, mode)
  }

  /** No approval mode is configured that applies to the tool, so that the fallback decides. */
  predicate FallbackDecides(config: Config, appId: string, tool: string, meta: Option<ToolMeta>) {
    var app := if appId in config.apps then Some(config.apps[appId]) else None;
    var settings := ToolSettingsOf(app, tool, meta);
    && (settings.Some? ==> settings.value.mode.None?)
    && (app.Some? ==> app.value.mode.None?)
    && (config.defaults.Some? ==> config.defaults.value.mode.None?)
    && (app.Some? && meta.Some? && !meta.value.requiresExplicitLinkId && meta.value.linkId.Some? ==>
          LinkMode(app.value.links, meta.value.linkId.value).None?)
  }

  // ----- precedence -----

  /** The settings of a tool are those under its name, else those under its title. */
  lemma SettingsByNameThenTitle(app: AppSettings, tool: string, meta: Option<ToolMeta>)
    ensures tool in app.tools ==> ToolSettingsOf(Some(app), tool, meta) == Some(app.tools[tool])
    ensures tool !in app.tools ==>
              forall s :: ToolSettingsOf(Some(app), tool, meta) == Some(s) <==>
                meta.Some? && meta.value.title.Some? && meta.value.title.value in app.tools && s == app.tools[meta.value.title.value]
    ensures ToolSettingsOf(None, tool, meta) == None
  {
  }

  /** A mode set for the tool itself decides, whatever else is configured. */
  lemma ToolModeDecides(config: Config, appId: string, tool: string, meta: Option<ToolMeta>, fallback: ToolMode, settings: ToolSettings)
    requires appId in config.apps && ToolSettingsOf(Some(config.apps[appId]), tool, meta) == Some(settings) && settings.mode.Some?
    ensures ReadCurrentTool(config, appId, tool, meta, fallback).mode == settings.mode.value
  {
  }

  /** No mode is set for the tool itself. */
  predicate NoToolMode(config: Config, appId: string, tool: string, meta: Option<ToolMeta>) {
    appId in config.apps ==>
      var settings := ToolSettingsOf(Some(config.apps[appId]), tool, meta);
      settings.Some? ==> settings.value.mode == None
  }

  /** Otherwise the mode of its app, else the default mode, else the fallback is the base. */
  function BaseMode(config: Config, appId: string, fallback: ToolMode): ToolMode {
    if appId in config.apps && config.apps[appId].mode.Some? then config.apps[appId].mode.value
    else if config.defaults.Some? && config.defaults.value.mode.Some? then config.defaults.value.mode.value
    else fallback
  }

  lemma {:induction false} MeetLinksIsMeet(links: seq<(string, Option<ToolMode>)>, mode: ToolMode, m: ToolMode)
    ensures AtMost(m, MeetLinks(links, mode)) <==>
            AtMost(m, mode) && forall i :: 0 <= i < |links| && links[i].1.Some? ==> AtMost(m, links[i].1.value)
  {
    if links != [] {
      var next := if links[0].1.Some? then Meet(mode, links[0].1.value) else mode;
      MeetLinksIsMeet(links[1..], next, m);
      if links[0].1.Some? {
        MeetIsGreatestLowerBound(mode, links[0].1.value, m);
        AtMostBoth(m, mode, links[0].1.value);
      }
      assert forall i :: 1 <= i < |links| ==> links[i] == links[1..][i - 1];
    }
  }

  lemma AtMostBoth(m: ToolMode, a: ToolMode, b: ToolMode)
    ensures AtMost(m, Meet(a, b)) <==> AtMost(m, a) && AtMost(m, b)
  {
  }

  /** The base stands unless the tool is linked: by its own link if that has a mode, or under every link it could be used with. */
  lemma LinksAdjustTheBase(config: Config, appId: string, tool: string, meta: Option<ToolMeta>, fallback: ToolMode)
    requires NoToolMode(config, appId, tool, meta)
    ensures var mode := ReadCurrentTool(config, appId, tool, meta, fallback).mode;
            var base := BaseMode(config, appId, fallback);
            && (appId !in config.apps || meta == None || (!meta.value.requiresExplicitLinkId && meta.value.linkId == None) ==> mode == base)
            && (appId in config.apps && meta.Some? && meta.value.requiresExplicitLinkId ==>
                  forall m :: AtMost(m, mode) <==>
                    && AtMost(m, base)
                    && forall i :: 0 <= i < |config.apps[appId].links| && config.apps[appId].links[i].1.Some? ==>
                         AtMost(m, config.apps[appId].links[i].1.value))
            && (appId in config.apps && meta.Some? && !meta.value.requiresExplicitLinkId && meta.value.linkId.Some? ==>
                  mode == LinkMode(config.apps[appId].links, meta.value.linkId.value).GetOr(base))
  {
    if appId in config.apps && meta.Some? && meta.value.requiresExplicitLinkId {
      forall m {
        MeetLinksIsMeet(config.apps[appId].links, BaseMode(config, appId, fallback), m);
      }
    }
  }

  /** The first link with this id. */
  lemma {:induction false} LinkModeIs(links: seq<(string, Option<ToolMode>)>, k: nat)
    requires k < |links| && forall i :: 0 <= i < k ==> links[i].0 != links[k].0
    ensures LinkMode(links, links[k].0) == links[k].1
  {
    if k > 0 {
      LinkModeIs(links[1..], k - 1);
    }
  }

  /** A disabled app disables all its tools, and an app without an entry follows the defaults. */
  lemma DisabledAppDisables(config: Config, appId: string, tool: string, meta: Option<ToolMeta>, fallback: ToolMode)
    ensures appId in config.apps && !config.apps[appId].enabled ==> !ReadCurrentTool(config, appId, tool, meta, fallback).enabled
    ensures appId !in config.apps && config.defaults.Some? && !config.defaults.value.enabled ==>
              !ReadCurrentTool(config, appId, tool, meta, fallback).enabled
  {
  }

  /** The app is enabled: by its own entry, or without one by the defaults. */
  predicate AppEnabled(config: Config, appId: string) {
    if appId in config.apps then config.apps[appId].enabled else config.defaults == None || config.defaults.value.enabled
  }

  /**
   In an enabled app the tool's own switch decides, else the app's switch for its tools, else whether the hints allow
   what the app's flags, or without them the defaults' flags, rule out.
   */
  lemma EnabledByPrecedence(config: Config, appId: string, tool: string, meta: Option<ToolMeta>, fallback: ToolMode)
    requires AppEnabled(config, appId) && appId in config.apps
    ensures var app := config.apps[appId];
            var settings := ToolSettingsOf(Some(app), tool, meta);
            var enabled := ReadCurrentTool(config, appId, tool, meta, fallback).enabled;
            && (settings.Some? && settings.value.enabled.Some? ==> enabled == settings.value.enabled.value)
            && (settings.Some? && settings.value.enabled == None && app.toolsEnabled.Some? ==> enabled == app.toolsEnabled.value)
            && (settings == None && app.toolsEnabled.Some? ==> enabled == app.toolsEnabled.value)
            && ((settings == None || settings.value.enabled == None) && app.toolsEnabled == None ==>
                  (enabled <==>
                     && (RulesOut(app.destructiveEnabled, config.defaults, true) ==> meta.Some? && meta.value.notDestructive)
                     && (RulesOut(app.openWorldEnabled, config.defaults, false) ==> meta.Some? && meta.value.notOpenWorld)))
  {
  }

  /** A flag rules something out if it is false, or is not set and false by default. */
  predicate RulesOut(flag: Option<bool>, defaults: Option<DefaultSettings>, destructive: bool) {
    || flag == Some(false)
    || (flag == None && defaults.Some? && (if destructive then defaults.value.destructiveEnabled else defaults.value.openWorldEnabled) == Some(false))
  }

  /** Without an entry of its app, a tool is enabled if the app is and the hints allow what the defaults rule out. */
  lemma EnabledByDefault(config: Config, appId: string, tool: string, meta: Option<ToolMeta>, fallback: ToolMode)
    requires appId !in config.apps
    ensures ReadCurrentTool(config, appId, tool, meta, fallback).enabled <==>
            && AppEnabled(config, appId)
            && (RulesOut(None, config.defaults, true) ==> meta.Some? && meta.value.notDestructive)
            && (RulesOut(None, config.defaults, false) ==> meta.Some? && meta.value.notOpenWorld)
  {
  }

  // ----- ceilings -----

  lemma {:induction false} MeetLinksOnlyLowers(links: seq<(string, Option<ToolMode>)>, mode: ToolMode)
    ensures AtMost(MeetLinks(links, mode), mode)
  {
    if links != [] {
      MeetLinksOnlyLowers(links[1..], if links[0].1.Some? then Meet(mode, links[0].1.value) else mode);
    }
  }

  lemma {:induction false} MeetLinksIsMonotone(links: seq<(string, Option<ToolMode>)>, low: ToolMode, high: ToolMode)
    requires AtMost(low, high)
    ensures AtMost(MeetLinks(links, low), MeetLinks(links, high))
  {
    if links != [] {
      var link := links[0].1;
      MeetLinksIsMonotone(links[1..], if link.Some? then Meet(low, link.value) else low,
                          if link.Some? then Meet(high, link.value) else high);
    }
  }

  /** A lower fallback never raises the mode a tool is read with, and does not change whether it is enabled. */
  lemma ReadIsMonotone(config: Config, appId: string, tool: string, meta: Option<ToolMeta>, low: ToolMode, high: ToolMode)
    requires AtMost(low, high)
    ensures var a, b := ReadCurrentTool(config, appId, tool, meta, low), ReadCurrentTool(config, appId, tool, meta, high);
            AtMost(a.mode, b.mode) && a.enabled == b.enabled
  {
    if appId in config.apps {
      MeetLinksIsMonotone(config.apps[appId].links, low, high);
    }
  }

  /** Under the fallback `prompt` the tool reads `prompt`, or a mode that was configured and that no fallback changes. */
  lemma ReadUnderPrompt(config: Config, appId: string, tool: string, meta: Option<ToolMeta>, fallback: ToolMode)
    ensures var m := ReadCurrentTool(config, appId, tool, meta, Prompt).mode;
            m == Prompt || m == ReadCurrentTool(config, appId, tool, meta, fallback).mode
  {
    if appId in config.apps {
      MeetLinksOnlyLowers(config.apps[appId].links, Prompt);
    }
  }

  /** Where the fallback does not decide, the mode is the same under every fallback. */
  lemma ConfiguredModeIgnoresTheFallback(config: Config, appId: string, tool: string, meta: Option<ToolMeta>, a: ToolMode, b: ToolMode)
    requires !FallbackDecides(config, appId, tool, meta)
    ensures ReadCurrentTool(config, appId, tool, meta, a) == ReadCurrentTool(config, appId, tool, meta, b)
  {
  }

  /** A tool stays under the ceiling it is read with if and only if no mode is configured for it, or the configured one stays under it. */
  lemma StaysUnderCeilingIff(config: Config, appId: string, tool: string, meta: Option<ToolMeta>, ceiling: ToolMode)
    ensures AtMost(ReadCurrentTool(config, appId, tool, meta, ceiling).mode, ceiling) <==>
            FallbackDecides(config, appId, tool, meta) || AtMost(ReadCurrentTool(config, appId, tool, meta, Approve).mode, ceiling)
  {
    if FallbackDecides(config, appId, tool, meta) {
      if appId in config.apps {
        MeetLinksOnlyLowers(config.apps[appId].links, ceiling);
      }
    } else {
      ConfiguredModeIgnoresTheFallback(config, appId, tool, meta, ceiling, Approve);
    }
  }

  /** A configured mode is taken as it stands: it may grant more than the ceiling. */
  lemma ConfiguredModeCanExceedCeiling() returns (config: Config)
    ensures ReadCurrentTool(config, "mail", "mail.send", None, Ceiling(Ask)).mode == Approve
    ensures !AtMost(ReadCurrentTool(config, "mail", "mail.send", None, Ceiling(Ask)).mode, Ceiling(Ask))
  {
    var app := AppSettings(true, None, Some(Approve), None, None, map[], []);
    config := Config(map["mail" := app], None);
  }
}
