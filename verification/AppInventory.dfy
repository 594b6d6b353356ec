/** The cursor-paginated inventory of connector-backed tools, `readCodexScheduledAppToolsByApp`. */
module AppInventory {
  import opened Common
  import opened ToolPolicy

  const MAX_PAGES: nat := 100
  const APPS_SERVER := "codex_apps"

  /** A tool as a server lists it; only tools with a connector belong to an app. */
  datatype ListedTool = ListedTool(name: string, connector: Option<string>, meta: ToolMeta)

  datatype ServerStatus = InvalidStatus | Status(name: string, tools: seq<ListedTool>)

  datatype Cursor = NoCursor | Text(value: string) | InvalidCursor

  datatype Response = InvalidResponse | Page(data: seq<ServerStatus>, next: Cursor)

  datatype InventoryError = BadResponse | BadStatus | BadCursor | RepeatedCursor | TooManyPages

  type Inventory = map<string, map<string, ToolMeta>>

  /** One tool added to the table of its app, which starts empty. */
  function AddTool(inventory: Inventory, tool: ListedTool): Inventory {
    if tool.connector.None? then inventory
    else
      var id := tool.connector.value;
      var tools := if id in inventory then inventory[id] else map[];
      inventory[id := tools[tool.name := tool.meta]]
  }

  /** What one status contributes to its page. */
  function StatusTools(status: ServerStatus): seq<ListedTool> {
    if status.Status? && status.name == APPS_SERVER then status.tools else []
  }

  /** Tools added one by one to what is there already. */
  function AddAll(inventory: Inventory, tools: seq<ListedTool>): Inventory {
    if tools == [] then inventory else AddTool(AddAll(inventory, tools[..|tools| - 1]), tools[|tools| - 1])
  }

  /** The first n statuses of a page added to what is there already. */
  function AddStatuses(inventory: Inventory, data: seq<ServerStatus>, n: nat): Inventory
    requires n <= |data|
  {
    if n == 0 then inventory else AddAll(AddStatuses(inventory, data, n - 1), StatusTools(data[n - 1]))
  }

  /** The inventory after the first n replies. */
  function InventoryOf(responses: nat -> Response, n: nat): Inventory {
    if n == 0 then map[]
    else
      var before, r := InventoryOf(responses, n - 1), responses(n - 1);
      if r.Page? then AddStatuses(before, r.data, |r.data|) else before
  }

  predicate Mentions(tool: ListedTool, app: string, name: string) {
    tool.connector == Some(app) && tool.name == name
  }

  predicate Listed(inventory: Inventory, app: string, name: string) {
    app in inventory && name in inventory[app]
  }

  /** The metadata of the last listed tool with this name and connector. */
  function LastListed(tools: seq<ListedTool>, app: string, name: string): Option<ToolMeta> {
    if tools == [] then None
    else
      var last := tools[|tools| - 1];
      if Mentions(last, app, name) then Some(last.meta) else LastListed(tools[..|tools| - 1], app, name)
  }

  function Lookup(inventory: Inventory, app: string, name: string): Option<ToolMeta> {
    if Listed(inventory, app, name) then Some(inventory[app][name]) else None
  }

  /** Last write wins: a tool that is listed has the metadata of its last listing, and any other what it had. */
  lemma {:induction false} AddedIsLastWrite(inventory: Inventory, tools: seq<ListedTool>, app: string, name: string)
    ensures Lookup(AddAll(inventory, tools), app, name) ==
            if LastListed(tools, app, name).Some? then LastListed(tools, app, name) else Lookup(inventory, app, name)
  {
    if tools != [] {
      AddedIsLastWrite(inventory, tools[..|tools| - 1], app, name);
    }
  }

  ghost predicate NoEmptyApps(inventory: Inventory) {
    forall app :: app in inventory ==> inventory[app] != map[]
  }

  lemma AddToolLeavesNoEmptyApp(inventory: Inventory, tool: ListedTool)
    requires NoEmptyApps(inventory)
    ensures NoEmptyApps(AddTool(inventory, tool))
  {
    var after := AddTool(inventory, tool);
    if tool.connector.Some? {
      assert tool.name in after[tool.connector.value];
    }
  }

  lemma {:induction false} AddAllLeavesNoEmptyApp(inventory: Inventory, tools: seq<ListedTool>)
    requires NoEmptyApps(inventory)
    ensures NoEmptyApps(AddAll(inventory, tools))
  {
    if tools != [] {
      AddAllLeavesNoEmptyApp(inventory, tools[..|tools| - 1]);
      AddToolLeavesNoEmptyApp(AddAll(inventory, tools[..|tools| - 1]), tools[|tools| - 1]);
    }
  }

  lemma {:induction false} AddStatusesLeavesNoEmptyApp(inventory: Inventory, data: seq<ServerStatus>, n: nat)
    requires NoEmptyApps(inventory) && n <= |data|
    ensures NoEmptyApps(AddStatuses(inventory, data, n))
  {
    if n > 0 {
      AddStatusesLeavesNoEmptyApp(inventory, data, n - 1);
      AddAllLeavesNoEmptyApp(AddStatuses(inventory, data, n - 1), StatusTools(data[n - 1]));
    }
  }

  /** An app is in the inventory only with at least one tool. */
  lemma {:induction false} AppsHaveTools(responses: nat -> Response, n: nat)
    ensures NoEmptyApps(InventoryOf(responses, n))
  {
    if n > 0 {
      AppsHaveTools(responses, n - 1);
      var r := responses(n - 1);
      if r.Page? {
        AddStatusesLeavesNoEmptyApp(InventoryOf(responses, n - 1), r.data, |r.data|);
      }
    }
  }

  /** The first n statuses of a page are well formed. */
  predicate WellFormed(data: seq<ServerStatus>, n: nat)
    requires n <= |data|
  {
    n > 0 ==> WellFormed(data, n - 1) && data[n - 1].Status?
  }

  lemma {:induction false} MalformedStays(data: seq<ServerStatus>, k: nat, n: nat)
    requires k <= n <= |data| && !WellFormed(data, k)
    ensures !WellFormed(data, n)
  {
    if k < n {
      MalformedStays(data, k, n - 1);
    }
  }

  predicate Continues(r: Response) {
    r.Page? && r.next.Text? && r.next.value != ""
  }

  lemma AddNext(inventory: Inventory, tools: seq<ListedTool>, k: nat)
    requires k < |tools|
    ensures AddAll(inventory, tools[..k + 1]) == AddTool(AddAll(inventory, tools[..k]), tools[k])
  {
    assert tools[..k + 1][..k] == tools[..k];
  }

  /** The loop over the tools of one server. */
  method AddTools(inventory: Inventory, tools: seq<ListedTool>) returns (r: Inventory)
    ensures r == AddAll(inventory, tools)
  {
    r := inventory;
    for t := 0 to |tools|
      invariant r == AddAll(inventory, tools[..t])
    {
      AddNext(inventory, tools, t);
      r := AddTool(r, tools[t]);
    }
    assert tools[..|tools|] == tools;
  }

  /** The loop over one page's data. */
  method AddPage(inventory: Inventory, data: seq<ServerStatus>) returns (r: Option<Inventory>)
    ensures r.Some? <==> WellFormed(data, |data|)
    ensures r.Some? ==> r.value == AddStatuses(inventory, data, |data|)
  {
    var current := inventory;
    for k := 0 to |data|
      invariant WellFormed(data, k)
      invariant current == AddStatuses(inventory, data, k)
    {
      if data[k].InvalidStatus? {
        MalformedStays(data, k + 1, |data|);
        return None;
      }
      if data[k].name == APPS_SERVER {
        current := AddTools(current, data[k].tools);
      }
    }
    return Some(current);
  }

  /** A reply that throws inside the loop body, and the error it throws. */
  function PageError(r: Response): Option<InventoryError> {
    if r.InvalidResponse? then Some(BadResponse)
    else if !WellFormed(r.data, |r.data|) then Some(BadStatus)
    else if r.next == InvalidCursor then Some(BadCursor)
    else None
  }

  /** The cursor of request k: none for the first, then the one the page before it gave. */
  function CursorFor(responses: nat -> Response, k: nat): Option<string> {
    if k > 0 && Continues(responses(k - 1)) then Some(responses(k - 1).next.value) else None
  }

  /** The page before request k was read and asked for another one. */
  predicate Follows(responses: nat -> Response, k: nat) {
    k > 0 ==> PageError(responses(k - 1)) == None && Continues(responses(k - 1))
  }

  /** A reply throws nothing exactly if it is a page whose statuses are all well formed and whose cursor is absent or a string. */
  lemma PageErrorIff(r: Response)
    ensures PageError(r) == None <==> r.Page? && (forall i :: 0 <= i < |r.data| ==> r.data[i].Status?) && r.next != InvalidCursor
    ensures PageError(r) == Some(BadResponse) <==> r.InvalidResponse?
    ensures PageError(r) == Some(BadStatus) <==> r.Page? && exists i :: 0 <= i < |r.data| && r.data[i].InvalidStatus?
  {
    if r.Page? {
      WellFormedIff(r.data, |r.data|);
    }
  }

  lemma {:induction false} WellFormedIff(data: seq<ServerStatus>, n: nat)
    requires n <= |data|
    ensures WellFormed(data, n) <==> forall i :: 0 <= i < n ==> data[i].Status?
  {
    if n > 0 {
      WellFormedIff(data, n - 1);
    }
  }

  // ----- what an inventory holds, read off the replies -----

  /** Tool number t of status number i of page k is this tool of this app. */
  ghost predicate ListedAt(responses: nat -> Response, app: string, name: string, k: nat, i: nat, t: nat) {
    && responses(k).Page? && i < |responses(k).data|
    && responses(k).data[i].Status? && responses(k).data[i].name == "codex_apps"
    && t < |responses(k).data[i].tools|
    && responses(k).data[i].tools[t].connector == Some(app) && responses(k).data[i].tools[t].name == name
  }

  /** The second place comes after the first, by page, then by status, then by tool. */
  predicate Later(k: nat, i: nat, t: nat, k2: nat, i2: nat, t2: nat) {
    k < k2 || (k == k2 && (i < i2 || (i == i2 && t < t2)))
  }

  /** The last place of the first n pages at which the tool is listed. */
  ghost predicate LastPlace(responses: nat -> Response, n: nat, app: string, name: string, k: nat, i: nat, t: nat) {
    && k < n && ListedAt(responses, app, name, k, i, t)
    && forall k2: nat, i2: nat, t2: nat :: k2 < n && Later(k, i, t, k2, i2, t2) ==> !ListedAt(responses, app, name, k2, i2, t2)
  }

  /** The tool is among these. */
  ghost predicate Has(tools: seq<ListedTool>, app: string, name: string) {
    LastListed(tools, app, name).Some?
  }

  lemma {:induction false} ListedInTools(tools: seq<ListedTool>, app: string, name: string)
    ensures Has(tools, app, name) <==> exists t :: 0 <= t < |tools| && Mentions(tools[t], app, name)
  {
    if tools != [] {
      var last := |tools| - 1;
      ListedInTools(tools[..last], app, name);
      assert tools == tools[..last] + [tools[last]];
    }
  }

  lemma {:induction false} LastInTools(tools: seq<ListedTool>, app: string, name: string, t: nat)
    requires t < |tools| && Mentions(tools[t], app, name)
    requires forall u :: t < u < |tools| ==> !Mentions(tools[u], app, name)
    ensures LastListed(tools, app, name) == Some(tools[t].meta)
  {
    var last := |tools| - 1;
    if t < last {
      assert forall u :: 0 <= u < last ==> tools[..last][u] == tools[u];
      LastInTools(tools[..last], app, name, t);
    }
  }

  // ----- the last of several finds -----

  /** The last find among the first n. */
  function LastFind(finds: nat -> Option<ToolMeta>, n: nat): Option<ToolMeta> {
    if n == 0 then None else if finds(n - 1).Some? then finds(n - 1) else LastFind(finds, n - 1)
  }

  lemma {:induction false} FindIff(finds: nat -> Option<ToolMeta>, n: nat)
    ensures LastFind(finds, n).Some? <==> exists i :: 0 <= i < n && finds(i).Some?
  {
    if n > 0 {
      FindIff(finds, n - 1);
    }
  }

  lemma {:induction false} FindIsLast(finds: nat -> Option<ToolMeta>, n: nat, i: nat)
    requires i < n && finds(i).Some? && forall j :: i < j < n ==> finds(j).None?
    ensures LastFind(finds, n) == finds(i)
  {
    if i < n - 1 {
      FindIsLast(finds, n - 1, i);
    }
  }

  /** What each status of a page says about the tool. */
  function StatusFinds(data: seq<ServerStatus>, app: string, name: string): nat -> Option<ToolMeta> {
    (i: nat) => if i < |data| then LastListed(StatusTools(data[i]), app, name) else None
  }

  lemma {:induction false} FoundInPage(inventory: Inventory, data: seq<ServerStatus>, n: nat, app: string, name: string)
    requires n <= |data|
    ensures var found := LastFind(StatusFinds(data, app, name), n);
            Lookup(AddStatuses(inventory, data, n), app, name) == if found.Some? then found else Lookup(inventory, app, name)
  {
    if n > 0 {
      FoundInPage(inventory, data, n - 1, app, name);
      AddedIsLastWrite(AddStatuses(inventory, data, n - 1), StatusTools(data[n - 1]), app, name);
    }
  }

  /** What each reply says about the tool. */
  function ReplyFinds(responses: nat -> Response, app: string, name: string): nat -> Option<ToolMeta> {
    (k: nat) =>
      var r := responses(k);
      if r.Page? then LastFind(StatusFinds(r.data, app, name), |r.data|) else None
  }

  lemma {:induction false} FoundInPages(responses: nat -> Response, n: nat, app: string, name: string)
    ensures Lookup(InventoryOf(responses, n), app, name) == LastFind(ReplyFinds(responses, app, name), n)
  {
    if n > 0 {
      FoundInPages(responses, n - 1, app, name);
      var r := responses(n - 1);
      if r.Page? {
        FoundInPage(InventoryOf(responses, n - 1), r.data, |r.data|, app, name);
      }
    }
  }

  lemma StatusHasIff(responses: nat -> Response, app: string, name: string, k: nat, i: nat)
    requires responses(k).Page? && i < |responses(k).data|
    ensures Has(StatusTools(responses(k).data[i]), app, name) <==> exists t: nat :: ListedAt(responses, app, name, k, i, t)
  {
    var tools := StatusTools(responses(k).data[i]);
    ListedInTools(tools, app, name);
    if t :| 0 <= t < |tools| && Mentions(tools[t], app, name) {
      assert ListedAt(responses, app, name, k, i, t);
    }
    if t: nat :| ListedAt(responses, app, name, k, i, t) {
      assert Mentions(tools[t], app, name);
    }
  }

  lemma ReplyHasIff(responses: nat -> Response, app: string, name: string, k: nat)
    ensures ReplyFinds(responses, app, name)(k).Some? <==> exists i: nat, t: nat :: ListedAt(responses, app, name, k, i, t)
  {
    if responses(k).Page? {
      var data := responses(k).data;
      var finds := StatusFinds(data, app, name);
      FindIff(finds, |data|);
      if i :| 0 <= i < |data| && finds(i).Some? {
        StatusHasIff(responses, app, name, k, i);
      }
      if i: nat, t: nat :| ListedAt(responses, app, name, k, i, t) {
        StatusHasIff(responses, app, name, k, i);
        assert finds(i).Some?;
      }
    }
  }

  /** The tools of the first n pages are exactly those listed somewhere in them. */
  lemma ToolIsListedIff(responses: nat -> Response, n: nat, app: string, name: string)
    ensures Listed(InventoryOf(responses, n), app, name)
            <==> exists k: nat, i: nat, t: nat :: k < n && ListedAt(responses, app, name, k, i, t)
  {
    var finds := ReplyFinds(responses, app, name);
    FoundInPages(responses, n, app, name);
    FindIff(finds, n);
    if k :| 0 <= k < n && finds(k).Some? {
      ReplyHasIff(responses, app, name, k);
    }
    if k: nat, i: nat, t: nat :| k < n && ListedAt(responses, app, name, k, i, t) {
      ReplyHasIff(responses, app, name, k);
      assert finds(k).Some?;
    }
  }

  lemma LaterStatusesListNothing(responses: nat -> Response, n: nat, app: string, name: string, k: nat, i: nat, t: nat)
    requires LastPlace(responses, n, app, name, k, i, t)
    ensures forall j :: i < j < |responses(k).data| ==> !Has(StatusTools(responses(k).data[j]), app, name)
  {
    forall j | i < j < |responses(k).data| ensures !Has(StatusTools(responses(k).data[j]), app, name) {
      StatusHasIff(responses, app, name, k, j);
      assert forall u: nat :: Later(k, i, t, k, j, u);
    }
  }

  lemma LaterPagesListNothing(responses: nat -> Response, n: nat, app: string, name: string, k: nat, i: nat, t: nat)
    requires LastPlace(responses, n, app, name, k, i, t)
    ensures forall j :: k < j < n ==> ReplyFinds(responses, app, name)(j).None?
  {
    forall j | k < j < n ensures ReplyFinds(responses, app, name)(j).None? {
      ReplyHasIff(responses, app, name, j);
      assert forall u: nat, v: nat :: Later(k, i, t, j, u, v);
    }
  }

  lemma LastInStatus(responses: nat -> Response, n: nat, app: string, name: string, k: nat, i: nat, t: nat)
    requires LastPlace(responses, n, app, name, k, i, t)
    ensures LastListed(StatusTools(responses(k).data[i]), app, name) == Some(responses(k).data[i].tools[t].meta)
  {
    var tools := responses(k).data[i].tools;
    forall u: nat | t < u < |tools| ensures !Mentions(tools[u], app, name) {
      assert Later(k, i, t, k, i, u);
      assert Mentions(tools[u], app, name) ==> ListedAt(responses, app, name, k, i, u);
    }
    LastInTools(tools, app, name, t);
  }

  /** Each has the metadata of the last place at which it is listed. */
  lemma MetadataIsLast(responses: nat -> Response, n: nat, app: string, name: string, k: nat, i: nat, t: nat)
    requires LastPlace(responses, n, app, name, k, i, t)
    ensures Lookup(InventoryOf(responses, n), app, name) == Some(responses(k).data[i].tools[t].meta)
  {
    var data := responses(k).data;
    LastInStatus(responses, n, app, name, k, i, t);
    LaterStatusesListNothing(responses, n, app, name, k, i, t);
    FindIsLast(StatusFinds(data, app, name), |data|, i);
    LaterPagesListNothing(responses, n, app, name, k, i, t);
    FindIsLast(ReplyFinds(responses, app, name), n, k);
    FoundInPages(responses, n, app, name);
  }

  /** The inventory holds exactly the tools listed on the first n pages, each as it was listed last. */
  ghost predicate HoldsExactly(responses: nat -> Response, n: nat, inventory: Inventory) {
    && NoEmptyApps(inventory)
    && (forall app, name ::
          Listed(inventory, app, name) <==> exists k: nat, i: nat, t: nat :: k < n && ListedAt(responses, app, name, k, i, t))
    && (forall app, name, k: nat, i: nat, t: nat :: LastPlace(responses, n, app, name, k, i, t) ==>
          Lookup(inventory, app, name) == Some(responses(k).data[i].tools[t].meta))
  }

  lemma InventoryHoldsExactly(responses: nat -> Response, n: nat)
    ensures HoldsExactly(responses, n, InventoryOf(responses, n))
  {
    AppsHaveTools(responses, n);
    forall app, name {
      ToolIsListedIff(responses, n, app, name);
    }
    forall app, name, k: nat, i: nat, t: nat | LastPlace(responses, n, app, name, k, i, t)
      ensures Lookup(InventoryOf(responses, n), app, name) == Some(responses(k).data[i].tools[t].meta)
    {
      MetadataIsLast(responses, n, app, name, k, i, t);
    }
  }

  /** The requests sent so far: each carries the cursor of the page before it, and no cursor twice. */
  ghost predicate Trail(responses: nat -> Response, sent: seq<Option<string>>) {
    sent != [] ==>
      var last := |sent| - 1;
      && Trail(responses, sent[..last])
      && Follows(responses, last)
      && sent[last] == CursorFor(responses, last)
      && sent[last] !in sent[..last]
  }

  lemma {:induction false} TrailMeans(responses: nat -> Response, sent: seq<Option<string>>)
    requires Trail(responses, sent)
    ensures forall k :: 0 <= k < |sent| ==> Follows(responses, k) && sent[k] == CursorFor(responses, k)
    ensures NoDuplicates(sent)
  {
    if sent != [] {
      TrailMeans(responses, sent[..|sent| - 1]);
    }
  }

  /** The first request has no cursor, and each later one the one its page gave, which is never empty. */
  lemma CursorsFollow(responses: nat -> Response, sent: seq<Option<string>>, k: nat)
    requires Trail(responses, sent) && k < |sent|
    ensures k == 0 ==> sent[k] == None
    ensures k > 0 ==> sent[k].Some? && sent[k].value != "" && responses(k - 1).Page? && responses(k - 1).next == Text(sent[k].value)
  {
    TrailMeans(responses, sent);
    assert Follows(responses, k) && sent[k] == CursorFor(responses, k);
  }

  /** The inventory or the error that the requests sent so far lead to. */
  ghost predicate Finished(responses: nat -> Response, sent: seq<Option<string>>, r: Result<Inventory, InventoryError>)
    requires sent != []
  {
    var last := responses(|sent| - 1);
    match r
    case Ok(inventory) => PageError(last) == None && (last.next == NoCursor || last.next == Text("")) && inventory == InventoryOf(responses, |sent|)
    case Err(RepeatedCursor) => PageError(last) == None && Continues(last) && Some(last.next.value) in sent
    case Err(TooManyPages) => PageError(last) == None && Continues(last) && Some(last.next.value) !in sent && |sent| == MAX_PAGES
    case Err(e) => PageError(last) == Some(e)
  }

  ghost function CursorsIn(sent: seq<Option<string>>): set<string> {
    set k | 0 <= k < |sent| && sent[k].Some? :: sent[k].value
  }

  lemma CursorsExtend(sent: seq<Option<string>>, c: Option<string>)
    ensures CursorsIn(sent + [c]) == CursorsIn(sent) + (if c.Some? then {c.value} else {})
  {
    forall x | x in CursorsIn(sent) ensures x in CursorsIn(sent + [c]) {
      var k :| 0 <= k < |sent| && sent[k] == Some(x);
      assert (sent + [c])[k] == Some(x);
    }
    if c.Some? {
      assert (sent + [c])[|sent|] == c;
    }
  }

  lemma CursorsAre(sent: seq<Option<string>>, c: string)
    ensures c in CursorsIn(sent) <==> Some(c) in sent
  {
    if Some(c) in sent {
      var k :| 0 <= k < |sent| && sent[k] == Some(c);
      assert sent[k].value in CursorsIn(sent);
    }
  }

  lemma ExtendTrail(responses: nat -> Response, sent: seq<Option<string>>, cursor: Option<string>)
    requires Trail(responses, sent) && cursor !in sent
    requires Follows(responses, |sent|) && cursor == CursorFor(responses, |sent|)
    ensures Trail(responses, sent + [cursor])
  {
    assert (sent + [cursor])[..|sent|] == sent;
  }

  /** The body of the loop up to the cursor: one reply is checked and added. */
  method ReadPage(inventory: Inventory, responses: nat -> Response, page: nat) returns (r: Result<Inventory, InventoryError>)
    requires inventory == InventoryOf(responses, page)
    ensures r.Ok? ==> PageError(responses(page)) == None && r.value == InventoryOf(responses, page + 1)
    ensures r.Err? ==> PageError(responses(page)) == Some(r.error)
  {
    var response := responses(page);
    if response.InvalidResponse? {
      return Err(BadResponse);
    }
    var added := AddPage(inventory, response.data);
    if added.None? {
      return Err(BadStatus);
    }
    if response.next == InvalidCursor {
      return Err(BadCursor);
    }
    return Ok(added.value);
  }

  /**
   `readCodexScheduledAppToolsByApp`. `responses(k)` is the reply to the k-th request and `sent` the cursor
   each request carried. An inventory is returned only when the pages end, and then it holds all of them.
   */
  method ReadToolsByApp(responses: nat -> Response) returns (r: Result<Inventory, InventoryError>, sent: seq<Option<string>>)
    ensures 1 <= |sent| <= MAX_PAGES
    ensures Trail(responses, sent)
    ensures Finished(responses, sent, r)
    ensures r.Ok? ==> HoldsExactly(responses, |sent|, r.value)
  {
    var toolsByApp: Inventory := map[];
    var seenCursors: set<string> := {};
    var cursor: Option<string> := None;
    sent := [];
    var page := 0;
    while page < MAX_PAGES
      invariant 0 <= page <= MAX_PAGES && |sent| == page
      invariant Trail(responses, sent) && cursor !in sent
      invariant Follows(responses, page) && cursor == CursorFor(responses, page)
      invariant seenCursors == CursorsIn(sent + [cursor])
      invariant toolsByApp == InventoryOf(responses, page)
    {
      ExtendTrail(responses, sent, cursor);
      sent := sent + [cursor];
      var added := ReadPage(toolsByApp, responses, page);
      if added.Err? {
        return added, sent;
      }
      toolsByApp := added.value;
      var next := responses(page).next;
      if next == NoCursor || next.value == "" {
        InventoryHoldsExactly(responses, |sent|);
        return Ok(toolsByApp), sent;
      }
      CursorsAre(sent, next.value);
      if next.value in seenCursors {
        return Err(RepeatedCursor), sent;
      }
      cursor := Some(next.value);
      CursorsExtend(sent, cursor);
      seenCursors := seenCursors + {next.value};
      page := page + 1;
    }
    return Err(TooManyPages), sent;
  }
}
