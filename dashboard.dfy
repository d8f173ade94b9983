/** `Dashboard`: the ref callback that embeds the initial dashboard once, and the
    `page:changed` handler that feeds the embedded page's filters back. The embed SDK, the
    context callbacks it calls and the `THEME` overlay are inputs, and the calls made are
    recorded in order. */
module Dashboard {
  import opened Wrappers
  import opened Strings
  import opened Records
  import opened UrlToRecord
  import opened BoardList
  import opened AppContext

  /** What the callback reads when it runs. */
  datatype Inputs = Inputs(
    selectedDashboardId: Option<string>,
    folderId: Option<string>,
    /** `folder_dashboards.data`: the ids of the folder's dashboards once loaded. */
    folderDashboards: Option<seq<string>>,
    boardId: Option<string>,
    /** `board.data`: the board once loaded. */
    board: Option<Board>,
    /** `config.dashboards`. */
    configDashboards: Option<seq<string>>)

  /** `list?.[0]`. */
  function First(list: Option<seq<string>>): (r: Option<string>)
    ensures r.Some? <==> list.Some? && |list.value| > 0
    ensures r.Some? ==> r.value == list.value[0]
  {
    if list.Some? && |list.value| > 0 then Some(list.value[0]) else None
  }

  /** The initial dashboard: the selection if truthy; else the first folder dashboard when
      `folder_id` is truthy; else the first `dashboard` entry of the board list when
      `board_id` is truthy and the board is loaded; else the first configured dashboard.
      Flattening a malformed board throws. */
  function InitialDashboard(m: Inputs): Result<Option<string>, BoardError>
  {
    if Truthy(m.selectedDashboardId) then Ok(m.selectedDashboardId)
    else if Truthy(m.folderId) then Ok(First(m.folderDashboards))
    else if Truthy(m.boardId) && m.board.Some? then
      var list := BoardListOf(m.board.value);
      if list.Err? then Err(list.error) else Ok(FirstDashboardId(list.value))
    else Ok(First(m.configDashboards))
  }

  /** Where a dashboard id may come from. */
  predicate OfferedBy(m: Inputs, id: string)
  {
    || m.selectedDashboardId == Some(id)
    || (m.folderDashboards.Some? && id in m.folderDashboards.value)
    || (m.board.Some? && BoardListOf(m.board.value).Ok? && id in DashboardIds(BoardListOf(m.board.value).value))
    || (m.configDashboards.Some? && id in m.configDashboards.value)
  }

  /** The chosen dashboard is always one the inputs offer. */
  lemma InitialIsOffered(m: Inputs)
    requires InitialDashboard(m).Ok? && InitialDashboard(m).value.Some?
    ensures OfferedBy(m, InitialDashboard(m).value.value)
  {
    if !Truthy(m.selectedDashboardId) && !Truthy(m.folderId) && Truthy(m.boardId) && m.board.Some? {
      var list := BoardListOf(m.board.value).value;
      assert DashboardIds(list)[0] in DashboardIds(list);
    }
  }

  /** The precedence: a truthy selection decides alone; without one, a truthy folder id
      decides whatever the board and the configuration hold; without either, a loaded board
      named by a truthy board id decides whatever the configuration holds. */
  lemma InitialPrecedence(m: Inputs, other: Inputs)
    ensures Truthy(m.selectedDashboardId) && other.selectedDashboardId == m.selectedDashboardId ==>
      InitialDashboard(other) == InitialDashboard(m) == Ok(m.selectedDashboardId)
    ensures (!Truthy(m.selectedDashboardId) && Truthy(m.folderId) &&
             other == m.(boardId := other.boardId, board := other.board, configDashboards := other.configDashboards)) ==>
      InitialDashboard(other) == InitialDashboard(m) == Ok(First(m.folderDashboards))
    ensures (!Truthy(m.selectedDashboardId) && !Truthy(m.folderId) && Truthy(m.boardId) && m.board.Some? &&
             other == m.(folderDashboards := other.folderDashboards, configDashboards := other.configDashboards)) ==>
      InitialDashboard(other) == InitialDashboard(m) ==
        (if BoardListOf(m.board.value).Err? then Err(BoardListOf(m.board.value).error)
         else Ok(FirstDashboardId(BoardListOf(m.board.value).value)))
    ensures !Truthy(m.selectedDashboardId) && !Truthy(m.folderId) && !(Truthy(m.boardId) && m.board.Some?) ==>
      InitialDashboard(m) == Ok(First(m.configDashboards))
  {
  }

  /** The page element the dashboard is appended to; only its child count is read. */
  class DashboardCard {
    var children: nat

    constructor ()
      ensures children == 0
    {
      children := 0;
    }
  }

  /** The outcome of the embed's `connect()` promise. */
  datatype ConnectOutcome = Connected(connection: Connection) | ConnectFailed

  /** A call the callback makes on the SDK or the context. */
  datatype Call =
    | InitEmbedSdk
    | ChangeDashboardId(id: string, replace: bool)
    | CreateEmbed(dashboardId: string, params: Pairs)
    | SetDashboard(connection: Connection)
    | LogEmbedError

  /** The calls made once an initial dashboard `id` is resolved. */
  function EmbedCalls(m: Inputs, id: string, globalFilters: Pairs, theme: Pairs, connect: ConnectOutcome): seq<Call>
  {
    (if Truthy(m.selectedDashboardId) then [] else [ChangeDashboardId(id, true)])
    + [CreateEmbed(id, Spread(globalFilters, theme))]
    + (if connect.Connected? then [SetDashboard(connect.connection)] else [LogEmbedError])
  }

  /** `dashboardRef(el)`. `globalFilters` is what `getSearchParams(true)` returns and
      `theme` is `THEME`. Nothing happens without an element or when the element already
      has children, so the embed is created at most once; without a truthy initial
      dashboard only the SDK is initialised; a board that cannot be flattened throws. */
  method DashboardRef(el: DashboardCard?, m: Inputs, globalFilters: Pairs, theme: Pairs, connect: ConnectOutcome)
    returns (calls: seq<Call>, thrown: Option<BoardError>)
    modifies el
    ensures el == null || old(el.children) > 0 ==> calls == [] && thrown == None && (el != null ==> el.children == old(el.children))
    ensures el != null && old(el.children) == 0 ==> match InitialDashboard(m)
      case Err(e) => calls == [InitEmbedSdk] && thrown == Some(e) && el.children == 0
      case Ok(initial) =>
        thrown == None &&
        if Truthy(initial) then
          calls == [InitEmbedSdk] + EmbedCalls(m, initial.value, globalFilters, theme, connect) && el.children == 1
        else
          calls == [InitEmbedSdk] && el.children == 0
  {
    calls, thrown := [], None;
    if el == null || el.children > 0 {
      return;
    }
    calls := calls + [InitEmbedSdk];
    var initial := m.selectedDashboardId;
    if !Truthy(initial) {
      if Truthy(m.folderId) {
        initial := First(m.folderDashboards);
      } else if Truthy(m.boardId) && m.board.Some? {
        var list := GetBoardList(m.board.value);
        if list.Err? {
          thrown := Some(list.error);
          return;
        }
        initial := FirstDashboardId(list.value);
      } else {
        initial := First(m.configDashboards);
      }
    }
    if !Truthy(initial) {
      return;
    }
    if !Truthy(m.selectedDashboardId) {
      calls := calls + [ChangeDashboardId(initial.value, true)];
    }
    calls := calls + [CreateEmbed(initial.value, Spread(globalFilters, theme))];
    el.children := el.children + 1;  // appendTo(el)
    match connect
    case Connected(c) =>
      calls := calls + [SetDashboard(c)];
    case ConnectFailed =>
      calls := calls + [LogEmbedError];
  }

  /** The embed parameters are the global filters overlaid by the theme: a theme key wins,
      and every other filter is passed on. */
  lemma EmbedParamsOverlay(globalFilters: Pairs, theme: Pairs, k: string)
    requires UniqueKeys(globalFilters) && UniqueKeys(theme)
    ensures Lookup(theme, k).Some? ==> Lookup(Spread(globalFilters, theme), k) == Lookup(theme, k)
    ensures Lookup(theme, k).None? ==> Lookup(Spread(globalFilters, theme), k) == Lookup(globalFilters, k)
  {
    SpreadLookup(globalFilters, theme);
    LookupIsLastValue(globalFilters, k);
    LookupIsLastValue(theme, k);
  }

  /** A second run of the callback on the element it filled does nothing. */
  method MountTwice(el: DashboardCard, m: Inputs, globalFilters: Pairs, theme: Pairs, connect: ConnectOutcome)
    returns (first: seq<Call>, second: seq<Call>)
    modifies el
    ensures old(el.children) > 0 ==> first == [] && second == []
    ensures el.children <= 1 || el.children == old(el.children)
    ensures |first| > 1 ==> second == []
  {
    var t1, t2;
    first, t1 := DashboardRef(el, m, globalFilters, theme, connect);
    second, t2 := DashboardRef(el, m, globalFilters, theme, connect);
  }

  /** What the `page:changed` listener does. */
  datatype PageOutcome =
    | Ignored
    | UpdateGlobalFilters(filters: Pairs)
    | Threw(error: UrlError)

  /** The `page:changed` listener: an event whose `absoluteUrl` is missing or empty is
      ignored; otherwise the URL's filters go to `updateGlobalFilters`, and a malformed URL
      throws. `parse` stands for `new URL`. */
  function OnPageChanged(absoluteUrl: Option<string>, parse: string -> ParsedUrl): (r: PageOutcome)
    ensures !Truthy(absoluteUrl) <==> r.Ignored?
    ensures r.Threw? <==> Truthy(absoluteUrl) && parse(absoluteUrl.value).Malformed?
    ensures r.UpdateGlobalFilters? ==> forall i :: 0 <= i < |r.filters| ==>
      r.filters[i].0 !in Reserved && r.filters[i].1 != ""
    ensures r.UpdateGlobalFilters? ==> forall k :: k !in Reserved ==>
      Lookup(r.filters, k) == LastNonEmpty(parse(absoluteUrl.value).searchParams, k)
  {
    if !Truthy(absoluteUrl) then Ignored
    else
      var items := UrlToRecord.UrlToRecord(parse(absoluteUrl.value));
      if items.Err? then Threw(items.error)
      else
        AllFiltersClean(parse(absoluteUrl.value));
        UpdateGlobalFilters(items.value.filters)
  }

  lemma AllFiltersClean(url: ParsedUrl)
    requires UrlToRecord.UrlToRecord(url).Ok?
    ensures forall i :: 0 <= i < |UrlToRecord.UrlToRecord(url).value.filters| ==>
      UrlToRecord.UrlToRecord(url).value.filters[i].0 !in Reserved && UrlToRecord.UrlToRecord(url).value.filters[i].1 != ""
  {
    forall i | 0 <= i < |UrlToRecord.UrlToRecord(url).value.filters| {
      FiltersClean(url, i);
    }
  }
}
