/** The print-all button: the render URL of one dashboard's PDF, which dashboards get
    printed, and the handler that opens one browser window per dashboard. The date in
    the file name is a parameter, as is the cache of dashboard titles. */
module PrintAll {
  import opened Wrappers
  import opened Strings
  import opened Records
  import opened Config
  import opened BoardList
  import opened AdhocSwitch

  /** The fixed start of every render path. */
  const RenderPrefix: string := "/render/process/wd/1680/1/dashboards/"

  /** The render path of a dashboard's PDF: the fixed prefix, the id, and `.pdf`, so that
      the id reads back from between them and holds a `?` exactly when the path does. */
  function RenderPath(dashboardId: string): (r: string)
    ensures |r| == |RenderPrefix| + |dashboardId| + 4
    ensures r[..|RenderPrefix|] == RenderPrefix
    ensures r[|r| - 4..] == ".pdf"
    ensures r[|RenderPrefix|..|r| - 4] == dashboardId
    ensures '?' in r <==> '?' in dashboardId
  {
    RenderPrefix + dashboardId + ".pdf"
  }

  /** The fixed query keys and their values, before the caller's filters. */
  function RenderDefaults(filename: string, date: string): Pairs
  {
    [("filename", filename + "_" + date),
     ("longTables", "false"),
     ("title", filename),
     ("pdf_landscape", "false"),
     ("pdf_paper_size", "fitPageToDashboard"),
     ("print_mode", "true")]
  }

  /** `query_params`: the fixed keys, then `...filters`. */
  function RenderQuery(filename: string, date: string, filters: Pairs): Pairs
  {
    Spread(RenderDefaults(filename, date), filters)
  }

  /** `getDashboardRenderUrl(dashboard_id, filename, filters)`. */
  function RenderUrl(dashboardId: string, filename: string, filters: Pairs, date: string): string
  {
    RenderPath(dashboardId) + "?" + EncodedQueryString(RenderQuery(filename, date, filters))
  }

  /** A caller's filter overrides a fixed key, because the filters are spread last; each
      fixed key the filters leave alone keeps its value. */
  lemma RenderQueryLookup(filename: string, date: string, filters: Pairs, k: string)
    ensures LastValue(filters, k).Some? ==> Lookup(RenderQuery(filename, date, filters), k) == LastValue(filters, k)
    ensures LastValue(filters, k).None? ==> Lookup(RenderQuery(filename, date, filters), k) == Lookup(RenderDefaults(filename, date), k)
  {
    var d := RenderDefaults(filename, date);
    LookupIsLastValue(d, k);
  }

  /** The fixed values: the file name carries the date after it, the title does not. */
  lemma RenderDefaultValues(filename: string, date: string)
    ensures Lookup(RenderDefaults(filename, date), "filename") == Some(filename + "_" + date)
    ensures Lookup(RenderDefaults(filename, date), "title") == Some(filename)
    ensures Lookup(RenderDefaults(filename, date), "print_mode") == Some("true")
    ensures Lookup(RenderDefaults(filename, date), "pdf_paper_size") == Some("fitPageToDashboard")
  {
    var d := RenderDefaults(filename, date);
    LookupUnique(d, 0);
    LookupUnique(d, 2);
    LookupUnique(d, 4);
    LookupUnique(d, 5);
  }

  /** The URL splits at its first `?` into the render path and a query that reads back as
      the composed parameters, when the id holds no `?`. */
  lemma RenderUrlReadsBack(dashboardId: string, filename: string, filters: Pairs, date: string)
    requires '?' !in dashboardId
    ensures var (path, query) := SplitAtFirst(RenderUrl(dashboardId, filename, filters, date), '?');
      path == RenderPath(dashboardId) && query.Some? &&
      FormDecode(query.value) == RenderQuery(filename, date, filters)
  {
    var q := EncodedQueryString(RenderQuery(filename, date, filters));
    assert '?' !in RenderPath(dashboardId);
    SplitAtFirstOf(RenderPath(dashboardId), '?', q);
    EncodedQueryRoundTrip(RenderQuery(filename, date, filters));
  }

  /** The dashboards to print: the folder's when `folder_id` is set (`[]` while they load),
      else, for a board, its `dashboard` entries (`[]` until it loads), else the configured
      `dashboards`. Listing a malformed board throws. */
  function PrintIds(config: ConfigData, folderId: Option<string>, boardId: Option<string>,
                    folderDashboards: Option<seq<string>>, board: Option<Board>): (r: Result<seq<string>, BoardError>)
    ensures Truthy(folderId) ==> r == Ok(folderDashboards.GetOr([]))
    ensures !Truthy(folderId) && Truthy(boardId) && board.None? ==> r == Ok([])
    ensures !Truthy(folderId) && Truthy(boardId) && board.Some? ==>
      (r.Err? <==> BoardListOf(board.value).Err?) &&
      (r.Ok? ==> r.value == DashboardIds(BoardListOf(board.value).value))
    ensures !Truthy(folderId) && !Truthy(boardId) ==> r == Ok(StringsOrEmpty(Lookup(config, "dashboards")))
  {
    if Truthy(folderId) then Ok(folderDashboards.GetOr([]))
    else if Truthy(boardId) then
      if board.None? then Ok([])
      else
        match BoardListOf(board.value)
        case Ok(list) => Ok(DashboardIds(list))
        case Err(e) => Err(e)
    else Ok(StringsOrEmpty(Lookup(config, "dashboards")))
  }

  /** The file name: the cached title when it is not empty, else `dashboard_<id>`. */
  function Filename(dashboardId: string, cachedTitle: Option<string>): (r: string)
    ensures r != ""
    ensures Truthy(cachedTitle) ==> r == cachedTitle.value
    ensures !Truthy(cachedTitle) ==> r == "dashboard_" + dashboardId
  {
    OrDefault(cachedTitle, "dashboard_" + dashboardId)
  }

  /** `openBrowserWindow(url, target)`. */
  datatype Window = Window(url: string, target: string)

  /** The window opened for one dashboard. */
  function WindowFor(dashboardId: string, titles: string -> Option<string>, filters: Pairs, date: string): Window
  {
    Window(RenderUrl(dashboardId, Filename(dashboardId, titles(dashboardId)) + ".pdf", filters, date), "_blank")
  }

  /** The windows opened for a list of dashboards, one per id, in order. */
  function WindowsFor(ids: seq<string>, titles: string -> Option<string>, filters: Pairs, date: string): (r: seq<Window>)
  {
    seq(|ids|, i requires 0 <= i < |ids| => WindowFor(ids[i], titles, filters, date))
  }

  lemma WindowsForSnoc(ids: seq<string>, titles: string -> Option<string>, filters: Pairs, date: string, i: nat)
    requires i < |ids|
    ensures WindowsFor(ids[..i + 1], titles, filters, date) == WindowsFor(ids[..i], titles, filters, date) + [WindowFor(ids[i], titles, filters, date)]
  {
    var a, b := WindowsFor(ids[..i + 1], titles, filters, date), WindowsFor(ids[..i], titles, filters, date);
    forall j | 0 <= j < i
      ensures a[j] == b[j]
    {
      assert ids[..i + 1][j] == ids[..i][j];
    }
  }

  /** Each window opens a new tab on the render URL of its dashboard, named after its
      title (or id) with `.pdf` appended, and carrying the caller's filters. */
  lemma WindowsForDashboards(ids: seq<string>, titles: string -> Option<string>, filters: Pairs, date: string, i: nat)
    requires i < |ids| && '?' !in ids[i]
    ensures var w := WindowsFor(ids, titles, filters, date)[i];
      var (path, query) := SplitAtFirst(w.url, '?');
      && w.target == "_blank"
      && path == RenderPath(ids[i])
      && query.Some?
      && FormDecode(query.value) == RenderQuery(Filename(ids[i], titles(ids[i])) + ".pdf", date, filters)
  {
    RenderUrlReadsBack(ids[i], Filename(ids[i], titles(ids[i])) + ".pdf", filters, date);
  }

  const NoDashboardsWarning: string := "No dashboard IDs found in configuration"

  class PrintAllButton {
    /** The `running` flag that shows the progress indicator. */
    var running: bool
    /** Every `openBrowserWindow` call, in order. */
    var windows: seq<Window>
    /** Every `console.warn` message, in order. */
    var warnings: seq<string>

    constructor ()
      ensures !running && windows == [] && warnings == []
    {
      running, windows, warnings := false, [], [];
    }

    /** `handlePrintAll()`. With dashboards to print, one `_blank` window per dashboard is
        opened, in order, and `running` ends false. With none, it warns and returns early,
        leaving `running` true. Listing a malformed board throws after `running` is set.
        `getSearchParams(true)` returns `filters` on every call. */
    method HandlePrintAll(config: ConfigData, folderId: Option<string>, boardId: Option<string>,
                          folderDashboards: Option<seq<string>>, board: Option<Board>,
                          titles: string -> Option<string>, filters: Pairs, date: string)
      returns (thrown: Option<BoardError>)
      modifies this
      ensures var ids := PrintIds(config, folderId, boardId, folderDashboards, board);
        && (thrown.Some? <==> ids.Err?)
        && (ids.Err? ==> running && windows == old(windows) && warnings == old(warnings) && thrown == Some(ids.error))
        && (ids == Ok([]) ==> running && windows == old(windows) && warnings == old(warnings) + [NoDashboardsWarning])
        && (ids.Ok? && ids.value != [] ==>
             && !running && warnings == old(warnings)
             && windows == old(windows) + WindowsFor(ids.value, titles, filters, date))
    {
      thrown := None;
      running := true;
      var dashboardIds := StringsOrEmpty(Lookup(config, "dashboards"));
      if Truthy(folderId) {
        dashboardIds := folderDashboards.GetOr([]);
      } else if Truthy(boardId) {
        if board.None? {
          dashboardIds := [];
        } else {
          var list := GetBoardList(board.value);
          if list.Err? {
            thrown := Some(list.error);
            return;
          }
          dashboardIds := DashboardIds(list.value);
        }
      }
      assert PrintIds(config, folderId, boardId, folderDashboards, board) == Ok(dashboardIds);
      if |dashboardIds| == 0 {
        warnings := warnings + [NoDashboardsWarning];
        return;
      }
      OpenWindows(dashboardIds, titles, filters, date);
      running := false;
    }

    /** The loop of `handlePrintAll`: one `_blank` window per dashboard, in order. */
    method OpenWindows(dashboardIds: seq<string>, titles: string -> Option<string>, filters: Pairs, date: string)
      modifies this
      ensures windows == old(windows) + WindowsFor(dashboardIds, titles, filters, date)
      ensures running == old(running) && warnings == old(warnings)
    {
      var i := 0;
      while i < |dashboardIds|
        invariant 0 <= i <= |dashboardIds|
        invariant windows == old(windows) + WindowsFor(dashboardIds[..i], titles, filters, date)
        invariant running == old(running) && warnings == old(warnings)
      {
        var w := WindowOf(dashboardIds[i], titles, filters, date);
        WindowsForSnoc(dashboardIds, titles, filters, date, i);
        windows := windows + [w];
        i := i + 1;
      }
      assert dashboardIds[..i] == dashboardIds;
    }

    /** One iteration's `openBrowserWindow` arguments: the file name from the title cache,
        then the render URL. */
    static method WindowOf(dashboardId: string, titles: string -> Option<string>, filters: Pairs, date: string)
      returns (w: Window)
      ensures w == WindowFor(dashboardId, titles, filters, date)
    {
      var filename := OrDefault(titles(dashboardId), "dashboard_" + dashboardId);
      var url := RenderUrl(dashboardId, filename + ".pdf", filters, date);
      w := Window(url, "_blank");
    }
  }
}
