/** `AppContextProvider`: the folder id read from the path, the initial selection and
    filters read from the query, and the two effects that write the filters and the
    selected dashboard back into the query. */
module AppContext {
  import opened Wrappers
  import opened Strings
  import opened Records
  import opened SearchParams

  /** `folder_id`: the third `/`-separated segment of a path under `/folders/`
      (`undefined` past the end of the split, as JavaScript indexing gives). */
  function FolderId(pathname: string): Option<string>
  {
    if StartsWith(pathname, "/folders/") then
      var parts := Split(pathname, '/');
      if |parts| > 2 then Some(parts[2]) else None
    else None
  }

  lemma SplitUnderFolders(tail: string)
    ensures Split("/folders/" + tail, '/') == ["", "folders"] + Split(tail, '/')
  {
    assert "/folders/" + tail == "" + ['/'] + ("folders" + ['/'] + tail);
    SplitAtSeparator("", '/', "folders" + ['/'] + tail);
    SplitAtSeparator("folders", '/', tail);
  }

  /** Under `/folders/`, the folder id is the text up to the next `/` or the end. */
  lemma FolderIdOfPath(id: string, tail: string)
    requires '/' !in id
    requires tail == "" || tail[0] == '/'
    ensures FolderId("/folders/" + id + tail) == Some(id)
  {
    var p := "/folders/" + id + tail;
    assert p == "/folders/" + (id + tail);
    assert p[..9] == "/folders/";
    SplitUnderFolders(id + tail);
    if tail == "" {
      assert id + tail == id;
      SplitNoSeparator(id, '/');
    } else {
      assert id + tail == id + ['/'] + tail[1..];
      SplitAtSeparator(id, '/', tail[1..]);
    }
  }

  /** There is a folder id exactly when the path starts with `/folders/`. */
  lemma FolderIdDefinedUnderFolders(pathname: string)
    ensures FolderId(pathname).Some? <==> StartsWith(pathname, "/folders/")
  {
    if StartsWith(pathname, "/folders/") {
      assert pathname == "/folders/" + pathname[9..];
      SplitUnderFolders(pathname[9..]);
    }
  }

  /** `/folders/` alone gives the empty id. */
  lemma FolderIdOfBarePrefix()
    ensures FolderId("/folders/") == Some("")
  {
    FolderIdOfPath("", "");
    assert "/folders/" + "" + "" == "/folders/";
  }

  /** `/folders/12/x` gives `12`. */
  lemma FolderIdOfNestedPath()
    ensures FolderId("/folders/12/x") == Some("12")
  {
    FolderIdOfPath("12", "/x");
    assert "/folders/" + "12" + "/x" == "/folders/12/x";
  }

  /** Writing the value a record already holds for `dashboard_id` changes nothing. */
  lemma MirrorCurrentSelection(params: Pairs)
    requires UniqueKeys(params)
    ensures ApplyPatch(params, [("dashboard_id", Lookup(params, "dashboard_id"))]) == params
  {
    var patch := [("dashboard_id", Lookup(params, "dashboard_id"))];
    assert patch[..0] == [];
    if Lookup(params, "dashboard_id").Some? {
      SetSame(params, "dashboard_id", Lookup(params, "dashboard_id").value);
    }
  }

  /** With `{dashboard_id: "3"}` in the parameters, setting the filters `{region: "EU"}`
      and the selection `"7"` in two commits keeps both; in one commit the filters are
      lost. */
  lemma BatchedSettersDropFilters()
    ensures var params, filters := [("dashboard_id", "3")], [("region", "EU")];
      var twoCommits := ApplyPatch(ApplyPatch(params, AsPatch(filters)), [("dashboard_id", Some("7"))]);
      var oneCommit := ApplyPatch(params, [("dashboard_id", Some("7"))]);
      && Lookup(twoCommits, "region") == Some("EU") && Lookup(twoCommits, "dashboard_id") == Some("7")
      && Lookup(oneCommit, "region") == None && Lookup(oneCommit, "dashboard_id") == Some("7")
  {
    var params, filters := [("dashboard_id", "3")], [("region", "EU")];
    assert AsPatch(filters) == [("region", Some("EU"))];
    var merged := ApplyPatch(params, AsPatch(filters));
    assert Lookup(merged, "region") == Some("EU") && Lookup(merged, "dashboard_id") == Some("3");
  }

  /** The embedded dashboard connection kept by the context (opaque). */
  datatype Connection = Connection(handle: nat)

  class AppState {
    /** The context's own `useSearchParams` store. */
    const store: SearchParamsStore
    var globalFilters: Pairs
    var selectedDashboardId: Option<string>
    var dashboard: Option<Connection>

    ghost predicate Valid()
      reads this, store
    {
      store.Valid() && UniqueKeys(globalFilters)
    }

    /** The first render and its effects. The filters start as the whole parameter map
        and the selection as its `dashboard_id`; both effects then run once, each replacing
        the history entry, and neither changes the parameters. */
    constructor (store: SearchParamsStore)
      requires store.Valid()
      modifies store
      ensures Valid() && this.store == store
      ensures globalFilters == old(store.searchParams)
      ensures selectedDashboardId == Lookup(old(store.searchParams), "dashboard_id")
      ensures dashboard == None
      ensures store.searchParams == old(store.searchParams)
      ensures store.history == old(store.history) + [Replace(store.searchParams), Replace(store.searchParams)]
    {
      this.store := store;
      globalFilters := store.searchParams;
      selectedDashboardId := Lookup(store.searchParams, "dashboard_id");
      dashboard := None;
      new;
      var rendered := store.searchParams;
      ApplyOwnEntries(rendered);
      store.UpdateSearchParams(rendered, AsPatch(globalFilters));
      MirrorCurrentSelection(rendered);
      store.UpdateSearchParams(rendered, [("dashboard_id", selectedDashboardId)]);
    }

    /** `setGlobalFilters(filters)` and the effect it triggers: every filter is merged into
        the parameters, and keys the filters do not name keep their values. */
    method SetGlobalFilters(filters: Pairs)
      requires Valid() && UniqueKeys(filters)
      modifies this, store
      ensures Valid()
      ensures globalFilters == filters
      ensures selectedDashboardId == old(selectedDashboardId) && dashboard == old(dashboard)
      ensures store.searchParams == ApplyPatch(old(store.searchParams), AsPatch(filters))
      ensures forall k :: Lookup(filters, k).Some? ==> Lookup(store.searchParams, k) == Lookup(filters, k)
      ensures forall k :: Lookup(filters, k).None? ==> Lookup(store.searchParams, k) == Lookup(old(store.searchParams), k)
      ensures store.history == old(store.history) + [Replace(store.searchParams)]
    {
      globalFilters := filters;
      store.UpdateSearchParams(store.searchParams, AsPatch(filters));
      forall k ensures LastValue(AsPatch(filters), k) == (if Lookup(filters, k).Some? then Some(Lookup(filters, k)) else None) {
        LookupIsLastValue(filters, k);
        AsPatchLastValue(filters, k);
      }
    }

    /** `setSelectedDashboardId(id)` and its effect. Setting the current value again does
        not re-render, so nothing happens; otherwise `dashboard_id` becomes the selection,
        or is deleted when the selection is `undefined`, and every other key is kept. */
    method SetSelectedDashboardId(id: Option<string>)
      requires Valid()
      modifies this, store
      ensures Valid()
      ensures selectedDashboardId == id
      ensures globalFilters == old(globalFilters) && dashboard == old(dashboard)
      ensures id == old(selectedDashboardId) ==>
        store.searchParams == old(store.searchParams) && store.history == old(store.history)
      ensures id != old(selectedDashboardId) ==>
        && Lookup(store.searchParams, "dashboard_id") == id
        && (forall k :: k != "dashboard_id" ==> Lookup(store.searchParams, k) == Lookup(old(store.searchParams), k))
        && store.history == old(store.history) + [Replace(store.searchParams)]
    {
      if id != selectedDashboardId {
        selectedDashboardId := id;
        store.UpdateSearchParams(store.searchParams, [("dashboard_id", id)]);
      }
    }

    /** `setGlobalFilters(filters)` and `setSelectedDashboardId(id)` called in one event
        handler. React renders once, and both effects run with the callback of that render,
        so each merges into the same `search_params`. When the selection changes, the second
        effect's result replaces the first: the filters reach the history once and are then
        lost from the parameters. */
    method SetFiltersAndSelection(filters: Pairs, id: Option<string>)
      requires Valid() && UniqueKeys(filters)
      modifies this, store
      ensures Valid()
      ensures globalFilters == filters && selectedDashboardId == id && dashboard == old(dashboard)
      ensures id == old(selectedDashboardId) ==>
        && store.searchParams == ApplyPatch(old(store.searchParams), AsPatch(filters))
        && store.history == old(store.history) + [Replace(store.searchParams)]
      ensures id != old(selectedDashboardId) ==>
        && store.searchParams == ApplyPatch(old(store.searchParams), [("dashboard_id", id)])
        && Lookup(store.searchParams, "dashboard_id") == id
        && (forall k :: k != "dashboard_id" ==> Lookup(store.searchParams, k) == Lookup(old(store.searchParams), k))
        && store.history == old(store.history) +
             [Replace(ApplyPatch(old(store.searchParams), AsPatch(filters))), Replace(store.searchParams)]
    {
      var rendered := store.searchParams;
      var changed := id != selectedDashboardId;
      globalFilters, selectedDashboardId := filters, id;
      store.UpdateSearchParams(rendered, AsPatch(filters));
      if changed {
        store.UpdateSearchParams(rendered, [("dashboard_id", id)]);
      }
    }

    /** `setDashboard(connection)`. */
    method SetDashboard(connection: Option<Connection>)
      requires Valid()
      modifies this
      ensures Valid()
      ensures dashboard == connection
      ensures globalFilters == old(globalFilters) && selectedDashboardId == old(selectedDashboardId)
    {
      dashboard := connection;
    }
  }

  lemma {:induction false} AsPatchLastValue(p: Pairs, k: string)
    ensures LastValue(AsPatch(p), k) == (if LastValue(p, k).Some? then Some(LastValue(p, k)) else None)
  {
    if |p| > 0 {
      var n := |p| - 1;
      assert AsPatch(p)[..n] == AsPatch(p[..n]);
      AsPatchLastValue(p[..n], k);
    }
  }
}
