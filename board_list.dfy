/** `getBoardList`: a board flattened into an ordered list of section and dashboard
    entries. Boards, sections and items are the SDK records, restricted to the fields the
    function reads; every field the SDK marks optional is an `Option`. */
module BoardList {
  import opened Wrappers
  import opened Strings

  datatype BoardItem = BoardItem(
    id: Option<string>,
    dashboardId: Option<string>,
    lookmlDashboardId: Option<string>,
    title: Option<string>)

  datatype BoardSection = BoardSection(
    id: Option<string>,
    title: Option<string>,
    description: Option<string>,
    boardItems: Option<seq<BoardItem>>,
    itemOrder: Option<seq<string>>)

  datatype Board = Board(boardSections: Option<seq<BoardSection>>, sectionOrder: Option<seq<string>>)

  datatype EntryKind = SectionEntry | DashboardEntry

  /** `IBoardList`. */
  datatype BoardListItem = BoardListItem(kind: EntryKind, title: string, id: string, description: Option<string>)

  /** The `TypeError` a non-null assertion `!` on a missing list raises. */
  datatype BoardError =
    | MissingSectionOrder
    | MissingBoardSections
    | MissingItemOrder(sectionId: string)

  /** `list?.length` is truthy. */
  predicate NonEmpty<T>(list: Option<seq<T>>)
  {
    list.Some? && |list.value| > 0
  }

  /** `xs.find((x) => x.id === id)`: the first element whose id is `id`. */
  function FindById<T>(xs: seq<T>, idOf: T -> Option<string>, id: string): (r: Option<T>)
    ensures r.None? <==> forall i :: 0 <= i < |xs| ==> idOf(xs[i]) != Some(id)
    ensures r.Some? ==> idOf(r.value) == Some(id)
    ensures r.Some? ==> exists i :: 0 <= i < |xs| && xs[i] == r.value && (forall j :: 0 <= j < i ==> idOf(xs[j]) != Some(id))
  {
    if |xs| == 0 then None
    else if idOf(xs[0]) == Some(id) then Some(xs[0])
    else
      var r := FindById(xs[1..], idOf, id);
      assert forall i :: 1 <= i < |xs| ==> xs[i] == xs[1..][i - 1];
      r
  }

  function SectionIdOf(s: BoardSection): Option<string> { s.id }

  function ItemIdOf(bi: BoardItem): Option<string> { bi.id }

  /** `board_sections.find((s) => s.id === id)`. */
  function FindSection(sections: seq<BoardSection>, id: string): Option<BoardSection>
  {
    FindById(sections, SectionIdOf, id)
  }

  /** `board_items.find((bi) => bi.id === id)`. */
  function FindItem(items: seq<BoardItem>, id: string): Option<BoardItem>
  {
    FindById(items, ItemIdOf, id)
  }

  /** The `section` entry a found section contributes. */
  function SectionItem(s: BoardSection): BoardListItem
  {
    BoardListItem(SectionEntry, OrDefault(s.title, "Section"), OrDefault(s.id, ""),
      if Truthy(s.description) then s.description else None)
  }

  /** The `dashboard` entry an item contributes, when `dashboard_id || lookml_dashboard_id`
      is truthy. */
  function ItemEntry(bi: BoardItem): Option<BoardListItem>
  {
    var dashboardId := OrElse(bi.dashboardId, bi.lookmlDashboardId);
    if Truthy(dashboardId) then Some(BoardListItem(DashboardEntry, OrDefault(bi.title, "Dashboard"), dashboardId.value, None))
    else None
  }

  /** The dashboard entries for the ids of `order`, in order. */
  function ItemEntries(items: seq<BoardItem>, order: seq<string>): seq<BoardListItem>
  {
    if |order| == 0 then []
    else
      var n := |order| - 1;
      var found := FindItem(items, order[n]);
      var entry := if found.Some? then ItemEntry(found.value) else None;
      ItemEntries(items, order[..n]) + (if entry.Some? then [entry.value] else [])
  }

  /** What one id of `section_order` contributes: nothing for a dangling id, otherwise the
      section entry followed by its dashboards. */
  function SectionBlock(sections: Option<seq<BoardSection>>, id: string): Result<seq<BoardListItem>, BoardError>
  {
    if sections.None? then Err(MissingBoardSections)
    else
      var found := FindSection(sections.value, id);
      if found.None? then Ok([])
      else
        var s := found.value;
        if !NonEmpty(s.boardItems) then Ok([SectionItem(s)])
        else if s.itemOrder.None? then Err(MissingItemOrder(id))
        else Ok([SectionItem(s)] + ItemEntries(s.boardItems.value, s.itemOrder.value))
  }

  /** The blocks of the ids of `order`, concatenated; the first failing id's error. */
  function Blocks(sections: Option<seq<BoardSection>>, order: seq<string>): Result<seq<BoardListItem>, BoardError>
  {
    if |order| == 0 then Ok([])
    else
      var n := |order| - 1;
      var front := Blocks(sections, order[..n]);
      if front.Err? then front
      else
        var last := SectionBlock(sections, order[n]);
        if last.Err? then last else Ok(front.value + last.value)
  }

  /** The flattened board. */
  function BoardListOf(board: Board): Result<seq<BoardListItem>, BoardError>
  {
    if !NonEmpty(board.boardSections) && !NonEmpty(board.sectionOrder) then Ok([])
    else if board.sectionOrder.None? then Err(MissingSectionOrder)
    else Blocks(board.boardSections, board.sectionOrder.value)
  }

  /** The ids of the `dashboard` entries, in order:
      `list.filter((item) => item.type === "dashboard").map((item) => item.id)`. */
  function DashboardIds(list: seq<BoardListItem>): (r: seq<string>)
    ensures |r| <= |list|
    ensures forall i :: 0 <= i < |r| ==> exists j :: 0 <= j < |list| && list[j].kind == DashboardEntry && list[j].id == r[i]
    ensures (forall j :: 0 <= j < |list| ==> list[j].kind == SectionEntry) ==> r == []
  {
    if |list| == 0 then []
    else
      var n := |list| - 1;
      var front := DashboardIds(list[..n]);
      assert forall j :: 0 <= j < n ==> list[..n][j] == list[j];
      if list[n].kind == DashboardEntry then front + [list[n].id] else front
  }

  /** The first `dashboard` entry's id: `list.find((item) => item.type === "dashboard")?.id`. */
  function FirstDashboardId(list: seq<BoardListItem>): (r: Option<string>)
    ensures r.None? <==> DashboardIds(list) == []
    ensures r.Some? ==> r.value == DashboardIds(list)[0]
  {
    if |list| == 0 then None
    else
      var rest := FirstDashboardId(list[1..]);
      DashboardIdsCons(list);
      if list[0].kind == DashboardEntry then Some(list[0].id) else rest
  }

  lemma {:induction false} DashboardIdsCons(list: seq<BoardListItem>)
    requires |list| > 0
    ensures DashboardIds(list) == (if list[0].kind == DashboardEntry then [list[0].id] else []) + DashboardIds(list[1..])
  {
    var n := |list| - 1;
    if n > 0 {
      DashboardIdsCons(list[..n]);
      assert list[..n][1..] == list[1..][..n - 1];
      assert list[..n][0] == list[0];
      assert list[1..][n - 1] == list[n];
    } else {
      assert list[..n] == [];
      assert list[1..] == [];
    }
  }

  /** `getBoardList(board)`: the `reduce` over `section_order` pushing into `acc`, with the
      nested `forEach` over `item_order`. */
  method GetBoardList(board: Board) returns (r: Result<seq<BoardListItem>, BoardError>)
    ensures r == BoardListOf(board)
  {
    if !NonEmpty(board.boardSections) && !NonEmpty(board.sectionOrder) {
      return Ok([]);
    }
    if board.sectionOrder.None? {
      return Err(MissingSectionOrder);
    }
    var order := board.sectionOrder.value;
    var acc: seq<BoardListItem> := [];
    var i := 0;
    while i < |order|
      invariant 0 <= i <= |order|
      invariant Blocks(board.boardSections, order[..i]) == Ok(acc)
    {
      assert order[..i + 1][..i] == order[..i];
      if board.boardSections.None? {
        BlocksFailFrom(board.boardSections, order, i);
        return Err(MissingBoardSections);
      }
      var before := acc;
      ghost var block: seq<BoardListItem> := [];
      var found := FindSection(board.boardSections.value, order[i]);
      if found.Some? {
        var s := found.value;
        acc := acc + [SectionItem(s)];
        block := [SectionItem(s)];
        if NonEmpty(s.boardItems) {
          if s.itemOrder.None? {
            BlocksFailFrom(board.boardSections, order, i);
            return Err(MissingItemOrder(order[i]));
          }
          acc := PushItems(acc, s.boardItems.value, s.itemOrder.value);
          block := [SectionItem(s)] + ItemEntries(s.boardItems.value, s.itemOrder.value);
        }
      }
      assert SectionBlock(board.boardSections, order[i]) == Ok(block);
      assert acc == before + block;
      assert order[..i + 1][i] == order[i];
      i := i + 1;
    }
    assert order[..i] == order;
    return Ok(acc);
  }

  /** The nested `forEach` over `item_order`: one `dashboard` entry pushed onto `acc` per
      id that names an item with a truthy `dashboard_id || lookml_dashboard_id`. */
  method PushItems(acc: seq<BoardListItem>, items: seq<BoardItem>, itemOrder: seq<string>) returns (r: seq<BoardListItem>)
    ensures r == acc + ItemEntries(items, itemOrder)
  {
    r := acc;
    var j := 0;
    while j < |itemOrder|
      invariant 0 <= j <= |itemOrder|
      invariant r == acc + ItemEntries(items, itemOrder[..j])
    {
      assert itemOrder[..j + 1][..j] == itemOrder[..j];
      var bi := FindItem(items, itemOrder[j]);
      if bi.Some? {
        var dashboardId := OrElse(bi.value.dashboardId, bi.value.lookmlDashboardId);
        if Truthy(dashboardId) {
          r := r + [BoardListItem(DashboardEntry, OrDefault(bi.value.title, "Dashboard"), dashboardId.value, None)];
        }
      }
      j := j + 1;
    }
    assert itemOrder[..j] == itemOrder;
  }

  /** Once the prefix before id `i` succeeds and id `i` fails, the whole order fails the
      same way. */
  lemma {:induction false} BlocksFailFrom(sections: Option<seq<BoardSection>>, order: seq<string>, i: nat)
    requires i < |order|
    requires Blocks(sections, order[..i]).Ok?
    requires SectionBlock(sections, order[i]).Err?
    ensures Blocks(sections, order) == SectionBlock(sections, order[i])
  {
    var k := i + 1;
    assert order[..k][..i] == order[..i];
    while k < |order|
      invariant i < k <= |order|
      invariant Blocks(sections, order[..k]) == SectionBlock(sections, order[i])
    {
      assert order[..k + 1][..k] == order[..k];
      k := k + 1;
    }
    assert order[..k] == order;
  }

  /** Whether the section an id finds has items but no `item_order`. */
  predicate LacksItemOrder(sections: seq<BoardSection>, id: string)
  {
    var found := FindSection(sections, id);
    found.Some? && NonEmpty(found.value.boardItems) && found.value.itemOrder.None?
  }

  lemma {:induction false} BlocksFail(sections: Option<seq<BoardSection>>, order: seq<string>)
    ensures Blocks(sections, order).Err? <==>
      (|order| > 0 && sections.None?) ||
      (sections.Some? && exists i :: 0 <= i < |order| && LacksItemOrder(sections.value, order[i]))
  {
    if |order| > 0 {
      var n := |order| - 1;
      BlocksFail(sections, order[..n]);
      assert forall i :: 0 <= i < n ==> order[..n][i] == order[i];
      if sections.Some? && Blocks(sections, order).Err? && !Blocks(sections, order[..n]).Err? {
        assert LacksItemOrder(sections.value, order[n]);
      }
    }
  }

  /** The flattening fails exactly when a `!` meets a missing list: sections without a
      `section_order`, a non-empty `section_order` without sections, or a found section
      with items but no `item_order`. */
  lemma BoardListFails(board: Board)
    ensures BoardListOf(board).Err? <==>
      (NonEmpty(board.boardSections) && board.sectionOrder.None?) ||
      (NonEmpty(board.sectionOrder) && board.boardSections.None?) ||
      (board.sectionOrder.Some? && board.boardSections.Some? &&
        exists i :: 0 <= i < |board.sectionOrder.value| && LacksItemOrder(board.boardSections.value, board.sectionOrder.value[i]))
  {
    if board.sectionOrder.Some? {
      BlocksFail(board.boardSections, board.sectionOrder.value);
    }
  }

  /** The ids of the `section` entries, in order. */
  function SectionIds(list: seq<BoardListItem>): seq<string>
  {
    if |list| == 0 then []
    else
      var n := |list| - 1;
      SectionIds(list[..n]) + (if list[n].kind == SectionEntry then [list[n].id] else [])
  }

  /** The ids of `order` that name a section, in order. */
  function FoundIds(sections: seq<BoardSection>, order: seq<string>): seq<string>
  {
    if |order| == 0 then []
    else
      var n := |order| - 1;
      FoundIds(sections, order[..n]) + (if FindSection(sections, order[n]).Some? then [order[n]] else [])
  }

  lemma {:induction false} SectionIdsAppend(a: seq<BoardListItem>, b: seq<BoardListItem>)
    ensures SectionIds(a + b) == SectionIds(a) + SectionIds(b)
  {
    if |b| > 0 {
      var n := |b| - 1;
      assert (a + b)[..|a| + n] == a + b[..n];
      SectionIdsAppend(a, b[..n]);
    } else {
      assert a + b == a;
    }
  }

  lemma {:induction false} ItemEntriesAreDashboards(items: seq<BoardItem>, order: seq<string>)
    ensures forall j :: 0 <= j < |ItemEntries(items, order)| ==> ItemEntries(items, order)[j].kind == DashboardEntry
  {
    if |order| > 0 {
      ItemEntriesAreDashboards(items, order[..|order| - 1]);
    }
  }

  lemma {:induction false} NoSectionIds(list: seq<BoardListItem>)
    requires forall j :: 0 <= j < |list| ==> list[j].kind == DashboardEntry
    ensures SectionIds(list) == []
  {
    if |list| > 0 {
      NoSectionIds(list[..|list| - 1]);
    }
  }

  lemma SectionBlockIds(sections: seq<BoardSection>, id: string)
    requires SectionBlock(Some(sections), id).Ok?
    ensures SectionIds(SectionBlock(Some(sections), id).value) == (if FindSection(sections, id).Some? then [id] else [])
  {
    var found := FindSection(sections, id);
    if found.Some? {
      var s := found.value;
      var head := [SectionItem(s)];
      assert SectionIds(head) == [id] by {
        assert head[..0] == [];
      }
      if NonEmpty(s.boardItems) {
        var tail := ItemEntries(s.boardItems.value, s.itemOrder.value);
        ItemEntriesAreDashboards(s.boardItems.value, s.itemOrder.value);
        NoSectionIds(tail);
        SectionIdsAppend(head, tail);
      }
    }
  }

  lemma {:induction false} BlocksSectionIds(sections: seq<BoardSection>, order: seq<string>)
    requires Blocks(Some(sections), order).Ok?
    ensures SectionIds(Blocks(Some(sections), order).value) == FoundIds(sections, order)
  {
    if |order| > 0 {
      var n := |order| - 1;
      BlocksSectionIds(sections, order[..n]);
      SectionBlockIds(sections, order[n]);
      SectionIdsAppend(Blocks(Some(sections), order[..n]).value, SectionBlock(Some(sections), order[n]).value);
    }
  }

  /** Sections are emitted in `section_order` order, one per id that names a section,
      and ids naming no section are skipped. */
  lemma SectionsInOrder(board: Board)
    requires BoardListOf(board).Ok? && board.sectionOrder.Some? && board.boardSections.Some?
    ensures SectionIds(BoardListOf(board).value) == FoundIds(board.boardSections.value, board.sectionOrder.value)
  {
    if !NonEmpty(board.boardSections) && !NonEmpty(board.sectionOrder) {
      assert board.sectionOrder.value == [];
    } else {
      BlocksSectionIds(board.boardSections.value, board.sectionOrder.value);
    }
  }

  /** An entry as `getBoardList` builds it: a non-empty title, a present description only
      when non-empty, and a dashboard entry with a non-empty id and no description. */
  predicate WellFormed(e: BoardListItem)
  {
    && e.title != ""
    && (e.description.Some? ==> e.description.value != "")
    && (e.kind == DashboardEntry ==> e.id != "" && e.description.None?)
  }

  lemma {:induction false} ItemEntriesWellFormed(items: seq<BoardItem>, order: seq<string>)
    ensures forall j :: 0 <= j < |ItemEntries(items, order)| ==> WellFormed(ItemEntries(items, order)[j])
  {
    if |order| > 0 {
      ItemEntriesWellFormed(items, order[..|order| - 1]);
    }
  }

  lemma {:induction false} BlocksWellFormed(sections: Option<seq<BoardSection>>, order: seq<string>)
    requires Blocks(sections, order).Ok?
    ensures forall j :: 0 <= j < |Blocks(sections, order).value| ==> WellFormed(Blocks(sections, order).value[j])
  {
    if |order| > 0 {
      var n := |order| - 1;
      BlocksWellFormed(sections, order[..n]);
      var found := FindSection(sections.value, order[n]);
      if found.Some? && NonEmpty(found.value.boardItems) {
        ItemEntriesWellFormed(found.value.boardItems.value, found.value.itemOrder.value);
      }
    }
  }

  /** Every entry of a flattened board is well formed. */
  lemma EntriesWellFormed(board: Board)
    requires BoardListOf(board).Ok?
    ensures forall j :: 0 <= j < |BoardListOf(board).value| ==> WellFormed(BoardListOf(board).value[j])
  {
    if board.sectionOrder.Some? {
      BlocksWellFormed(board.boardSections, board.sectionOrder.value);
    }
  }

  lemma {:induction false} BlocksStartWithSection(sections: Option<seq<BoardSection>>, order: seq<string>)
    requires Blocks(sections, order).Ok? && |Blocks(sections, order).value| > 0
    ensures Blocks(sections, order).value[0].kind == SectionEntry
  {
    var n := |order| - 1;
    if |Blocks(sections, order[..n]).value| > 0 {
      BlocksStartWithSection(sections, order[..n]);
    }
  }

  /** A dashboard entry always follows the entry of its section, so a non-empty list starts
      with a section. */
  lemma StartsWithSection(board: Board)
    requires BoardListOf(board).Ok? && |BoardListOf(board).value| > 0
    ensures BoardListOf(board).value[0].kind == SectionEntry
  {
    BlocksStartWithSection(board.boardSections, board.sectionOrder.value);
  }

  /** An `item_order` id yields dashboard `d`: the first item with that id exists and its
      `dashboard_id || lookml_dashboard_id` is the non-empty `d`. */
  predicate ItemYields(items: seq<BoardItem>, id: string, d: string)
  {
    var found := FindItem(items, id);
    found.Some? && OrElse(found.value.dashboardId, found.value.lookmlDashboardId) == Some(d) && d != ""
  }

  /** A `section_order` id yields dashboard `d`: the first section with that id has items,
      and one of its `item_order` ids yields `d`. */
  predicate SectionYields(sections: seq<BoardSection>, id: string, d: string)
  {
    var found := FindSection(sections, id);
    && found.Some? && NonEmpty(found.value.boardItems) && found.value.itemOrder.Some?
    && exists j :: 0 <= j < |found.value.itemOrder.value| && ItemYields(found.value.boardItems.value, found.value.itemOrder.value[j], d)
  }

  /** The dashboard entries of `o1 + o2` are those of `o1` followed by those of `o2`, so the
      entries keep the `item_order` order. */
  lemma {:induction false} ItemEntriesAppend(items: seq<BoardItem>, o1: seq<string>, o2: seq<string>)
    ensures ItemEntries(items, o1 + o2) == ItemEntries(items, o1) + ItemEntries(items, o2)
  {
    if |o2| > 0 {
      var n := |o2| - 1;
      assert (o1 + o2)[..|o1| + n] == o1 + o2[..n];
      assert (o1 + o2)[|o1| + n] == o2[n];
      ItemEntriesAppend(items, o1, o2[..n]);
    } else {
      assert o1 + o2 == o1;
    }
  }

  /** One `item_order` id gives at most one entry: a dashboard entry carrying the id the
      item yields and its title, or `Dashboard` when the title is empty; a dangling id,
      or an item with neither dashboard id, gives none. */
  lemma ItemEntriesOfId(items: seq<BoardItem>, id: string)
    ensures |ItemEntries(items, [id])| <= 1
    ensures ItemEntries(items, [id]) == [] <==> forall d :: !ItemYields(items, id, d)
    ensures forall e :: e in ItemEntries(items, [id]) ==>
      && e.kind == DashboardEntry && ItemYields(items, id, e.id)
      && e.title == OrDefault(FindItem(items, id).value.title, "Dashboard")
  {
    assert [id][..0] == [];
    var found := FindItem(items, id);
    if found.Some? && Truthy(OrElse(found.value.dashboardId, found.value.lookmlDashboardId)) {
      assert ItemYields(items, id, OrElse(found.value.dashboardId, found.value.lookmlDashboardId).value);
    }
  }

  lemma {:induction false} DashboardIdsAppend(a: seq<BoardListItem>, b: seq<BoardListItem>)
    ensures DashboardIds(a + b) == DashboardIds(a) + DashboardIds(b)
  {
    if |b| > 0 {
      var n := |b| - 1;
      assert (a + b)[..|a| + n] == a + b[..n];
      DashboardIdsAppend(a, b[..n]);
    } else {
      assert a + b == a;
    }
  }

  /** The dashboards of an `item_order` are exactly the ids its ids yield. */
  lemma {:induction false} ItemEntriesIds(items: seq<BoardItem>, order: seq<string>, d: string)
    ensures d in DashboardIds(ItemEntries(items, order)) <==> exists j :: 0 <= j < |order| && ItemYields(items, order[j], d)
  {
    if |order| > 0 {
      var n := |order| - 1;
      ItemEntriesIds(items, order[..n], d);
      SomeOfLast(order, order[..n], id => ItemYields(items, id, d));
      var found := FindItem(items, order[n]);
      var entry := if found.Some? then ItemEntry(found.value) else None;
      var tail := if entry.Some? then [entry.value] else [];
      DashboardIdsAppend(ItemEntries(items, order[..n]), tail);
      if entry.Some? {
        assert tail[..0] == [];
        assert DashboardIds(tail) == [entry.value.id];
      }
    }
  }

  lemma SectionBlockDashboards(sections: seq<BoardSection>, id: string, d: string)
    requires SectionBlock(Some(sections), id).Ok?
    ensures d in DashboardIds(SectionBlock(Some(sections), id).value) <==> SectionYields(sections, id, d)
  {
    var found := FindSection(sections, id);
    if found.Some? {
      var s := found.value;
      var head := [SectionItem(s)];
      assert DashboardIds(head) == [] by {
        assert head[..0] == [];
      }
      if NonEmpty(s.boardItems) {
        DashboardIdsAppend(head, ItemEntries(s.boardItems.value, s.itemOrder.value));
        ItemEntriesIds(s.boardItems.value, s.itemOrder.value, d);
      }
    }
  }

  lemma {:induction false} BlocksDashboards(sections: seq<BoardSection>, order: seq<string>, d: string)
    requires Blocks(Some(sections), order).Ok?
    ensures d in DashboardIds(Blocks(Some(sections), order).value) <==>
      exists i :: 0 <= i < |order| && SectionYields(sections, order[i], d)
  {
    if |order| > 0 {
      var n := |order| - 1;
      var front := Blocks(Some(sections), order[..n]).value;
      var last := SectionBlock(Some(sections), order[n]).value;
      assert Blocks(Some(sections), order).value == front + last;
      BlocksDashboards(sections, order[..n], d);
      SectionBlockDashboards(sections, order[n], d);
      DashboardIdsAppend(front, last);
      SomeOfLast(order, order[..n], id => SectionYields(sections, id, d));
    }
  }

  /** Some element of a non-empty list has `p` exactly when some element before the last
      has it, or the last one does. */
  lemma SomeOfLast<T>(xs: seq<T>, front: seq<T>, p: T -> bool)
    requires |xs| > 0 && front == xs[..|xs| - 1]
    ensures (exists i :: 0 <= i < |xs| && p(xs[i])) <==>
      (exists i :: 0 <= i < |front| && p(front[i])) || p(xs[|xs| - 1])
  {
    if i :| 0 <= i < |front| && p(front[i]) {
      assert front[i] == xs[i];
    }
    if i :| 0 <= i < |xs| && p(xs[i]) {
      if i < |front| {
        assert front[i] == xs[i];
      }
    }
  }

  /** A dashboard is listed exactly when some `section_order` id names a section whose
      `item_order` holds an id whose item yields it: dangling section and item ids are
      skipped, and an item contributes `dashboard_id || lookml_dashboard_id` when that is
      not empty. */
  lemma BoardDashboards(board: Board, d: string)
    requires BoardListOf(board).Ok?
    ensures d in DashboardIds(BoardListOf(board).value) <==>
      && board.sectionOrder.Some? && board.boardSections.Some?
      && exists i :: 0 <= i < |board.sectionOrder.value| && SectionYields(board.boardSections.value, board.sectionOrder.value[i], d)
  {
    if NonEmpty(board.boardSections) || NonEmpty(board.sectionOrder) {
      var order := board.sectionOrder.value;
      BlocksFail(board.boardSections, order);
      if board.boardSections.Some? {
        BlocksDashboards(board.boardSections.value, order, d);
      }
    }
  }
}
