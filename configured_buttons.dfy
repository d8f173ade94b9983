/** The sidebar's action buttons: the navigation mode, the dashboards on show, which
    buttons are active and in what order, and how their number decides the rendering. */
module ConfiguredButtons {
  import opened Wrappers
  import opened Strings
  import opened Records
  import opened Config
  import opened BoardList

  /** `type`. */
  datatype Mode = AdhocMode | FolderMode | BoardMode | DefaultMode

  /** `type`: ad hoc ids win even when the list is empty (an array is truthy), then a
      non-empty folder id, then a non-empty board id. */
  function ModeOf(adhocIds: Option<seq<string>>, folderId: Option<string>, boardId: Option<string>): (r: Mode)
    ensures r == AdhocMode <==> adhocIds.Some?
    ensures r == FolderMode <==> adhocIds.None? && Truthy(folderId)
    ensures r == BoardMode <==> adhocIds.None? && !Truthy(folderId) && Truthy(boardId)
    ensures r == DefaultMode <==> adhocIds.None? && !Truthy(folderId) && !Truthy(boardId)
  {
    if adhocIds.Some? then AdhocMode
    else if Truthy(folderId) then FolderMode
    else if Truthy(boardId) then BoardMode
    else DefaultMode
  }

  /** A source that decides the mode makes every lower-ranked source irrelevant. */
  lemma ModeIgnoresLower(adhocIds: Option<seq<string>>, folderId: Option<string>, boardId: Option<string>,
                         otherFolder: Option<string>, otherBoard: Option<string>)
    ensures adhocIds.Some? ==> ModeOf(adhocIds, folderId, boardId) == ModeOf(adhocIds, otherFolder, otherBoard)
    ensures Truthy(folderId) ==> ModeOf(adhocIds, folderId, boardId) == ModeOf(adhocIds, folderId, otherBoard)
  {
  }

  /** What the buttons read. `config` is the configuration context's value (defaults
      applied); `folderDashboards` is the ids of the folder's dashboards once loaded;
      `board` is the board once loaded. */
  datatype View = View(
    config: ConfigData,
    canUpdateSettings: bool,
    folderId: Option<string>,
    boardId: Option<string>,
    adhocIds: Option<seq<string>>,
    folderDashboards: Option<seq<string>>,
    board: Option<Board>)

  function ViewMode(v: View): Mode
  {
    ModeOf(v.adhocIds, v.folderId, v.boardId)
  }

  /** `show_dashboards`: the ad hoc ids, else the folder's dashboards (`[]` while they
      load), else the configured `dashboards` (`[]` when unset). */
  function ShowDashboards(v: View): (r: seq<string>)
    ensures ViewMode(v) == AdhocMode ==> r == v.adhocIds.value
    ensures ViewMode(v) == FolderMode ==> r == v.folderDashboards.GetOr([])
    ensures ViewMode(v) == BoardMode || ViewMode(v) == DefaultMode ==> r == StringsOrEmpty(Lookup(v.config, "dashboards"))
  {
    match ViewMode(v)
    case AdhocMode => v.adhocIds.value
    case FolderMode => v.folderDashboards.GetOr([])
    case _ => StringsOrEmpty(Lookup(v.config, "dashboards"))
  }

  /** The `current_dashboard_ids` prop of the ad hoc switch: the loaded board's dashboard
      entries when a board id is set, otherwise the dashboards on show. Listing a
      malformed board throws. */
  function CurrentDashboardIds(v: View): (r: Result<seq<string>, BoardError>)
    ensures r.Err? <==> Truthy(v.boardId) && v.board.Some? && BoardListOf(v.board.value).Err?
    ensures Truthy(v.boardId) && v.board.Some? && r.Ok? ==> r.value == DashboardIds(BoardListOf(v.board.value).value)
    ensures !(Truthy(v.boardId) && v.board.Some?) ==> r == Ok(ShowDashboards(v))
  {
    if Truthy(v.boardId) && v.board.Some? then
      match BoardListOf(v.board.value)
      case Ok(list) => Ok(DashboardIds(list))
      case Err(e) => Err(e)
    else Ok(ShowDashboards(v))
  }

  datatype Button =
    | SettingsButton
    | SwitchAdhoc(currentDashboardIds: seq<string>)
    | FolderNav
    | BoardNav
    | SaveAdhoc
    | PrintAll

  /** A button's `key`. */
  function Key(b: Button): string
  {
    match b
    case SettingsButton => "settings"
    case SwitchAdhoc(_) => "switch_adhoc"
    case FolderNav => "folder_nav"
    case BoardNav => "board_nav"
    case SaveAdhoc => "save_adhoc"
    case PrintAll => "print_all"
  }

  /** A button's place in the fixed order. */
  function Rank(b: Button): nat
  {
    match b
    case SettingsButton => 0
    case SwitchAdhoc(_) => 1
    case FolderNav => 2
    case BoardNav => 3
    case SaveAdhoc => 4
    case PrintAll => 5
  }

  /** The key determines the place: two buttons with one key share a rank. */
  lemma KeyDeterminesRank(a: Button, b: Button)
    ensures Key(a) == Key(b) ==> Rank(a) == Rank(b)
  {
  }

  /** Whether the button of rank `k` is active. */
  predicate Wanted(v: View, k: nat)
  {
    match k
    case 0 => v.canUpdateSettings
    case 1 => TruthyValue(Lookup(v.config, "allow_adhoc_dashboards"))
    case 2 => TruthyValue(Lookup(v.config, "enable_folder_navigation"))
    case 3 => TruthyValue(Lookup(v.config, "enable_board_navigation"))
    case 4 => TruthyValue(Lookup(v.config, "save_board_from_adhoc_dashboards")) && v.adhocIds.Some? && |v.adhocIds.value| > 0
    case 5 => TruthyValue(Lookup(v.config, "print_all_dashboards"))
    case _ => false
  }

  function Ranks(buttons: seq<Button>): seq<nat>
  {
    seq(|buttons|, i requires 0 <= i < |buttons| => Rank(buttons[i]))
  }

  /** Strictly increasing ranks. */
  predicate InOrder(buttons: seq<Button>)
  {
    forall i, j :: 0 <= i < j < |buttons| ==> Rank(buttons[i]) < Rank(buttons[j])
  }

  /** The button of rank `k`; the ad hoc switch carries `ids`. */
  function ButtonAt(k: nat, ids: seq<string>): (b: Button)
    requires k < 6
    ensures Rank(b) == k
  {
    match k
    case 0 => SettingsButton
    case 1 => SwitchAdhoc(ids)
    case 2 => FolderNav
    case 3 => BoardNav
    case 4 => SaveAdhoc
    case _ => PrintAll
  }

  /** The ids the ad hoc switch receives, or `[]` when listing the board throws. */
  function SwitchIds(v: View): seq<string>
  {
    if CurrentDashboardIds(v).Ok? then CurrentDashboardIds(v).value else []
  }

  /** The buttons of rank below `n` whose condition holds, in rank order. */
  function Active(v: View, n: nat, ids: seq<string>): seq<Button>
    requires n <= 6
  {
    if n == 0 then []
    else Active(v, n - 1, ids) + if Wanted(v, n - 1) then [ButtonAt(n - 1, ids)] else []
  }

  /** `activeButtons`: each button is pushed when its condition holds, in the fixed order
      settings, switch_adhoc, folder_nav, board_nav, save_adhoc, print_all; listing a
      malformed board for the ad hoc switch throws. */
  method ActiveButtons(v: View) returns (r: Result<seq<Button>, BoardError>)
    ensures r.Err? <==> Wanted(v, 1) && CurrentDashboardIds(v).Err?
    ensures r.Err? ==> r == Err(CurrentDashboardIds(v).error)
    ensures r.Ok? ==> r.value == Active(v, 6, SwitchIds(v))
  {
    ghost var ids := SwitchIds(v);
    var buttons: seq<Button> := [];
    if v.canUpdateSettings {
      buttons := buttons + [SettingsButton];
    }
    assert buttons == Active(v, 1, ids);
    if TruthyValue(Lookup(v.config, "allow_adhoc_dashboards")) {
      var current := CurrentDashboardIds(v);
      if current.Err? {
        return Err(current.error);
      }
      buttons := buttons + [SwitchAdhoc(current.value)];
    }
    assert buttons == Active(v, 2, ids);
    if TruthyValue(Lookup(v.config, "enable_folder_navigation")) {
      buttons := buttons + [FolderNav];
    }
    assert buttons == Active(v, 3, ids);
    if TruthyValue(Lookup(v.config, "enable_board_navigation")) {
      buttons := buttons + [BoardNav];
    }
    assert buttons == Active(v, 4, ids);
    if TruthyValue(Lookup(v.config, "save_board_from_adhoc_dashboards")) && v.adhocIds.Some? && |v.adhocIds.value| > 0 {
      buttons := buttons + [SaveAdhoc];
    }
    assert buttons == Active(v, 5, ids);
    if TruthyValue(Lookup(v.config, "print_all_dashboards")) {
      buttons := buttons + [PrintAll];
    }
    r := Ok(buttons);
  }

  /** The buttons of rank below `n` come in rank order, and each is there exactly when its
      condition holds. */
  lemma {:induction false} ActiveRanks(v: View, n: nat, ids: seq<string>)
    requires n <= 6
    ensures InOrder(Active(v, n, ids))
    ensures forall b :: b in Active(v, n, ids) ==> Rank(b) < n && Wanted(v, Rank(b)) && b == ButtonAt(Rank(b), ids)
    ensures forall k: nat :: k < n ==> (ButtonAt(k, ids) in Active(v, n, ids) <==> Wanted(v, k))
  {
    if n > 0 {
      ActiveRanks(v, n - 1, ids);
      var front := Active(v, n - 1, ids);
      var r := Active(v, n, ids);
      forall i, j | 0 <= i < j < |r|
        ensures Rank(r[i]) < Rank(r[j])
      {
        if j == |front| {
          assert r[i] == front[i] && front[i] in front;
        }
      }
      forall k: nat | k < n
        ensures ButtonAt(k, ids) in r <==> Wanted(v, k)
      {
        if k < n - 1 {
          assert ButtonAt(k, ids) != ButtonAt(n - 1, ids);
        }
      }
    }
  }

  /** The active buttons come in the fixed order, each one exactly when its condition
      holds; the ad hoc switch carries the ids computed for it, and `save_adhoc` needs a
      non-empty ad hoc list. */
  lemma ActiveButtonsSpec(v: View)
    ensures InOrder(Active(v, 6, SwitchIds(v)))
    ensures forall k: nat :: k < 6 ==> (ButtonAt(k, SwitchIds(v)) in Active(v, 6, SwitchIds(v)) <==> Wanted(v, k))
    ensures SettingsButton in Active(v, 6, SwitchIds(v)) <==> v.canUpdateSettings
    ensures SaveAdhoc in Active(v, 6, SwitchIds(v)) ==> v.adhocIds.Some? && |v.adhocIds.value| > 0
    ensures forall ids :: SwitchAdhoc(ids) in Active(v, 6, SwitchIds(v)) ==> ids == SwitchIds(v)
  {
    ActiveRanks(v, 6, SwitchIds(v));
    assert ButtonAt(0, SwitchIds(v)) == SettingsButton;
    assert ButtonAt(4, SwitchIds(v)) == SaveAdhoc;
  }

  /** Buttons in order carry distinct keys. */
  lemma DistinctKeys(buttons: seq<Button>)
    requires InOrder(buttons)
    ensures forall i, j :: 0 <= i < j < |buttons| ==> Key(buttons[i]) != Key(buttons[j])
  {
    forall i, j | 0 <= i < j < |buttons|
      ensures Key(buttons[i]) != Key(buttons[j])
    {
      KeyDeterminesRank(buttons[i], buttons[j]);
    }
  }

  /** What the component renders. */
  datatype Rendering =
    | Nothing
    | Direct(button: Button)
    | ActionsPopover(key: string, buttons: seq<Button>)

  function Keys(buttons: seq<Button>): seq<string>
  {
    seq(|buttons|, i requires 0 <= i < |buttons| => Key(buttons[i]))
  }

  /** One button renders directly, several render inside the Actions popover keyed by
      their comma-joined keys, none renders nothing. */
  function Render(buttons: seq<Button>): (r: Rendering)
    ensures r == Nothing <==> |buttons| == 0
    ensures r.Direct? <==> |buttons| == 1
    ensures r.Direct? ==> r.button == buttons[0]
    ensures r.ActionsPopover? ==> r.buttons == buttons && Split(r.key, ',') == Keys(buttons)
  {
    if |buttons| == 1 then Direct(buttons[0])
    else if |buttons| > 1 then
      var keys := Keys(buttons);
      forall i | 0 <= i < |keys|
        ensures ',' !in keys[i]
      {
        NoComma(buttons[i]);
      }
      SplitJoin(keys, ',');
      ActionsPopover(Join(keys, ","), buttons)
    else Nothing
  }

  lemma NoComma(b: Button)
    ensures ',' !in Key(b)
  {
  }
}
