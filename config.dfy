/** `ConfigContext`: the extension's stored configuration, its defaults, the permission
    to change it, and `updateValues`, which merges a partial configuration into the stored
    one and saves it. The configuration is a JSON object whose fields hold strings,
    booleans or string arrays. */
module Config {
  import opened Wrappers
  import opened Records
  import opened Constants

  datatype Value = VString(s: string) | VBool(b: bool) | VStrings(list: seq<string>)

  /** `IExtensionConfig`. */
  type ConfigData = Record<Value>

  /** `Partial<IExtensionConfig>`: `None` is `undefined` or `null`. */
  type Values = Record<Option<Value>>

  /** The part of `IUser` that is read. */
  datatype User = User(groupIds: Option<seq<string>>)

  /** JavaScript truthiness of an optional field. */
  predicate TruthyValue(v: Option<Value>)
  {
    v.Some? &&
    match v.value
    case VString(s) => s != ""
    case VBool(b) => b
    case VStrings(_) => true
  }

  /** `field || []` for a string-array field. */
  function StringsOrEmpty(v: Option<Value>): seq<string>
  {
    if v.Some? && v.value.VStrings? then v.value.list else []
  }

  /** `intersection(a, b)`: the elements of `b` that occur in `a`, in `b`'s order and
      with `b`'s duplicates. */
  function Intersection(a: seq<string>, b: seq<string>): seq<string>
  {
    if |b| == 0 then []
    else
      var n := |b| - 1;
      Intersection(a, b[..n]) + (if b[n] in a then [b[n]] else [])
  }

  /** Each element of `b` that occurs in `a` is kept as often as `b` holds it; the others
      are dropped. */
  lemma {:induction false} IntersectionCounts(a: seq<string>, b: seq<string>)
    ensures forall x :: multiset(Intersection(a, b))[x] == if x in a then multiset(b)[x] else 0
  {
    if |b| > 0 {
      var n := |b| - 1;
      IntersectionCounts(a, b[..n]);
      assert b == b[..n] + [b[n]];
      assert multiset(b) == multiset(b[..n]) + multiset{b[n]};
    }
  }

  /** Filtering distributes over concatenation, so the order of `b` is kept. */
  lemma {:induction false} IntersectionAppend(a: seq<string>, b1: seq<string>, b2: seq<string>)
    ensures Intersection(a, b1 + b2) == Intersection(a, b1) + Intersection(a, b2)
  {
    if |b2| > 0 {
      var n := |b2| - 1;
      assert (b1 + b2)[..|b1| + n] == b1 + b2[..n];
      IntersectionAppend(a, b1, b2[..n]);
    } else {
      assert b1 + b2 == b1;
    }
  }

  /** When every element of `b` is in `a`, nothing is dropped. */
  lemma {:induction false} IntersectionKeepsAll(a: seq<string>, b: seq<string>)
    requires forall i :: 0 <= i < |b| ==> b[i] in a
    ensures Intersection(a, b) == b
  {
    if |b| > 0 {
      var n := |b| - 1;
      assert b[n] in a;
      IntersectionKeepsAll(a, b[..n]);
      assert b == b[..n] + [b[n]];
    }
  }

  /** The intersection is non-empty exactly when the lists share an element. */
  lemma {:induction false} IntersectionNonEmpty(a: seq<string>, b: seq<string>)
    ensures |Intersection(a, b)| > 0 <==> exists i :: 0 <= i < |b| && b[i] in a
  {
    if |b| > 0 {
      var n := |b| - 1;
      IntersectionNonEmpty(a, b[..n]);
      if exists i :: 0 <= i < n && b[..n][i] in a {
        var i :| 0 <= i < n && b[..n][i] in a;
        assert b[i] in a;
      }
      if exists i :: 0 <= i < |b| && b[i] in a {
        var i :| 0 <= i < |b| && b[i] in a;
        if i < n {
          assert b[..n][i] in a;
        }
      }
    }
  }

  /** `me?.group_ids || []`. */
  function GroupIdsOf(me: Option<User>): seq<string>
  {
    if me.Some? && me.value.groupIds.Some? then me.value.groupIds.value else []
  }

  /** `checkCurrentUserCanUpdateSettings(groupIds)`: the user belongs to one of the groups.
      A user without groups, or no user, never does. */
  function UserInGroups(groupIds: seq<string>, me: Option<User>): (r: bool)
    ensures r <==> exists j :: 0 <= j < |GroupIdsOf(me)| && GroupIdsOf(me)[j] in groupIds
    ensures me.None? || me.value.groupIds.None? ==> !r
  {
    IntersectionNonEmpty(groupIds, GroupIdsOf(me));
    |Intersection(groupIds, GroupIdsOf(me))| > 0
  }

  /** `can_update_settings`: anyone when `restrict_settings` is falsy; otherwise an admin
      or a member of one of `setting_group_ids`. `isAdmin` is the context's `is_admin`. */
  function CanUpdateSettings(c: ConfigData, isAdmin: bool, me: Option<User>): (r: bool)
    ensures r <==>
      || !TruthyValue(Lookup(c, "restrict_settings"))
      || isAdmin
      || exists j :: 0 <= j < |GroupIdsOf(me)| && GroupIdsOf(me)[j] in StringsOrEmpty(Lookup(c, "setting_group_ids"))
  {
    if !TruthyValue(Lookup(c, "restrict_settings")) then true
    else if isAdmin then true
    else UserInGroups(StringsOrEmpty(Lookup(c, "setting_group_ids")), me)
  }

  /** The default of `config_data_with_defaults` for a key, if it has one. */
  function DefaultFor(k: string): Option<Value>
  {
    if k == "remove_branded_loading" then Some(VBool(false))
    else if k == "print_all_dashboards" || k == "enable_folder_navigation" || k == "enable_board_navigation" ||
            k == "allow_adhoc_dashboards" || k == "save_board_from_adhoc_dashboards" then Some(VBool(true))
    else if k == "background_color" then Some(VString(DefaultDashboardBackgroundColor))
    else if k == "paper_color" then Some(VString(DefaultDashboardPaperColor))
    else None
  }

  /** The defaulted keys, in the order they are spread. */
  const DefaultedKeys: seq<string> := [
    "remove_branded_loading", "print_all_dashboards", "enable_folder_navigation",
    "enable_board_navigation", "allow_adhoc_dashboards", "save_board_from_adhoc_dashboards",
    "background_color", "paper_color"]

  /** `v ?? d`: only a missing value takes the default. */
  function Coalesce(v: Option<Value>, d: Value): Value
  {
    if v.Some? then v.value else d
  }

  /** The fields `key: config_data[key] ?? default` for the keys `ks`, in order. */
  function DefaultedFields(c: ConfigData, ks: seq<string>): (r: ConfigData)
    ensures forall k :: LastValue(r, k) == if k in ks then Some(Coalesce(Lookup(c, k), DefaultFor(k).GetOr(VBool(false)))) else None
  {
    if |ks| == 0 then []
    else
      var n := |ks| - 1;
      assert forall k :: k in ks <==> k in ks[..n] || k == ks[n] by {
        assert ks == ks[..n] + [ks[n]];
      }
      var r := DefaultedFields(c, ks[..n]) + [(ks[n], Coalesce(Lookup(c, ks[n]), DefaultFor(ks[n]).GetOr(VBool(false))))];
      assert r[..|r| - 1] == DefaultedFields(c, ks[..n]);
      r
  }

  lemma DefaultedKeysHaveDefaults(k: string)
    ensures k in DefaultedKeys <==> DefaultFor(k).Some?
  {
  }

  /** `config_data_with_defaults`: the stored configuration with every defaulted key set
      by `??`, so an explicit `false` or empty string is kept and only a missing key takes
      its default; all other keys are passed through. */
  function WithDefaults(c: ConfigData): (r: ConfigData)
    ensures UniqueKeys(r)
    ensures forall k :: (Lookup(r, k) ==
      if DefaultFor(k).Some? then Some(Coalesce(Lookup(c, k), DefaultFor(k).value)) else LastValue(c, k))
  {
    forall k ensures k in DefaultedKeys <==> DefaultFor(k).Some? {
      DefaultedKeysHaveDefaults(k);
    }
    Spread(c, DefaultedFields(c, DefaultedKeys))
  }

  /** One defaulted key of `config_data_with_defaults`. */
  lemma WithDefaultsAt(c: ConfigData, k: string, d: Value)
    requires DefaultFor(k) == Some(d)
    ensures Lookup(WithDefaults(c), k) == Some(Coalesce(Lookup(c, k), d))
  {
  }

  /** One key without a default, passed through by `config_data_with_defaults`. */
  lemma WithDefaultsPassesThrough(c: ConfigData, k: string)
    requires DefaultFor(k).None?
    ensures Lookup(WithDefaults(c), k) == LastValue(c, k)
  {
  }

  /** A missing `remove_branded_loading` reads `false` and a missing flag such as
      `print_all_dashboards` reads `true`. */
  lemma MissingFlagsDefault(c: ConfigData)
    ensures Lookup(c, "remove_branded_loading").None? ==> Lookup(WithDefaults(c), "remove_branded_loading") == Some(VBool(false))
    ensures Lookup(c, "print_all_dashboards").None? ==> Lookup(WithDefaults(c), "print_all_dashboards") == Some(VBool(true))
  {
    WithDefaultsAt(c, "remove_branded_loading", VBool(false));
    WithDefaultsAt(c, "print_all_dashboards", VBool(true));
  }

  /** Missing colours read `#A3B3C9` (background) and `#ffffff` (paper). */
  lemma MissingColoursDefault(c: ConfigData)
    ensures Lookup(c, "background_color").None? ==> Lookup(WithDefaults(c), "background_color") == Some(VString("#A3B3C9"))
    ensures Lookup(c, "paper_color").None? ==> Lookup(WithDefaults(c), "paper_color") == Some(VString("#ffffff"))
  {
    WithDefaultsAt(c, "background_color", VString("#A3B3C9"));
    WithDefaultsAt(c, "paper_color", VString("#ffffff"));
  }

  /** A stored `false` survives `??`, and a key without a default passes through. */
  lemma ExplicitValuesKept(c: ConfigData)
    ensures Lookup(c, "print_all_dashboards") == Some(VBool(false)) ==> Lookup(WithDefaults(c), "print_all_dashboards") == Some(VBool(false))
    ensures Lookup(WithDefaults(c), "dashboards") == LastValue(c, "dashboards")
  {
    WithDefaultsAt(c, "print_all_dashboards", VBool(true));
    WithDefaultsPassesThrough(c, "dashboards");
  }

  /** What `updateValues` stores for one value: nothing for `undefined`, `null` or `""`;
      `false` and `[]` are stored. */
  function Stored(v: Option<Value>): Option<Value>
  {
    if v.None? || v == Some(VString("")) then None else v
  }

  /** The loop of `updateValues` over `Object.entries(values)`: `delete current[key]` or
      `current[key] = value`. Keys the values do not name keep their stored value. */
  function MergeValues(current: ConfigData, values: Values): (r: ConfigData)
    ensures UniqueKeys(current) ==> UniqueKeys(r)
    ensures forall k :: Lookup(r, k) == if LastValue(values, k).Some? then Stored(LastValue(values, k).value) else Lookup(current, k)
  {
    if |values| == 0 then current
    else
      var n := |values| - 1;
      var front := MergeValues(current, values[..n]);
      var (key, value) := values[n];
      if Stored(value).None? then Delete(front, key) else Set(front, key, value.value)
  }

  /** Merging is idempotent: merging the same values a second time changes no key. */
  lemma MergeValuesIdempotent(current: ConfigData, values: Values)
    requires UniqueKeys(current)
    ensures forall k :: Lookup(MergeValues(MergeValues(current, values), values), k) == Lookup(MergeValues(current, values), k)
  {
  }

  /** The loop of `updateValues` over `Object.entries(values)`, run on its own object:
      `delete current[key]` for `undefined`, `null` and `""`, `current[key] = value`
      otherwise. */
  method MergeEntries(start: ConfigData, values: Values) returns (current: ConfigData)
    ensures current == MergeValues(start, values)
  {
    current := start;
    var i := 0;
    while i < |values|
      invariant 0 <= i <= |values|
      invariant current == MergeValues(start, values[..i])
    {
      assert values[..i + 1][..i] == values[..i];
      var (key, value) := values[i];
      if value.None? || value == Some(VString("")) {
        current := Delete(current, key);
      } else {
        current := Set(current, key, value.value);
      }
      assert current == MergeValues(start, values[..i + 1]);
      i := i + 1;
    }
    assert values[..i] == values;
  }

  const NotAllowedMessage: string := "You are not allowed to update the settings"

  class ConfigProvider {
    /** The `config_data` state cell. */
    var configData: ConfigData
    /** What `extension_sdk.getContextData()` returns; `None` when it returns nothing. */
    var contextData: Option<ConfigData>
    /** The arguments of every `updateDashboardTheme` call. */
    var themeUpdates: seq<ConfigData>
    /** The arguments of every `saveContextData` call. */
    var saved: seq<ConfigData>
    /** How many times `refreshContextData` was called. */
    var refreshes: nat
    /** The messages logged with `console.error`. */
    var errors: seq<string>
    /** `is_admin` and `me` from the application context. */
    const isAdmin: bool
    const me: Option<User>

    ghost predicate Valid()
      reads this
    {
      UniqueKeys(configData) && (contextData.Some? ==> UniqueKeys(contextData.value))
    }

    /** The provider after its mount effect: `config_data` is the context data, or `{}`. */
    constructor (contextData: Option<ConfigData>, isAdmin: bool, me: Option<User>)
      requires contextData.Some? ==> UniqueKeys(contextData.value)
      ensures Valid()
      ensures configData == contextData.GetOr([]) && this.contextData == contextData
      ensures this.isAdmin == isAdmin && this.me == me
      ensures themeUpdates == [] && saved == [] && refreshes == 0 && errors == []
    {
      configData := contextData.GetOr([]);
      this.contextData := contextData;
      themeUpdates, saved, refreshes, errors := [], [], 0, [];
      this.isAdmin, this.me := isAdmin, me;
    }

    /** `config`, as the provider exposes it. */
    function Config(): ConfigData
      reads this
    {
      WithDefaults(configData)
    }

    /** `can_update_settings`, computed from the current `config_data`. */
    function CanUpdate(): bool
      reads this
    {
      CanUpdateSettings(configData, isAdmin, me)
    }

    /** `updateValues(values)`. Without permission it logs and changes nothing. Otherwise
        it merges the values into the context data (`{}` when there is none), and the one
        merged object becomes the state, goes to `updateDashboardTheme` and is saved. */
    method UpdateValues(values: Values)
      requires Valid()
      modifies this
      ensures Valid()
      ensures !old(CanUpdate()) ==>
        && errors == old(errors) + [NotAllowedMessage]
        && configData == old(configData) && contextData == old(contextData)
        && themeUpdates == old(themeUpdates) && saved == old(saved) && refreshes == old(refreshes)
      ensures old(CanUpdate()) ==>
        && configData == MergeValues(old(contextData).GetOr([]), values)
        && contextData == Some(configData)
        && themeUpdates == old(themeUpdates) + [configData]
        && saved == old(saved) + [configData]
        && refreshes == old(refreshes) + 1
        && errors == old(errors)
    {
      if !CanUpdate() {
        errors := errors + [NotAllowedMessage];
        return;
      }
      var current := MergeEntries(contextData.GetOr([]), values);
      configData := current;  // `{ ...current }`, the same entries (FromEntriesOfRecord)
      contextData := Some(current);
      themeUpdates := themeUpdates + [current];
      saved := saved + [current];
      refreshes := refreshes + 1;
    }
  }
}
