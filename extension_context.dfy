/** `useExtensionContextData`, the older hook the settings dialog uses: the same
    permission rule and merge as the configuration context, without defaults or a theme
    update, and without the `{}` fallback when the SDK holds no context data. */
module ExtensionContext {
  import opened Wrappers
  import opened Records
  import opened Config

  /** The `TypeError` of `delete current[key]` or `current[key] = value` on `undefined`. */
  datatype Thrown = TypeError

  class ExtensionContextData {
    /** The `config_data` state cell; `None` once it has been set to `undefined`. */
    var configData: Option<ConfigData>
    /** What `extension_sdk.getContextData()` returns; `None` when it returns nothing. */
    var contextData: Option<ConfigData>
    /** The arguments of every `saveContextData` call; `None` for `undefined`. */
    var saved: seq<Option<ConfigData>>
    /** How many times `refreshContextData` was called. */
    var refreshes: nat
    /** The messages logged with `console.error`. */
    var errors: seq<string>
    /** `is_admin` and `me` from the application context. */
    const isAdmin: bool
    const me: Option<User>

    ghost predicate Valid()
      reads this
    {
      (configData.Some? ==> UniqueKeys(configData.value)) && (contextData.Some? ==> UniqueKeys(contextData.value))
    }

    /** The hook after its mount effect: `config_data` is the context data, or `{}`. */
    constructor (contextData: Option<ConfigData>, isAdmin: bool, me: Option<User>)
      requires contextData.Some? ==> UniqueKeys(contextData.value)
      ensures Valid()
      ensures configData == Some(contextData.GetOr([])) && this.contextData == contextData
      ensures this.isAdmin == isAdmin && this.me == me
      ensures saved == [] && refreshes == 0 && errors == []
    {
      configData := Some(contextData.GetOr([]));
      this.contextData := contextData;
      saved, refreshes, errors := [], 0, [];
      this.isAdmin, this.me := isAdmin, me;
    }

    /** `can_update_settings`. It reads `config_data.restrict_settings`, so it needs a
        defined `config_data`. */
    function CanUpdate(): bool
      requires configData.Some?
      reads this
    {
      CanUpdateSettings(configData.value, isAdmin, me)
    }

    /** `updateValues(values)`. Without permission it logs and changes nothing. Otherwise
        it merges the values into the context data, and the merged object becomes the
        state and is saved. With no context data, the first value throws; with no values,
        `undefined` is stored and saved. The caller needs a defined `config_data`, as the
        render that computes `can_update_settings` throws without one. */
    method UpdateValues(values: Values) returns (thrown: Option<Thrown>)
      requires Valid() && configData.Some?
      modifies this
      ensures Valid()
      ensures !old(CanUpdate()) ==>
        && thrown == None && errors == old(errors) + [NotAllowedMessage]
        && configData == old(configData) && contextData == old(contextData)
        && saved == old(saved) && refreshes == old(refreshes)
      ensures old(CanUpdate()) && old(contextData).None? && |values| > 0 ==>
        && thrown == Some(TypeError) && errors == old(errors)
        && configData == old(configData) && contextData == old(contextData)
        && saved == old(saved) && refreshes == old(refreshes)
      ensures old(CanUpdate()) && old(contextData).None? && |values| == 0 ==>
        && thrown == None && errors == old(errors)
        && configData == None && contextData == None
        && saved == old(saved) + [None] && refreshes == old(refreshes) + 1
      ensures old(CanUpdate()) && old(contextData).Some? ==>
        && thrown == None && errors == old(errors)
        && configData == Some(MergeValues(old(contextData).value, values))
        && contextData == configData
        && saved == old(saved) + [configData] && refreshes == old(refreshes) + 1
    {
      thrown := None;
      if !CanUpdate() {
        errors := errors + [NotAllowedMessage];
        return;
      }
      if contextData.None? {
        if |values| > 0 {
          thrown := Some(TypeError);
          return;
        }
        configData := None;
        saved := saved + [None];
        refreshes := refreshes + 1;
        return;
      }
      var current := MergeEntries(contextData.value, values);
      configData := Some(current);
      contextData := Some(current);
      saved := saved + [Some(current)];
      refreshes := refreshes + 1;
    }
  }
}
