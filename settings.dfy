/** The settings dialog: its form's initial values, the validator, and closing the
    dialog, which submits and closes only when the form validates. The form library's
    asynchronous validation and submission are taken as one step. */
module Settings {
  import opened Wrappers
  import opened Records
  import opened Config
  import opened ExtensionContext
  import opened Toast

  const GroupErrorMessage: string := "Unable to update restrict settings as your user is not in the Group IDs and is not an admin"
  const SuccessMessage: string := "Settings updated, please refresh the page to see the changes"

  /** `value || fallback`: a falsy value (missing, `false`, `""`) takes the fallback. */
  function OrValue(v: Option<Value>, fallback: Value): Value
  {
    if TruthyValue(v) then v.value else fallback
  }

  /** The form fields and their `||` fallbacks, in order. */
  const FormDefaults: ConfigData := [
    ("dashboards", VStrings([])),
    ("restrict_settings", VBool(false)),
    ("print_all_dashboards", VBool(false)),
    ("setting_group_ids", VStrings([])),
    ("label", VString("")),
    ("enable_folder_navigation", VBool(false)),
    ("enable_board_navigation", VBool(false))]

  /** `initialValues`: each form field holds the stored value when it is truthy and the
      field's fallback otherwise. */
  function InitialValues(c: ConfigData): (r: ConfigData)
    ensures |r| == |FormDefaults|
    ensures forall i :: 0 <= i < |r| ==> r[i].0 == FormDefaults[i].0
    ensures forall i :: 0 <= i < |r| ==> TruthyValue(Lookup(c, r[i].0)) ==> r[i].1 == Lookup(c, r[i].0).value
    ensures forall i :: 0 <= i < |r| ==> !TruthyValue(Lookup(c, r[i].0)) ==> r[i].1 == FormDefaults[i].1
  {
    seq(|FormDefaults|, i requires 0 <= i < |FormDefaults| => (FormDefaults[i].0, OrValue(Lookup(c, FormDefaults[i].0), FormDefaults[i].1)))
  }

  /** The first render's form: the hook's state starts as `{}`, so every field holds its
      fallback. */
  lemma FirstRenderValues()
    ensures InitialValues([]) == FormDefaults
  {
    var empty: ConfigData := [];
    var r := InitialValues(empty);
    forall i | 0 <= i < |r|
      ensures r[i] == FormDefaults[i]
    {
      assert Lookup(empty, FormDefaults[i].0).None?;
    }
  }

  /** The two ways of defaulting disagree on a missing flag: the form's `||` gives
      `false` where the configuration context's `??` gives `true`. A stored `false` is
      `false` under both. */
  lemma OrDiffersFromCoalesce(c: ConfigData)
    ensures Lookup(c, "print_all_dashboards").None? ==>
      InitialValues(c)[2].1 == VBool(false) && Lookup(WithDefaults(c), "print_all_dashboards") == Some(VBool(true))
    ensures Lookup(c, "print_all_dashboards") == Some(VBool(false)) ==>
      InitialValues(c)[2].1 == VBool(false) && Lookup(WithDefaults(c), "print_all_dashboards") == Some(VBool(false))
  {
    assert InitialValues(c)[2].0 == "print_all_dashboards";
    WithDefaultsAt(c, "print_all_dashboards", VBool(true));
  }

  /** `validate(values)`: when `restrict_settings` is on, the user is not an admin and
      is in none of `setting_group_ids` (missing read as `[]`), the one error is on
      `setting_group_ids`; otherwise there is none. So the form validates exactly when
      the values would grant the permission to change them. */
  function Validate(values: ConfigData, isAdmin: bool, me: Option<User>): (errors: Pairs)
    ensures errors == [] <==> CanUpdateSettings(values, isAdmin, me)
    ensures errors != [] ==> errors == [("setting_group_ids", GroupErrorMessage)]
    ensures !TruthyValue(Lookup(values, "restrict_settings")) || isAdmin ==> errors == []
  {
    if TruthyValue(Lookup(values, "restrict_settings")) && !isAdmin &&
       !UserInGroups(StringsOrEmpty(Lookup(values, "setting_group_ids")), me)
    then [("setting_group_ids", GroupErrorMessage)]
    else []
  }

  class SettingsDialog {
    /** The `open` flag. */
    var open: bool
    /** The form's `values`. */
    var values: ConfigData
    /** The hook's state and the toast provider. */
    const hook: ExtensionContextData
    const toasts: ToastStore

    /** The mounted dialog, closed. The first render computes `initialValues` from the
        hook's initial `{}` state, which gives the fallbacks (`FirstRenderValues`); the
        effect on `config_data` then resets the form to the stored data. */
    constructor (hook: ExtensionContextData, toasts: ToastStore)
      requires hook.configData.Some?
      ensures this.hook == hook && this.toasts == toasts
      ensures !open && values == hook.configData.value
    {
      this.hook, this.toasts := hook, toasts;
      open := false;
      values := InitialValues([]);
      new;
      ResetForm();
    }

    /** The effect on `config_data`: `resetForm({ values: config_data })` replaces the
        form values, fallbacks included, with the stored data. */
    method ResetForm()
      requires hook.configData.Some?
      modifies this
      ensures values == hook.configData.value && open == old(open)
    {
      values := hook.configData.value;
    }

    /** `formik.setFieldValue(key, value)`. */
    method SetFieldValue(key: string, value: Value)
      modifies this
      ensures values == Set(old(values), key, value) && open == old(open)
    {
      values := Set(values, key, value);
    }

    /** The button that opens the dialog. */
    method Open()
      modifies this
      ensures open && values == old(values)
    {
      open := true;
    }

    /** The dialog's `onClose`. With validation errors nothing happens and the dialog stays
        as it is. Without, the values are submitted (`updateValues`, then the success toast
        unless `updateValues` threw) and the dialog closes. */
    method OnClose(toastId: string) returns (thrown: Option<Thrown>)
      requires hook.Valid() && hook.configData.Some?
      modifies this, hook, toasts
      ensures Validate(old(values), hook.isAdmin, hook.me) != [] ==>
        && open == old(open) && values == old(values) && thrown == None
        && hook.configData == old(hook.configData) && hook.saved == old(hook.saved)
        && toasts.toasts == old(toasts.toasts)
      ensures Validate(old(values), hook.isAdmin, hook.me) == [] ==> !open && values == old(values)
      ensures Validate(old(values), hook.isAdmin, hook.me) == [] && thrown.None? ==>
        toasts.toasts == old(toasts.toasts) + [ToastMessage(toastId, SuccessMessage, Success, 5000)]
      ensures Validate(old(values), hook.isAdmin, hook.me) == [] && thrown.Some? ==>
        toasts.toasts == old(toasts.toasts)
      ensures Validate(old(values), hook.isAdmin, hook.me) == [] && old(hook.CanUpdate()) && old(hook.contextData).Some? ==>
        hook.configData == Some(MergeValues(old(hook.contextData).value, AsPatch(old(values))))
      ensures Validate(old(values), hook.isAdmin, hook.me) == [] && !old(hook.CanUpdate()) ==>
        hook.configData == old(hook.configData) && hook.saved == old(hook.saved)
    {
      thrown := None;
      var errors := Validate(values, hook.isAdmin, hook.me);
      if |errors| == 0 {
        thrown := hook.UpdateValues(AsPatch(values));
        if thrown.None? {
          toasts.ShowSuccess(SuccessMessage, Some(5000), toastId);
        }
        open := false;
      }
    }
  }
}
