/** The toast notifications: the provider's list of toasts with its `show` and `remove`
    updaters, and one toast's view, which maps its type to a message-bar intent and
    reports its own id when it closes. Timers are left out: a toast closes when its
    timer fires or its button is clicked, and the two are the same step here. */
module Toast {
  import opened Wrappers

  datatype ToastType = Success | Error | Warning | Info

  /** `ToastMessage`: `type` and `duration` are always filled in by `showToast`. */
  datatype ToastMessage = ToastMessage(id: string, message: string, kind: ToastType, duration: int)

  const DefaultDuration: int := 5000

  /** `prev.filter((toast) => toast.id !== id)`. */
  function WithoutId(toasts: seq<ToastMessage>, id: string): seq<ToastMessage>
  {
    if |toasts| == 0 then []
    else
      var n := |toasts| - 1;
      if toasts[n].id == id then WithoutId(toasts[..n], id) else WithoutId(toasts[..n], id) + [toasts[n]]
  }

  /** The filter keeps no toast with the id and every toast without it, and adds none. */
  lemma {:induction false} WithoutIdSpec(toasts: seq<ToastMessage>, id: string)
    ensures |WithoutId(toasts, id)| <= |toasts|
    ensures forall i :: 0 <= i < |WithoutId(toasts, id)| ==> WithoutId(toasts, id)[i].id != id
    ensures forall t :: t in toasts && t.id != id ==> t in WithoutId(toasts, id)
    ensures forall t :: t in WithoutId(toasts, id) ==> t in toasts
  {
    if |toasts| > 0 {
      var n := |toasts| - 1;
      WithoutIdSpec(toasts[..n], id);
      assert forall t :: t in toasts <==> t in toasts[..n] || t == toasts[n] by {
        assert toasts == toasts[..n] + [toasts[n]];
      }
    }
  }

  /** Removing keeps the order: it distributes over concatenation. */
  lemma {:induction false} WithoutIdAppend(a: seq<ToastMessage>, b: seq<ToastMessage>, id: string)
    ensures WithoutId(a + b, id) == WithoutId(a, id) + WithoutId(b, id)
  {
    if |b| > 0 {
      var n := |b| - 1;
      assert (a + b)[..|a| + n] == a + b[..n];
      WithoutIdAppend(a, b[..n], id);
    } else {
      assert a + b == a;
    }
  }

  /** Removing an id no toast carries changes nothing. */
  lemma {:induction false} WithoutAbsentId(toasts: seq<ToastMessage>, id: string)
    requires forall i :: 0 <= i < |toasts| ==> toasts[i].id != id
    ensures WithoutId(toasts, id) == toasts
  {
    if |toasts| > 0 {
      var n := |toasts| - 1;
      WithoutAbsentId(toasts[..n], id);
      assert toasts == toasts[..n] + [toasts[n]];
    }
  }

  /** Showing a toast with a fresh id and then removing that id restores the list. */
  lemma ShowThenRemove(toasts: seq<ToastMessage>, t: ToastMessage)
    requires forall i :: 0 <= i < |toasts| ==> toasts[i].id != t.id
    ensures WithoutId(toasts + [t], t.id) == toasts
  {
    WithoutIdAppend(toasts, [t], t.id);
    WithoutAbsentId(toasts, t.id);
    assert [t][..0] == [];
  }

  class ToastStore {
    /** The `toasts` state cell. */
    var toasts: seq<ToastMessage>

    constructor ()
      ensures toasts == []
    {
      toasts := [];
    }

    /** `showToast(message, type, duration)`: appends one toast and leaves the earlier ones
        as they were. A missing type is `info` and a missing duration 5000. The id comes
        from `Math.random` and is a parameter here. */
    method ShowToast(message: string, kind: Option<ToastType>, duration: Option<int>, id: string)
      modifies this
      ensures toasts == old(toasts) + [ToastMessage(id, message, kind.GetOr(Info), duration.GetOr(DefaultDuration))]
    {
      toasts := toasts + [ToastMessage(id, message, kind.GetOr(Info), duration.GetOr(DefaultDuration))];
    }

    /** `showSuccess(message, duration)`. */
    method ShowSuccess(message: string, duration: Option<int>, id: string)
      modifies this
      ensures toasts == old(toasts) + [ToastMessage(id, message, Success, duration.GetOr(DefaultDuration))]
    {
      ShowToast(message, Some(Success), duration, id);
    }

    /** `showError(message, duration)`. */
    method ShowError(message: string, duration: Option<int>, id: string)
      modifies this
      ensures toasts == old(toasts) + [ToastMessage(id, message, Error, duration.GetOr(DefaultDuration))]
    {
      ShowToast(message, Some(Error), duration, id);
    }

    /** `showWarning(message, duration)`. */
    method ShowWarning(message: string, duration: Option<int>, id: string)
      modifies this
      ensures toasts == old(toasts) + [ToastMessage(id, message, Warning, duration.GetOr(DefaultDuration))]
    {
      ShowToast(message, Some(Warning), duration, id);
    }

    /** `showInfo(message, duration)`. */
    method ShowInfo(message: string, duration: Option<int>, id: string)
      modifies this
      ensures toasts == old(toasts) + [ToastMessage(id, message, Info, duration.GetOr(DefaultDuration))]
    {
      ShowToast(message, Some(Info), duration, id);
    }

    /** `removeToast(id)`: every toast with that id goes, the others stay in order. */
    method RemoveToast(id: string)
      modifies this
      ensures toasts == WithoutId(old(toasts), id)
    {
      toasts := WithoutId(toasts, id);
    }
  }

  /** `useToast()`: the provider's value, or the error thrown outside a provider. */
  function UseToast(context: Option<ToastStore>): (r: Result<ToastStore, string>)
    ensures r.Err? <==> context.None?
    ensures r.Ok? ==> r.value == context.value
    ensures r.Err? ==> r.error == "useToast must be used within a ToastProvider"
  {
    if context.None? then Err("useToast must be used within a ToastProvider") else Ok(context.value)
  }

  datatype Intent = Positive | Critical | Warn | Inform

  /** `getMessageBarIntent(type)`: a total map; `info` and a missing type are `inform`. */
  function MessageBarIntent(kind: Option<ToastType>): Intent
  {
    match kind
    case Some(Success) => Positive
    case Some(Error) => Critical
    case Some(Warning) => Warn
    case _ => Inform
  }

  /** The type an intent stands for. */
  function IntentType(intent: Intent): ToastType
  {
    match intent
    case Positive => Success
    case Critical => Error
    case Warn => Warning
    case Inform => Info
  }

  /** Distinct types get distinct intents, and a missing type reads as `info`. */
  lemma IntentFaithful(kind: ToastType)
    ensures IntentType(MessageBarIntent(Some(kind))) == kind
    ensures MessageBarIntent(None) == MessageBarIntent(Some(Info)) == Inform
  {
  }

  /** One `Toast` on screen. */
  class ToastView {
    const id: string
    const message: string
    const kind: ToastType
    const duration: int
    /** The `isVisible` state cell. */
    var visible: bool
    /** The ids passed to `onClose`, in order. */
    var closeCalls: seq<string>

    /** The props with their defaults: type `info`, duration 5000. */
    constructor (id: string, message: string, kind: Option<ToastType>, duration: Option<int>)
      ensures this.id == id && this.message == message
      ensures this.kind == kind.GetOr(Info) && this.duration == duration.GetOr(DefaultDuration)
      ensures visible && closeCalls == []
    {
      this.id, this.message := id, message;
      this.kind, this.duration := kind.GetOr(Info), duration.GetOr(DefaultDuration);
      visible, closeCalls := true, [];
    }

    /** The rendered message bar: its intent and text, or nothing once hidden. */
    function Rendered(): Option<(Intent, string)>
      reads this
    {
      if visible then Some((MessageBarIntent(Some(kind)), message)) else None
    }

    /** The timer firing after `duration`, and the fade-out after it. */
    method Expire()
      modifies this
      ensures !visible && Rendered() == None
      ensures closeCalls == old(closeCalls) + [id]
    {
      visible := false;
      closeCalls := closeCalls + [id];
    }

    /** The message bar's button, and the fade-out after it. */
    method PrimaryClick()
      modifies this
      ensures !visible && Rendered() == None
      ensures closeCalls == old(closeCalls) + [id]
    {
      visible := false;
      closeCalls := closeCalls + [id];
    }
  }
}
