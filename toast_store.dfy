/** The toast queue: notifications appended in order and dismissed by id. */
module ToastStore {
  import opened Wrappers
  import opened Sequences

  datatype ToastType = Success | Error | Info

  datatype Toast = Toast(id: string, kind: ToastType, message: string, timeout: Option<int>)

  /** What `enqueue` receives: a toast whose id and timeout may be omitted. */
  datatype ToastInput = ToastInput(kind: ToastType, message: string, timeout: Option<int>, id: Option<string>)

  /** The display time in milliseconds when none is given. */
  const DefaultTimeout: int := 3000

  function ToastKey(t: Toast): string
  {
    t.id
  }

  /** `t.timeout ?? 3000`: only an absent timeout is replaced, an explicit 0 stays. */
  function EffectiveTimeout(timeout: Option<int>): (ms: int)
    ensures timeout.None? ==> ms == DefaultTimeout
    ensures timeout.Some? ==> ms == timeout.value
  {
    timeout.GetOr(DefaultTimeout)
  }

  /** Whether `enqueue` arms the auto-dismiss: `timeout && timeout > 0`. */
  predicate SchedulesDismiss(ms: int)
  {
    ms != 0 && ms > 0
  }

  /** An explicit zero keeps the toast until it is dismissed; an omitted timeout does not. */
  lemma ZeroTimeoutIsKept()
    ensures EffectiveTimeout(Some(0)) == 0 && !SchedulesDismiss(EffectiveTimeout(Some(0)))
    ensures SchedulesDismiss(EffectiveTimeout(None))
  {
  }

  class ToastState {
    var toasts: seq<Toast>

    constructor()
      ensures toasts == []
    {
      toasts := [];
    }

    /**
     * Appends one toast and returns its id (the supplied one, else `freshId`);
     * `scheduled` tells whether its automatic dismissal was armed.
     */
    method Enqueue(t: ToastInput, freshId: string) returns (id: string, scheduled: bool)
      modifies this
      ensures id == t.id.GetOr(freshId)
      ensures toasts == old(toasts) + [Toast(id, t.kind, t.message, Some(EffectiveTimeout(t.timeout)))]
      ensures scheduled <==> EffectiveTimeout(t.timeout) > 0
    {
      id := t.id.GetOr(freshId);
      var toast := Toast(id, t.kind, t.message, Some(EffectiveTimeout(t.timeout)));
      toasts := toasts + [toast];
      scheduled := SchedulesDismiss(toast.timeout.value);
    }

    /** Removes every toast with the id, keeping the others in order. */
    method Dismiss(id: string)
      modifies this
      ensures toasts == RemoveKey(old(toasts), ToastKey, id)
    {
      toasts := RemoveKey(toasts, ToastKey, id);
    }

    method Clear()
      modifies this
      ensures toasts == []
    {
      toasts := [];
    }
  }
}
