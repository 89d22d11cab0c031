/**
 * The toast queue (services/toast.service.ts): a list of visible toasts that
 * `show` appends to and `dismiss` filters by id. The generated id (time plus a
 * random suffix) is a parameter; each auto-dismiss `setTimeout` is recorded in
 * the `timers` log as the id and delay it was scheduled with.
 */
module Toasts {
  import opened Wrappers

  datatype ToastType = Success | Error | Warning | Info

  datatype Toast = Toast(id: string, message: string, kind: ToastType, duration: int)

  /** A scheduled auto-dismiss: dismiss `id` after `delay` milliseconds. */
  datatype Timer = Timer(id: string, delay: int)

  const DefaultDuration := 3000

  /** `duration ?? DEFAULT_DURATION`: only an omitted duration takes the default; 0 is kept. */
  function EffectiveDuration(duration: Option<int>): (d: int)
    ensures duration.None? ==> d == DefaultDuration
    ensures duration.Some? ==> d == duration.value
  {
    duration.GetOr(DefaultDuration)
  }

  /** `toasts.filter(t => t.id !== id)` */
  function Without(toasts: seq<Toast>, id: string): (r: seq<Toast>)
    ensures |r| <= |toasts|
    ensures forall t :: t in r <==> t in toasts && t.id != id
  {
    if toasts == [] then []
    else if toasts[0].id != id then [toasts[0]] + Without(toasts[1..], id)
    else Without(toasts[1..], id)
  }

  /** Dismissing an id no toast carries leaves the list as it is. */
  lemma {:induction false} WithoutUnknownId(toasts: seq<Toast>, id: string)
    requires forall t :: t in toasts ==> t.id != id
    ensures Without(toasts, id) == toasts
  {
    if toasts != [] {
      WithoutUnknownId(toasts[1..], id);
      assert toasts == [toasts[0]] + toasts[1..];
    }
  }

  /** Dismissing twice is dismissing once. */
  lemma WithoutIdempotent(toasts: seq<Toast>, id: string)
    ensures Without(Without(toasts, id), id) == Without(toasts, id)
  {
    WithoutUnknownId(Without(toasts, id), id);
  }

  /** Dismissing one id keeps the order of the others: it commutes with appending. */
  lemma {:induction false} WithoutAppend(a: seq<Toast>, b: seq<Toast>, id: string)
    ensures Without(a + b, id) == Without(a, id) + Without(b, id)
  {
    if a == [] {
      assert a + b == b;
    } else {
      assert (a + b)[1..] == a[1..] + b;
      WithoutAppend(a[1..], b, id);
    }
  }

  /** Dismissing a freshly shown toast by its (unused) id restores the list as it was before `show`. */
  lemma DismissUndoesShow(toasts: seq<Toast>, t: Toast)
    requires forall u :: u in toasts ==> u.id != t.id
    ensures Without(toasts + [t], t.id) == toasts
  {
    WithoutAppend(toasts, [t], t.id);
    WithoutUnknownId(toasts, t.id);
  }

  class ToastService {
    var toasts: seq<Toast>
    ghost var timers: seq<Timer>

    constructor ()
      ensures toasts == [] && timers == []
    {
      toasts := [];
      timers := [];
    }

    /**
     * `show`: append one toast at the end (type `info` and 3000 ms unless
     * given) and schedule its dismissal only for a positive duration.
     */
    method Show(message: string, kind: Option<ToastType>, duration: Option<int>, id: string)
      modifies this
      ensures toasts == old(toasts) + [Toast(id, message, kind.GetOr(Info), EffectiveDuration(duration))]
      ensures timers == old(timers) + (if EffectiveDuration(duration) > 0 then [Timer(id, EffectiveDuration(duration))] else [])
    {
      var toast := Toast(id, message, kind.GetOr(Info), EffectiveDuration(duration));
      toasts := toasts + [toast];
      if toast.duration > 0 {
        timers := timers + [Timer(toast.id, toast.duration)];
      }
    }

    /** `success`: `show` with type `success`. */
    method ShowSuccess(message: string, duration: Option<int>, id: string)
      modifies this
      ensures toasts == old(toasts) + [Toast(id, message, Success, EffectiveDuration(duration))]
      ensures timers == old(timers) + (if EffectiveDuration(duration) > 0 then [Timer(id, EffectiveDuration(duration))] else [])
    {
      Show(message, Some(Success), duration, id);
    }

    /** `error`: `show` with type `error`. */
    method ShowError(message: string, duration: Option<int>, id: string)
      modifies this
      ensures toasts == old(toasts) + [Toast(id, message, Error, EffectiveDuration(duration))]
      ensures timers == old(timers) + (if EffectiveDuration(duration) > 0 then [Timer(id, EffectiveDuration(duration))] else [])
    {
      Show(message, Some(Error), duration, id);
    }

    /** `warning`: `show` with type `warning`. */
    method ShowWarning(message: string, duration: Option<int>, id: string)
      modifies this
      ensures toasts == old(toasts) + [Toast(id, message, Warning, EffectiveDuration(duration))]
      ensures timers == old(timers) + (if EffectiveDuration(duration) > 0 then [Timer(id, EffectiveDuration(duration))] else [])
    {
      Show(message, Some(Warning), duration, id);
    }

    /** `info`: `show` with type `info`. */
    method ShowInfo(message: string, duration: Option<int>, id: string)
      modifies this
      ensures toasts == old(toasts) + [Toast(id, message, Info, EffectiveDuration(duration))]
      ensures timers == old(timers) + (if EffectiveDuration(duration) > 0 then [Timer(id, EffectiveDuration(duration))] else [])
    {
      Show(message, Some(Info), duration, id);
    }

    /** `dismiss`: remove every toast with this id, keeping the others in order. */
    method Dismiss(id: string)
      modifies this`toasts
      ensures toasts == Without(old(toasts), id)
    {
      toasts := Without(toasts, id);
    }

    /** `clear`: remove all toasts (scheduled dismissals stay pending). */
    method Clear()
      modifies this`toasts
      ensures toasts == []
    {
      toasts := [];
    }
  }
}
