/**
 * The notification queue of src/lib/stores/toast.svelte.ts. `show` appends a
 * toast and starts a timer whose callback removes that toast again;
 * `dismiss` removes a toast at once.
 *
 * `crypto.randomUUID()` is passed in as `id`. The timer is returned to the
 * caller as a value, and its callback firing is the explicit call `Expire`.
 */
module Toasts {
  import opened IdLists

  datatype ToastType = Success | Error | Info

  datatype Toast = Toast(id: string, message: string, kind: ToastType)

  /** A pending `setTimeout` callback: after `duration` milliseconds it removes toast `id`. */
  datatype Timer = Timer(id: string, duration: int)

  const DefaultDuration: int := 2500

  function ToastId(t: Toast): string
  {
    t.id
  }

  /**
   * After showing a toast with a fresh identifier, identifiers stay unique,
   * and its timer (or dismissing it) gives back exactly the queue it was added to.
   */
  lemma ShowFreshOnce(toasts: seq<Toast>, t: Toast)
    requires UniqueIds(toasts, ToastId)
    requires forall i :: 0 <= i < |toasts| ==> toasts[i].id != t.id
    ensures UniqueIds(toasts + [t], ToastId)
    ensures RemoveId(toasts + [t], ToastId, t.id) == toasts
  {
    AppendFreshUnique(toasts, ToastId, t);
    RemoveIdAppend(toasts, [t], ToastId, t.id);
    RemoveIdAbsent(toasts, ToastId, t.id);
    assert RemoveId([t], ToastId, t.id) == [];
  }

  /**
   * With unique identifiers, a timer (or a dismissal) for a toast in the
   * queue removes that toast and no other one.
   */
  lemma ExpireRemovesOnlyOwnToast(toasts: seq<Toast>, k: nat)
    requires k < |toasts| && UniqueIds(toasts, ToastId)
    ensures RemoveId(toasts, ToastId, toasts[k].id) == toasts[..k] + toasts[k + 1..]
  {
    RemoveIdUnique(toasts, ToastId, k);
  }

  class ToastStore {
    /** The toasts on screen, oldest first. */
    var toasts: seq<Toast>

    constructor ()
      ensures toasts == []
    {
      toasts := [];
    }

    /** `show(message, type = 'success', duration = 2500)`. */
    method Show(message: string, id: string, kind: ToastType := Success, duration: int := DefaultDuration)
      returns (timer: Timer)
      modifies this
      ensures toasts == old(toasts) + [Toast(id, message, kind)]
      ensures timer == Timer(id, duration)
      ensures UniqueIds(old(toasts), ToastId) && (forall i :: 0 <= i < |old(toasts)| ==> old(toasts)[i].id != id)
              ==> UniqueIds(toasts, ToastId)
    {
      var t := Toast(id, message, kind);
      if UniqueIds(toasts, ToastId) && (forall i :: 0 <= i < |toasts| ==> toasts[i].id != id) {
        ShowFreshOnce(toasts, t);
      }
      toasts := toasts + [t];
      timer := Timer(id, duration);
    }

    /** The timer's callback: removes every toast with the timer's identifier. */
    method Expire(timer: Timer)
      modifies this
      ensures toasts == RemoveId(old(toasts), ToastId, timer.id)
    {
      toasts := RemoveId(toasts, ToastId, timer.id);
    }

    /** `dismiss(id)`: removes every toast with that identifier, keeping the others in order. */
    method Dismiss(id: string)
      modifies this
      ensures toasts == RemoveId(old(toasts), ToastId, id)
    {
      toasts := RemoveId(toasts, ToastId, id);
    }
  }
}
