/**
 * The toasts of ToastContext.js: `addToast` numbers each toast from a counter
 * it increments, and `removeToast` filters a toast out by id.
 */
module Toasts {
  import opened Wrappers
  import opened Seqs

  datatype Toast = Toast(id: nat, message: string, kind: string)

  const DEFAULT_KIND := "info"

  /** Ids strictly increase along the list, in display order. */
  predicate IdsIncrease(ts: seq<Toast>)
  {
    forall i, j :: 0 <= i < j < |ts| ==> ts[i].id < ts[j].id
  }

  /** `prevToasts.filter(toast => toast.id !== toastId)`. */
  function Without(ts: seq<Toast>, toastId: nat): (r: seq<Toast>)
    ensures forall t :: t in r <==> t in ts && t.id != toastId
  {
    Keep(ts, (t: Toast) => t.id != toastId)
  }

  /** Removing an id no toast has leaves the list as it was. */
  lemma WithoutAbsent(ts: seq<Toast>, toastId: nat)
    requires forall i :: 0 <= i < |ts| ==> ts[i].id != toastId
    ensures Without(ts, toastId) == ts
  {
    KeepAll(ts, (t: Toast) => t.id != toastId);
  }

  /** Filtering keeps ids in increasing order. */
  lemma {:induction false} KeepIncreasing(ts: seq<Toast>, p: Toast -> bool)
    requires IdsIncrease(ts)
    ensures IdsIncrease(Keep(ts, p))
  {
    if ts != [] {
      var tail := ts[1..];
      KeepIncreasing(tail, p);
      var rest := Keep(tail, p);
      if p(ts[0]) {
        var r := [ts[0]] + rest;
        forall j | 0 < j < |r|
          ensures ts[0].id < r[j].id
        {
          assert r[j] in tail;
        }
        assert forall i, j :: 0 < i < j < |r| ==> r[i] == rest[i - 1] && r[j] == rest[j - 1];
      } else {
        assert [] + rest == rest;
      }
    }
  }

  /** The toast list of one provider, and the module-level counter `id`. */
  class ToastProvider {
    var toasts: seq<Toast>
    var nextId: nat

    /** Ids increase along the list and are all below the counter, so no two
        toasts share an id. */
    predicate Valid()
      reads this
    {
      IdsIncrease(toasts) && forall i :: 0 <= i < |toasts| ==> toasts[i].id < nextId
    }

    constructor (counter: nat)
      ensures toasts == [] && nextId == counter
      ensures Valid()
    {
      toasts := [];
      nextId := counter;
    }

    /** `addToast(message, type)`: an absent type is "info". */
    method AddToast(message: string, kind: Option<string>)
      requires Valid()
      modifies this
      ensures toasts == old(toasts) + [Toast(old(nextId), message, if kind.Some? then kind.value else DEFAULT_KIND)]
      ensures nextId == old(nextId) + 1
      ensures Valid()
    {
      var t := Toast(nextId, message, if kind.Some? then kind.value else DEFAULT_KIND);
      toasts := toasts + [t];
      nextId := nextId + 1;
    }

    /** `removeToast(toastId)`. */
    method RemoveToast(toastId: nat)
      requires Valid()
      modifies this
      ensures toasts == Without(old(toasts), toastId)
      ensures nextId == old(nextId)
      ensures Valid()
    {
      KeepIncreasing(toasts, (t: Toast) => t.id != toastId);
      toasts := Without(toasts, toastId);
    }
  }
}
