/** The web client's toast notifications: a counter that hands out ids, a
    list of visible toasts that new ones are appended to, and removal by id. */
module Toasts {
  import opened Js
  import Seqs

  datatype Toast = Toast(id: nat, message: Value, kind: Value, duration: Value)

  /** A parameter with a default takes the default when it is passed
      `undefined`, as the wrappers do when called without a duration. */
  function WithDefault(v: Value, default: Value): Value {
    if v == Undefined then default else v
  }

  const DefaultKind := Str("info")
  const DefaultDuration := Num(3000)

  /** Earlier toasts have smaller ids. */
  predicate Increasing(ts: seq<Toast>) {
    forall i, j :: 0 <= i < j < |ts| ==> ts[i].id < ts[j].id
  }

  /** No visible toast has an id above the counter. */
  predicate AllAtMost(ts: seq<Toast>, bound: nat) {
    forall i :: 0 <= i < |ts| ==> ts[i].id <= bound
  }

  predicate HasId(ts: seq<Toast>, id: nat) {
    exists i :: 0 <= i < |ts| && ts[i].id == id
  }

  /** `prev.filter(t => t.id !== id)` */
  function WithoutId(ts: seq<Toast>, id: nat): seq<Toast> {
    Seqs.Filter(ts, (t: Toast) => t.id != id)
  }

  /** Ids in increasing order are pairwise distinct. */
  lemma IncreasingDistinct(ts: seq<Toast>)
    requires Increasing(ts)
    ensures forall i, j :: 0 <= i < |ts| && 0 <= j < |ts| && i != j ==> ts[i].id != ts[j].id
  {
    forall i, j | 0 <= i < |ts| && 0 <= j < |ts| && i != j ensures ts[i].id != ts[j].id {
      if i < j {
        assert ts[i].id < ts[j].id;
      } else {
        assert ts[j].id < ts[i].id;
      }
    }
  }

  /** Appending a toast whose id exceeds the counter keeps the list ordered
      and below the new counter. */
  lemma AppendFresh(ts: seq<Toast>, bound: nat, t: Toast)
    requires Increasing(ts) && AllAtMost(ts, bound)
    requires t.id == bound + 1
    ensures Increasing(ts + [t]) && AllAtMost(ts + [t], t.id)
    ensures !HasId(ts, t.id)
  {
    var r := ts + [t];
    forall i, j | 0 <= i < j < |r| ensures r[i].id < r[j].id {
      if j == |ts| {
        assert r[i] == ts[i];
      } else {
        assert r[i] == ts[i] && r[j] == ts[j];
      }
    }
    assert forall i :: 0 <= i < |ts| ==> r[i] == ts[i];
  }

  /** A toast stays exactly when it was visible and has another id. */
  lemma WithoutIdMembership(ts: seq<Toast>, id: nat, t: Toast)
    ensures t in WithoutId(ts, id) <==> t in ts && t.id != id
  {
    Seqs.FilterMembership(ts, (t: Toast) => t.id != id, t);
  }

  /** After `removeToast(id)` no toast with that id is left. */
  lemma WithoutIdRemovesAll(ts: seq<Toast>, id: nat)
    ensures !HasId(WithoutId(ts, id), id)
  {
    var r := WithoutId(ts, id);
    forall i | 0 <= i < |r| ensures r[i].id != id {
      WithoutIdMembership(ts, id, r[i]);
    }
  }

  /** Removing an id that is not shown changes nothing. */
  lemma WithoutUnknownId(ts: seq<Toast>, id: nat)
    requires !HasId(ts, id)
    ensures WithoutId(ts, id) == ts
  {
    Seqs.FilterKeepsAll(ts, (t: Toast) => t.id != id);
  }

  /** Removal keeps the others in their order, so the list stays increasing
      and below the counter. */
  lemma WithoutIdKeepsInvariant(ts: seq<Toast>, id: nat, bound: nat)
    requires Increasing(ts) && AllAtMost(ts, bound)
    ensures Increasing(WithoutId(ts, id)) && AllAtMost(WithoutId(ts, id), bound)
  {
    var keep := (t: Toast) => t.id != id;
    Seqs.FilterPairwise(ts, keep, (a: Toast, b: Toast) => a.id < b.id);
    var r := WithoutId(ts, id);
    forall i | 0 <= i < |r| ensures r[i].id <= bound {
      WithoutIdMembership(ts, id, r[i]);
    }
  }

  /** Adding a toast and then removing its id restores the list. */
  lemma RemoveUndoesAdd(ts: seq<Toast>, bound: nat, t: Toast)
    requires Increasing(ts) && AllAtMost(ts, bound)
    requires t.id == bound + 1
    ensures WithoutId(ts + [t], t.id) == ts
  {
    AppendFresh(ts, bound, t);
    Seqs.FilterAppend(ts, [t], (x: Toast) => x.id != t.id);
    WithoutUnknownId(ts, t.id);
  }

  /** The provider's state: the module-level counter and the list state. */
  class ToastProvider {
    var toasts: seq<Toast>
    var toastId: nat

    ghost predicate Valid()
      reads this
    {
      Increasing(toasts) && AllAtMost(toasts, toastId)
    }

    /** The first mount after the module is loaded: no toasts, and the
        module-level counter at 0. */
    constructor ()
      ensures toasts == [] && toastId == 0 && Valid()
    {
      toasts, toastId := [], 0;
    }

    /** A later mount of the provider: its `useState([])` starts with no
        toasts, but the module-level `toastId` keeps counting, so the ids it
        hands out stay above every earlier one. */
    method Remount()
      modifies this
      ensures toasts == [] && toastId == old(toastId) && Valid()
    {
      toasts := [];
    }

    /** `addToast(message, type = 'info', duration = 3000)`: the returned id
        is one past every id handed out before, and the toast is appended. */
    method AddToast(message: Value, kind: Value, duration: Value) returns (id: nat)
      modifies this
      ensures id == old(toastId) + 1 && toastId == id
      ensures toasts == old(toasts)
        + [Toast(id, message, WithDefault(kind, DefaultKind), WithDefault(duration, DefaultDuration))]
      ensures old(Valid()) ==> Valid() && !HasId(old(toasts), id)
    {
      toastId := toastId + 1;
      id := toastId;
      var t := Toast(id, message, WithDefault(kind, DefaultKind), WithDefault(duration, DefaultDuration));
      if Increasing(toasts) && AllAtMost(toasts, id - 1) {
        AppendFresh(toasts, id - 1, t);
      }
      toasts := toasts + [t];
    }

    /** `removeToast(id)` */
    method RemoveToast(id: nat)
      modifies this
      ensures toasts == WithoutId(old(toasts), id) && toastId == old(toastId)
      ensures !HasId(toasts, id)
      ensures old(!HasId(toasts, id)) ==> toasts == old(toasts)
      ensures old(Valid()) ==> Valid()
    {
      if Valid() {
        WithoutIdKeepsInvariant(toasts, id, toastId);
      }
      WithoutIdRemovesAll(toasts, id);
      if !HasId(toasts, id) {
        WithoutUnknownId(toasts, id);
      }
      toasts := WithoutId(toasts, id);
    }

    /** `toast.success(msg, duration)` */
    method Success(message: Value, duration: Value) returns (id: nat)
      modifies this
      ensures id == old(toastId) + 1 && toastId == id
      ensures toasts == old(toasts) + [Toast(id, message, Str("success"), WithDefault(duration, DefaultDuration))]
      ensures old(Valid()) ==> Valid()
    {
      id := AddToast(message, Str("success"), duration);
    }

    /** `toast.error(msg, duration)` */
    method Error(message: Value, duration: Value) returns (id: nat)
      modifies this
      ensures id == old(toastId) + 1 && toastId == id
      ensures toasts == old(toasts) + [Toast(id, message, Str("error"), WithDefault(duration, DefaultDuration))]
      ensures old(Valid()) ==> Valid()
    {
      id := AddToast(message, Str("error"), duration);
    }

    /** `toast.info(msg, duration)` */
    method Info(message: Value, duration: Value) returns (id: nat)
      modifies this
      ensures id == old(toastId) + 1 && toastId == id
      ensures toasts == old(toasts) + [Toast(id, message, Str("info"), WithDefault(duration, DefaultDuration))]
      ensures old(Valid()) ==> Valid()
    {
      id := AddToast(message, Str("info"), duration);
    }
  }
}
