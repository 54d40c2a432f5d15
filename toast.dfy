/** The toast queue of frontend/src/composables/useToast.ts: one list of
    toasts and one id counter, shared by every caller of `useToast`. The
    clock is a parameter, and the auto-dismiss timers that `show` asks
    for are kept as a list of pending requests that `Expire` runs. */
module Toasts {
  import opened Common
  import Decimal

  datatype Variant = Primary | Secondary | Success | Warning | Danger | Info | Ghost | Outline

  /** `ToastOptions`; a `duration` is a whole number of milliseconds. */
  datatype ToastOptions = ToastOptions(
    id: Option<string>,
    title: Option<string>,
    message: string,
    variant: Option<Variant>,
    duration: Option<int>,
    position: Option<string>,
    closeable: Option<bool>,
    icon: Option<string>)

  /** A shown toast: its options, as given, under its final id. */
  datatype Toast = Toast(id: string, options: ToastOptions, createdAt: int)

  /** An auto-dismiss requested from the runtime. */
  datatype Timer = Timer(id: string, delay: int)

  /** The id of the n-th generated toast. */
  function GeneratedId(n: nat): (s: string)
    ensures |s| > 6 && s[..6] == "toast-"
  {
    "toast-" + Decimal.NatToString(n)
  }

  /** Whether `options.id` is used: only a non-empty text counts. */
  predicate HasOwnId(o: ToastOptions)
  {
    o.id.Some? && o.id.value != ""
  }

  /** The id `show` gives a toast when the counter stands at `counter`. */
  function IdFor(o: ToastOptions, counter: nat): (id: string)
    ensures HasOwnId(o) ==> id == o.id.value
    ensures !HasOwnId(o) ==> id == GeneratedId(counter + 1)
    ensures id != ""
  {
    if HasOwnId(o) then o.id.value else GeneratedId(counter + 1)
  }

  /** The counter after `show`: it moves only when an id is generated. */
  function NextCounter(o: ToastOptions, counter: nat): (n: nat)
    ensures n == counter || (n == counter + 1 && !HasOwnId(o))
    ensures HasOwnId(o) <==> n == counter
  {
    if HasOwnId(o) then counter else counter + 1
  }

  /** The delay after which `show` dismisses the toast, if it does: the
      given duration, or 3000 when none is given, and nothing when that
      is zero or negative. */
  function DismissDelay(o: ToastOptions): (r: Option<int>)
    ensures r.Some? ==> r.value > 0
    ensures o.duration.None? ==> r == Some(3000)
    ensures o.duration.Some? && o.duration.value <= 0 ==> r.None?
    ensures o.duration.Some? && o.duration.value > 0 ==> r == o.duration
  {
    var d := if o.duration.Some? then o.duration.value else 3000;
    if d > 0 then Some(d) else None
  }

  /** The options a convenience method passes to `show`: those given, with
      the message and the variant replaced. */
  function Forced(extra: Option<ToastOptions>, message: string, v: Variant): (o: ToastOptions)
    ensures o.message == message && o.variant == Some(v)
    ensures extra.Some? ==> o.id == extra.value.id && o.title == extra.value.title && o.duration == extra.value.duration
                            && o.position == extra.value.position && o.closeable == extra.value.closeable
                            && o.icon == extra.value.icon
    ensures extra.None? ==> o.id.None? && o.duration.None? && o.title.None?
  {
    var base := if extra.Some? then extra.value else ToastOptions(None, None, "", None, None, None, None, None);
    base.(message := message, variant := Some(v))
  }

  // --------------------------------------------------------- list helpers

  predicate HasId(ts: seq<Toast>, id: string)
  {
    exists j :: 0 <= j < |ts| && ts[j].id == id
  }

  /** The position of the first toast with this id, or -1. */
  function FirstIndex(ts: seq<Toast>, id: string): (r: int)
    ensures -1 <= r < |ts|
    ensures r >= 0 ==> ts[r].id == id && forall j :: 0 <= j < r ==> ts[j].id != id
    ensures r == -1 <==> !HasId(ts, id)
  {
    if ts == [] then -1
    else if ts[0].id == id then 0
    else
      var r := FirstIndex(ts[1..], id);
      if r == -1 then
        assert forall j :: 1 <= j < |ts| ==> ts[j] == ts[1..][j - 1];
        -1
      else r + 1
  }

  /** The list without its first toast of this id. */
  function RemoveFirst(ts: seq<Toast>, id: string): (r: seq<Toast>)
    ensures |r| == if HasId(ts, id) then |ts| - 1 else |ts|
  {
    var i := FirstIndex(ts, id);
    if i < 0 then ts else ts[..i] + ts[i + 1..]
  }

  /** `remove` leaves the list as it was when no toast has the id, and
      otherwise takes out exactly one toast, the first with that id,
      keeping the others in order. */
  lemma RemoveFirstSpec(ts: seq<Toast>, id: string)
    ensures !HasId(ts, id) ==> RemoveFirst(ts, id) == ts
    ensures HasId(ts, id) ==>
              var i := FirstIndex(ts, id);
              |RemoveFirst(ts, id)| == |ts| - 1
              && ts[i].id == id
              && (forall j :: 0 <= j < i ==> ts[j].id != id && RemoveFirst(ts, id)[j] == ts[j])
              && (forall j :: i <= j < |ts| - 1 ==> RemoveFirst(ts, id)[j] == ts[j + 1])
  {
  }

  /** `remove` takes out one toast with the id and keeps every other. */
  lemma RemoveFirstTakesOne(ts: seq<Toast>, id: string)
    requires HasId(ts, id)
    ensures multiset(RemoveFirst(ts, id)) == multiset(ts) - multiset{ts[FirstIndex(ts, id)]}
  {
    var i := FirstIndex(ts, id);
    assert RemoveFirst(ts, id) == ts[..i] + ts[i + 1..];
    DropOne(ts, i);
  }

  lemma DropOne(ts: seq<Toast>, i: nat)
    requires i < |ts|
    ensures multiset(ts[..i] + ts[i + 1..]) == multiset(ts) - multiset{ts[i]}
  {
    var before, after := ts[..i], ts[i + 1..];
    assert ts == before + ([ts[i]] + after);
    assert multiset(ts) == multiset(before) + multiset{ts[i]} + multiset(after);
  }

  /** A toast just shown under a new id is taken out again by removing
      that id: the list is back as it was. */
  lemma {:induction false} RemoveAfterShow(ts: seq<Toast>, t: Toast)
    requires !HasId(ts, t.id)
    ensures RemoveFirst(ts + [t], t.id) == ts
  {
    var all := ts + [t];
    assert all[|ts|].id == t.id;
    var i := FirstIndex(all, t.id);
    assert forall j :: 0 <= j < |ts| ==> all[j] == ts[j];
    assert i == |ts|;
    assert all[..i] == ts;
  }

  /** Generated ids differ for different counter values. */
  lemma GeneratedIdsDistinct(m: nat, n: nat)
    requires m != n
    ensures GeneratedId(m) != GeneratedId(n)
  {
    if GeneratedId(m) == GeneratedId(n) {
      var a := Decimal.NatToString(m);
      var b := Decimal.NatToString(n);
      assert a == GeneratedId(m)[6..] && b == GeneratedId(n)[6..];
      Decimal.NatToStringInjective(m, n);
    }
  }

  /** `findIndex((t) => t.id === id)`. */
  method FindIndex(ts: seq<Toast>, id: string) returns (index: int)
    ensures index == FirstIndex(ts, id)
    ensures index >= 0 ==> ts[index].id == id
    ensures index == -1 <==> !HasId(ts, id)
  {
    var k := 0;
    while k < |ts|
      invariant 0 <= k <= |ts|
      invariant forall j :: 0 <= j < k ==> ts[j].id != id
    {
      if ts[k].id == id {
        FirstMatch(ts, id, k);
        return k;
      }
      k := k + 1;
    }
    return -1;
  }

  lemma FirstMatch(ts: seq<Toast>, id: string, k: nat)
    requires k < |ts| && ts[k].id == id
    requires forall j :: 0 <= j < k ==> ts[j].id != id
    ensures FirstIndex(ts, id) == k
  {
    var r := FirstIndex(ts, id);
    assert r != -1 by {
      assert HasId(ts, id);
    }
  }

  class ToastQueue {
    var toasts: seq<Toast>
    var toastId: nat
    /** Auto-dismiss requests not yet run, in the order they were made. */
    var timers: seq<Timer>

    constructor()
      ensures toasts == [] && toastId == 0 && timers == []
    {
      toasts := [];
      toastId := 0;
      timers := [];
    }

    /** `show(options)`: appends one toast, asks for its dismissal unless
        the duration rules it out, and answers its id. */
    method Show(options: ToastOptions, now: int) returns (id: string)
      modifies this
      ensures id == IdFor(options, old(toastId))
      ensures toastId == NextCounter(options, old(toastId))
      ensures toasts == old(toasts) + [Toast(id, options, now)]
      ensures timers == old(timers) + (if DismissDelay(options).Some? then [Timer(id, DismissDelay(options).value)] else [])
    {
      if HasOwnId(options) {
        id := options.id.value;
      } else {
        toastId := toastId + 1;
        id := GeneratedId(toastId);
      }
      var duration := if options.duration.Some? then options.duration.value else 3000;
      toasts := toasts + [Toast(id, options, now)];
      if duration > 0 {
        timers := timers + [Timer(id, duration)];
      }
    }

    /** `remove(id)`. */
    method Remove(id: string)
      modifies this
      ensures toasts == RemoveFirst(old(toasts), id)
      ensures toastId == old(toastId) && timers == old(timers)
    {
      var index := FindIndex(toasts, id);
      if index > -1 {
        toasts := toasts[..index] + toasts[index + 1..];
      }
    }

    /** `clear()`. */
    method Clear()
      modifies this
      ensures toasts == [] && toastId == old(toastId) && timers == old(timers)
    {
      toasts := [];
    }

    /** The runtime runs the pending dismissal at position `k`. */
    method Expire(k: nat)
      requires k < |timers|
      modifies this
      ensures toasts == RemoveFirst(old(toasts), old(timers)[k].id)
      ensures timers == old(timers)[..k] + old(timers)[k + 1..]
      ensures toastId == old(toastId)
    {
      var t := timers[k];
      timers := timers[..k] + timers[k + 1..];
      Remove(t.id);
    }

    method ShowSuccess(message: string, extra: Option<ToastOptions>, now: int) returns (id: string)
      modifies this
      ensures id == IdFor(Forced(extra, message, Variant.Success), old(toastId))
      ensures toasts == old(toasts) + [Toast(id, Forced(extra, message, Variant.Success), now)]
      ensures toastId == NextCounter(Forced(extra, message, Variant.Success), old(toastId))
      ensures timers == old(timers) + (if DismissDelay(Forced(extra, message, Variant.Success)).Some? then [Timer(id, DismissDelay(Forced(extra, message, Variant.Success)).value)] else [])
    {
      id := Show(Forced(extra, message, Variant.Success), now);
    }

    method ShowError(message: string, extra: Option<ToastOptions>, now: int) returns (id: string)
      modifies this
      ensures id == IdFor(Forced(extra, message, Danger), old(toastId))
      ensures toasts == old(toasts) + [Toast(id, Forced(extra, message, Danger), now)]
      ensures toastId == NextCounter(Forced(extra, message, Danger), old(toastId))
      ensures timers == old(timers) + (if DismissDelay(Forced(extra, message, Danger)).Some? then [Timer(id, DismissDelay(Forced(extra, message, Danger)).value)] else [])
    {
      id := Show(Forced(extra, message, Danger), now);
    }

    method ShowWarning(message: string, extra: Option<ToastOptions>, now: int) returns (id: string)
      modifies this
      ensures id == IdFor(Forced(extra, message, Warning), old(toastId))
      ensures toasts == old(toasts) + [Toast(id, Forced(extra, message, Warning), now)]
      ensures toastId == NextCounter(Forced(extra, message, Warning), old(toastId))
      ensures timers == old(timers) + (if DismissDelay(Forced(extra, message, Warning)).Some? then [Timer(id, DismissDelay(Forced(extra, message, Warning)).value)] else [])
    {
      id := Show(Forced(extra, message, Warning), now);
    }

    method ShowInfo(message: string, extra: Option<ToastOptions>, now: int) returns (id: string)
      modifies this
      ensures id == IdFor(Forced(extra, message, Info), old(toastId))
      ensures toasts == old(toasts) + [Toast(id, Forced(extra, message, Info), now)]
      ensures toastId == NextCounter(Forced(extra, message, Info), old(toastId))
      ensures timers == old(timers) + (if DismissDelay(Forced(extra, message, Info)).Some? then [Timer(id, DismissDelay(Forced(extra, message, Info)).value)] else [])
    {
      id := Show(Forced(extra, message, Info), now);
    }
  }

  /** Two toasts shown without ids get different ids, the counter moves by
      two, and removing the second leaves the first. */
  method ShowTwiceThenRemove(q: ToastQueue, a: ToastOptions, b: ToastOptions, now: int)
    returns (first: string, second: string)
    requires !HasOwnId(a) && !HasOwnId(b)
    requires !HasId(q.toasts, GeneratedId(q.toastId + 2))
    modifies q
    ensures first != second
    ensures q.toastId == old(q.toastId) + 2
    ensures q.toasts == old(q.toasts) + [Toast(first, a, now)]
  {
    first := q.Show(a, now);
    second := q.Show(b, now);
    GeneratedIdsDistinct(old(q.toastId) + 1, old(q.toastId) + 2);
    var before := q.toasts[..|q.toasts| - 1];
    assert q.toasts == before + [Toast(second, b, now)];
    assert before == old(q.toasts) + [Toast(first, a, now)];
    assert forall j :: 0 <= j < |old(q.toasts)| ==> before[j] == old(q.toasts)[j];
    assert !HasId(before, second);
    RemoveAfterShow(before, Toast(second, b, now));
    q.Remove(second);
  }
}
