/** The toast notifications of ag-gearstore/src/components/Toaster.tsx: a
    module-level queue of toasts and a list of subscribed listeners (the
    `setToasts` of each mounted `Toaster`), notified with the whole queue after
    every change. The random id and the three-second timer become parameters
    and an explicit `Dismiss` event. */
module Toaster {
  import opened Base

  datatype Variant = Default | Destructive

  datatype Toast = Toast(id: string, title: Option<string>, description: Option<string>, variant: Variant)

  /** What a caller passes to `toast`: everything but the id; the variant may
      be left out. */
  datatype ToastInput = ToastInput(title: Option<string>, description: Option<string>, variant: Option<Variant>)

  /** A listener, identified by the mounted `Toaster` it belongs to. */
  type ListenerId = nat

  /** `queue.filter(t => t.id !== id)`. */
  function WithoutToast(queue: seq<Toast>, id: string): (r: seq<Toast>)
    ensures |r| <= |queue|
  {
    if queue == [] then [] else (if queue[0].id == id then [] else [queue[0]]) + WithoutToast(queue[1..], id)
  }

  /** Dismissing keeps exactly the toasts with another id. */
  lemma {:induction false} WithoutToastMembers(queue: seq<Toast>, id: string)
    ensures forall t :: t in WithoutToast(queue, id) <==> t in queue && t.id != id
  {
    if queue != [] {
      WithoutToastMembers(queue[1..], id);
      assert queue == [queue[0]] + queue[1..];
    }
  }

  /** Dismissing distributes over concatenation, so the remaining toasts keep
      their order. */
  lemma {:induction false} WithoutToastAppend(a: seq<Toast>, b: seq<Toast>, id: string)
    ensures WithoutToast(a + b, id) == WithoutToast(a, id) + WithoutToast(b, id)
  {
    if a == [] {
      assert a + b == b;
    } else {
      assert (a + b)[1..] == a[1..] + b;
      WithoutToastAppend(a[1..], b, id);
    }
  }

  /** Dismissing an id that is no longer queued changes nothing. */
  lemma {:induction false} WithoutAbsentToast(queue: seq<Toast>, id: string)
    requires forall i :: 0 <= i < |queue| ==> queue[i].id != id
    ensures WithoutToast(queue, id) == queue
  {
    if queue != [] {
      WithoutAbsentToast(queue[1..], id);
      assert queue == [queue[0]] + queue[1..];
    }
  }

  /** `listeners.filter(l => l !== listener)`. */
  function WithoutListener(listeners: seq<ListenerId>, l: ListenerId): (r: seq<ListenerId>)
  {
    if listeners == [] then [] else (if listeners[0] == l then [] else [listeners[0]]) + WithoutListener(listeners[1..], l)
  }

  /** Unsubscribing removes exactly that listener and keeps the others. */
  lemma {:induction false} WithoutListenerMembers(listeners: seq<ListenerId>, l: ListenerId)
    ensures forall m :: m in WithoutListener(listeners, l) <==> m in listeners && m != l
  {
    if listeners != [] {
      WithoutListenerMembers(listeners[1..], l);
      assert listeners == [listeners[0]] + listeners[1..];
    }
  }

  class ToastHub {
    var queue: seq<Toast>
    var listeners: seq<ListenerId>
    /** The toast list each listener was last given (its `toasts` state). */
    var delivered: map<ListenerId, seq<Toast>>

    constructor ()
      ensures queue == [] && listeners == [] && delivered == map[]
    {
      queue := [];
      listeners := [];
      delivered := map[];
    }

    /** Every subscribed listener has been given the current queue. */
    predicate InformedAll()
      reads this
    {
      forall l :: l in listeners ==> l in delivered && delivered[l] == queue
    }

    /** `listeners.forEach(listener => listener(queue))`. */
    method Notify()
      modifies this
      ensures queue == old(queue) && listeners == old(listeners)
      ensures InformedAll()
      ensures forall l :: l !in listeners ==> (l in delivered <==> l in old(delivered))
      ensures forall l :: l !in listeners && l in delivered ==> delivered[l] == old(delivered)[l]
    {
      var i := 0;
      while i < |listeners|
        invariant 0 <= i <= |listeners|
        invariant queue == old(queue) && listeners == old(listeners)
        invariant forall j :: 0 <= j < i ==> listeners[j] in delivered && delivered[listeners[j]] == queue
        invariant forall l :: l !in listeners ==> (l in delivered <==> l in old(delivered))
        invariant forall l :: l !in listeners && l in delivered ==> delivered[l] == old(delivered)[l]
      {
        delivered := delivered[listeners[i] := queue];
        i := i + 1;
      }
    }

    /** `toast`: appends exactly one toast with the given id at the end of the
        queue (variant 'default' unless given), notifies every listener and
        returns the id. */
    method Enqueue(input: ToastInput, id: string) returns (r: string)
      modifies this
      ensures r == id
      ensures queue == old(queue) + [Toast(id, input.title, input.description,
                                           if input.variant.Some? then input.variant.value else Default)]
      ensures listeners == old(listeners) && InformedAll()
      ensures forall l :: l !in listeners ==> (l in delivered <==> l in old(delivered))
      ensures forall l :: l !in listeners && l in delivered ==> delivered[l] == old(delivered)[l]
    {
      var variant := if input.variant.Some? then input.variant.value else Default;
      queue := queue + [Toast(id, input.title, input.description, variant)];
      Notify();
      r := id;
    }

    /** The timer callback of `toast`: drops the toasts with that id and
        notifies every listener. */
    method Dismiss(id: string)
      modifies this
      ensures queue == WithoutToast(old(queue), id)
      ensures forall t :: t in queue <==> t in old(queue) && t.id != id
      ensures (forall i :: 0 <= i < |old(queue)| ==> old(queue)[i].id != id) ==> queue == old(queue)
      ensures listeners == old(listeners) && InformedAll()
      ensures forall l :: l !in listeners ==> (l in delivered <==> l in old(delivered))
      ensures forall l :: l !in listeners && l in delivered ==> delivered[l] == old(delivered)[l]
    {
      WithoutToastMembers(queue, id);
      if forall i :: 0 <= i < |queue| ==> queue[i].id != id {
        WithoutAbsentToast(queue, id);
      }
      queue := WithoutToast(queue, id);
      Notify();
    }

    /** Mounting a `Toaster`: its listener is pushed at the end. */
    method Subscribe(l: ListenerId)
      modifies this
      ensures listeners == old(listeners) + [l]
      ensures queue == old(queue) && delivered == old(delivered)
    {
      listeners := listeners + [l];
    }

    /** Unmounting a `Toaster`: exactly its listener is removed. */
    method Unsubscribe(l: ListenerId)
      modifies this
      ensures listeners == WithoutListener(old(listeners), l)
      ensures forall m :: m in listeners <==> m in old(listeners) && m != l
      ensures queue == old(queue) && delivered == old(delivered)
    {
      WithoutListenerMembers(listeners, l);
      listeners := WithoutListener(listeners, l);
    }
  }

  /** Enqueue then dismiss of a fresh id restores the queue. */
  lemma EnqueueThenDismissRestores(queue: seq<Toast>, t: Toast)
    requires forall i :: 0 <= i < |queue| ==> queue[i].id != t.id
    ensures WithoutToast(queue + [t], t.id) == queue
  {
    WithoutToastAppend(queue, [t], t.id);
    WithoutAbsentToast(queue, t.id);
    assert [t][1..] == [];
  }
}
