/**
 * The publish/subscribe registry of src/systems/eventManager.js.
 *
 * The registry maps an event name to the listeners subscribed to it, in
 * subscription order.  Listeners are compared by identity (`!==`), which is
 * equality on the `Listener` type here.  Calling a listener is not executed:
 * `Emit` returns the calls it makes, in order, each a listener with the data
 * it receives.  What a listener does when called is not part of the model.
 */
module Events {

  datatype Call<Listener, Data> = Call(listener: Listener, data: Data)

  type Registry<Listener> = map<string, seq<Listener>>

  /** The listeners of `event`; an event nobody subscribed to has none. */
  function ListenersOf<Listener>(events: Registry<Listener>, event: string): seq<Listener> {
    if event in events then events[event] else []
  }

  /** The calls `forEach(listener => listener(data))` makes over `listeners`. */
  function CallsOf<Listener, Data>(listeners: seq<Listener>, data: Data): (calls: seq<Call<Listener, Data>>)
    ensures |calls| == |listeners|
    ensures forall i :: 0 <= i < |listeners| ==> calls[i] == Call(listeners[i], data)
  {
    if listeners == [] then [] else CallsOf(listeners[..|listeners| - 1], data) + [Call(listeners[|listeners| - 1], data)]
  }

  /** `listeners.filter(l => l !== listener)`. */
  function Without<Listener(==)>(listeners: seq<Listener>, listener: Listener): (kept: seq<Listener>)
    ensures |kept| <= |listeners|
  {
    if listeners == [] then []
    else if listeners[0] == listener then Without(listeners[1..], listener)
    else [listeners[0]] + Without(listeners[1..], listener)
  }

  // ---------------------------------------------------------------------------
  // The registry operations, on values
  // ---------------------------------------------------------------------------

  function Subscribed<Listener>(events: Registry<Listener>, event: string, listener: Listener): Registry<Listener> {
    events[event := ListenersOf(events, event) + [listener]]
  }

  function Unsubscribed<Listener(==)>(events: Registry<Listener>, event: string, listener: Listener): Registry<Listener> {
    if event in events then events[event := Without(events[event], listener)] else events
  }

  function Emitted<Listener, Data>(events: Registry<Listener>, event: string, data: Data): seq<Call<Listener, Data>> {
    CallsOf(ListenersOf(events, event), data)
  }

  // ---------------------------------------------------------------------------
  // Properties
  // ---------------------------------------------------------------------------

  /** The filter keeps exactly the other listeners. */
  lemma {:induction false} WithoutMembers<Listener>(listeners: seq<Listener>, listener: Listener, x: Listener)
    ensures x in Without(listeners, listener) <==> x in listeners && x != listener
  {
    if listeners != [] {
      WithoutMembers(listeners[1..], listener, x);
      assert listeners == [listeners[0]] + listeners[1..];
    }
  }

  /** The filter keeps the order: filtering a concatenation filters each part. */
  lemma {:induction false} WithoutAppend<Listener>(xs: seq<Listener>, ys: seq<Listener>, listener: Listener)
    ensures Without(xs + ys, listener) == Without(xs, listener) + Without(ys, listener)
  {
    if xs != [] {
      WithoutAppend(xs[1..], ys, listener);
      assert (xs + ys)[1..] == xs[1..] + ys;
      if xs[0] != listener {
        assert [xs[0]] + (Without(xs[1..], listener) + Without(ys, listener))
            == [xs[0]] + Without(xs[1..], listener) + Without(ys, listener);
      }
    } else {
      assert xs + ys == ys;
    }
  }

  /** A listener that is not subscribed is not filtered. */
  lemma {:induction false} WithoutAbsent<Listener>(listeners: seq<Listener>, listener: Listener)
    requires listener !in listeners
    ensures Without(listeners, listener) == listeners
  {
    if listeners != [] {
      WithoutAbsent(listeners[1..], listener);
      assert listeners == [listeners[0]] + listeners[1..];
    }
  }

  lemma CallsAppend<Listener, Data>(xs: seq<Listener>, listener: Listener, data: Data)
    ensures CallsOf(xs + [listener], data) == CallsOf(xs, data) + [Call(listener, data)]
  {
    assert (xs + [listener])[..|xs|] == xs;
  }

  /** After `subscribe`, emitting calls the old listeners, then the new one. */
  lemma EmitAfterSubscribe<Listener, Data>(events: Registry<Listener>, event: string, listener: Listener, data: Data)
    ensures Emitted(Subscribed(events, event, listener), event, data) == Emitted(events, event, data) + [Call(listener, data)]
  {
    CallsAppend(ListenersOf(events, event), listener, data);
  }

  /** `subscribe` and `unsubscribe` leave other events alone. */
  lemma OtherEventsUnchanged<Listener>(events: Registry<Listener>, event: string, other: string, listener: Listener)
    requires other != event
    ensures ListenersOf(Subscribed(events, event, listener), other) == ListenersOf(events, other)
    ensures ListenersOf(Unsubscribed(events, event, listener), other) == ListenersOf(events, other)
  {
  }

  /** After `unsubscribe`, emitting never calls that listener. */
  lemma EmitAfterUnsubscribe<Listener, Data>(events: Registry<Listener>, event: string, listener: Listener, data: Data)
    ensures Call(listener, data) !in Emitted(Unsubscribed(events, event, listener), event, data)
  {
    var kept := ListenersOf(Unsubscribed(events, event, listener), event);
    if Call(listener, data) in CallsOf(kept, data) {
      var i :| 0 <= i < |kept| && CallsOf(kept, data)[i] == Call(listener, data);
      if event in events {
        WithoutMembers(events[event], listener, kept[i]);
      }
      assert false;
    }
  }

  /** Unsubscribing a listener just subscribed leaves the event as unsubscribing alone would. */
  lemma SubscribeThenUnsubscribe<Listener>(events: Registry<Listener>, event: string, listener: Listener)
    ensures ListenersOf(Unsubscribed(Subscribed(events, event, listener), event, listener), event)
         == ListenersOf(Unsubscribed(events, event, listener), event)
  {
    var before := ListenersOf(events, event);
    WithoutAppend(before, [listener], listener);
    assert Without([listener], listener) == [];
    if event !in events {
      assert Without(before, listener) == [];
    }
  }

  /** A second `unsubscribe` of the same listener changes nothing. */
  lemma UnsubscribeTwice<Listener>(events: Registry<Listener>, event: string, listener: Listener)
    ensures Unsubscribed(Unsubscribed(events, event, listener), event, listener) == Unsubscribed(events, event, listener)
  {
    if event in events {
      var kept := Without(events[event], listener);
      forall x ensures x in kept ==> x != listener {
        WithoutMembers(events[event], listener, x);
      }
      WithoutAbsent(kept, listener);
    }
  }

  // ---------------------------------------------------------------------------
  // The registry object
  // ---------------------------------------------------------------------------

  class EventManager<Listener(==), Data> {
    var events: Registry<Listener>

    constructor()
      ensures events == map[]
    {
      events := map[];
    }

    /** `subscribe`: creates the event's list when missing, then appends. */
    method Subscribe(event: string, listener: Listener)
      modifies this
      ensures events == Subscribed(old(events), event, listener)
    {
      if event !in events {
        events := events[event := []];
      }
      events := events[event := events[event] + [listener]];
    }

    /** `unsubscribe`: nothing for an unknown event, otherwise drops every registration of `listener`. */
    method Unsubscribe(event: string, listener: Listener)
      modifies this
      ensures events == Unsubscribed(old(events), event, listener)
    {
      if event !in events {
        return;
      }
      events := events[event := Without(events[event], listener)];
    }

    /** `emit`: calls the event's listeners in subscription order with `data`. */
    method Emit(event: string, data: Data) returns (calls: seq<Call<Listener, Data>>)
      ensures calls == Emitted(events, event, data)
    {
      calls := [];
      if event !in events {
        return;
      }
      var listeners := events[event];
      for i := 0 to |listeners|
        invariant calls == CallsOf(listeners[..i], data)
      {
        CallsAppend(listeners[..i], listeners[i], data);
        assert listeners[..i + 1] == listeners[..i] + [listeners[i]];
        calls := calls + [Call(listeners[i], data)];
      }
      assert listeners[..|listeners|] == listeners;
    }
  }
}
