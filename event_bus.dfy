/** The event bus: any number of handlers per event class name, run in
    subscription order on `publish`. */
module Events {
  import opened Common

  /** The completion of running every handler in `hs` on `e`: the first
      failure in list order, or success. */
  function PublishOutcome<E, H>(hs: seq<H>, e: E, run: (H, E) -> Outcome): (r: Outcome)
    ensures r.Pass? <==> forall i :: 0 <= i < |hs| ==> run(hs[i], e).Pass?
    ensures r.Fail? ==> exists i :: FirstFailing(hs, e, run, i) && run(hs[i], e) == r
  {
    if hs == [] then Pass
    else
      var prev := PublishOutcome(hs[..|hs| - 1], e, run);
      if prev.Fail? then
        assert forall i :: 0 <= i < |hs| - 1 ==> hs[..|hs| - 1][i] == hs[i];
        prev
      else
        var last := run(hs[|hs| - 1], e);
        assert last.Fail? ==> FirstFailing(hs, e, run, |hs| - 1) by {
          assert forall i :: 0 <= i < |hs| - 1 ==> hs[..|hs| - 1][i] == hs[i];
        }
        last
  }

  /** Handler `i` is the first in `hs` to fail on `e`. */
  ghost predicate FirstFailing<E, H>(hs: seq<H>, e: E, run: (H, E) -> Outcome, i: int) {
    && 0 <= i < |hs|
    && run(hs[i], e).Fail?
    && forall j :: 0 <= j < i ==> run(hs[j], e).Pass?
  }

  /** A bus for events of type `E`, routed by their class name `nameOf(e)`
      (`event.constructor.name`), with handlers of type `H`. */
  class EventBus<E, H> {
    const nameOf: E -> string
    var handlers: map<string, seq<H>>

    constructor (nameOf: E -> string)
      ensures this.nameOf == nameOf && handlers == map[]
    {
      this.nameOf := nameOf;
      handlers := map[];
    }

    /** The handlers subscribed under `name`, in subscription order (`|| []`). */
    function SubscribersOf(name: string): (hs: seq<H>)
      reads this
      ensures name !in handlers ==> hs == []
      ensures name in handlers ==> hs == handlers[name]
    {
      if name in handlers then handlers[name] else []
    }

    /** `subscribe`: append the handler to the list for the event class name
        `eventName`, creating the list on first use; a handler subscribed
        twice is listed twice, and no other name's list changes. */
    method Subscribe(eventName: string, handler: H)
      modifies this`handlers
      ensures SubscribersOf(eventName) == old(SubscribersOf(eventName)) + [handler]
      ensures forall n :: n != eventName ==> SubscribersOf(n) == old(SubscribersOf(n))
      ensures handlers.Keys == old(handlers.Keys) + {eventName}
    {
      var current := if eventName in handlers then handlers[eventName] else [];
      handlers := handlers[eventName := current + [handler]];
    }

    /** `publish`: every handler subscribed under the event's class name is
        invoked exactly once, in subscription order, and no other; the
        publish fails iff one of them fails. With no subscribers it
        completes and invokes nothing. `run(h, e)` is the outcome of `h(e)`. */
    method Publish(event: E, run: (H, E) -> Outcome) returns (r: Outcome, invoked: seq<H>)
      ensures invoked == SubscribersOf(nameOf(event))
      ensures r == PublishOutcome(invoked, event, run)
      ensures nameOf(event) !in handlers ==> r == Pass && invoked == []
    {
      var hs := SubscribersOf(nameOf(event));
      r := Pass;
      invoked := [];
      var i := 0;
      while i < |hs|
        invariant 0 <= i <= |hs|
        invariant invoked == hs[..i]
        invariant r == PublishOutcome(hs[..i], event, run)
      {
        var outcome := run(hs[i], event);
        if r.Pass? {
          r := outcome;
        }
        assert hs[..i + 1][..i] == hs[..i];
        invoked := invoked + [hs[i]];
        i := i + 1;
      }
      assert hs[..i] == hs;
    }
  }
}
