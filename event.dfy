/** The event system of pkg/communication/event.go. Handlers are opaque
    functions, identified by a `Handler` value and run through a `run`
    parameter; the goroutines of `EmitEvent` are modelled by the order in which
    they complete. */
module EventSystems {
  import opened Wrappers
  import opened Completions

  datatype Event = Event(eventType: string, payload: string, metadata: map<string, string>)

  datatype Handler = Handler(id: nat)

  class EventSystem {
    var handlers: map<string, seq<Handler>>

    /** `NewEventSystem`. */
    constructor ()
      ensures handlers == map[]
    {
      handlers := map[];
    }

    /** `RegisterHandler(eventType, handler)`: appends the handler to that
        type's list. */
    method RegisterHandler(eventType: string, h: Handler)
      modifies this
      ensures handlers == old(handlers)[eventType := (if eventType in old(handlers) then old(handlers)[eventType] else []) + [h]]
    {
      var before := if eventType in handlers then handlers[eventType] else [];
      handlers := handlers[eventType := before + [h]];
    }

    /** The handlers registered for an event type. */
    function HandlersFor(eventType: string): (hs: seq<Handler>)
      reads this
      ensures eventType !in handlers ==> hs == []
      ensures eventType in handlers ==> hs == handlers[eventType]
    {
      if eventType in handlers then handlers[eventType] else []
    }

    /** `EmitEvent(ev)`: every handler for the event's type runs once, and only
        those; the result is the first error in completion order, or success.
        `order` lists the handlers' positions in the order they completed. */
    method EmitEvent(ev: Event, run: (Handler, Event) -> Outcome) returns (r: Outcome, order: seq<nat>)
      ensures IsCompletionOrder(order, |HandlersFor(ev.eventType)|)
      ensures r == Pass <==> forall h | h in HandlersFor(ev.eventType) :: run(h, ev) == Pass
      ensures r.Fail? ==> exists h | h in HandlersFor(ev.eventType) :: run(h, ev) == r
    {
      var hs := HandlersFor(ev.eventType);
      var os := seq(|hs|, i requires 0 <= i < |hs| => run(hs[i], ev));
      r, order := Gather(os);
      if r.Fail? {
        var i :| 0 <= i < |os| && os[i] == r;
        assert hs[i] in hs;
      } else {
        forall h | h in hs
          ensures run(h, ev) == Pass
        {
          var i :| 0 <= i < |hs| && hs[i] == h;
          assert os[i] == run(h, ev);
        }
      }
    }
  }
}
