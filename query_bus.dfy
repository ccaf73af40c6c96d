/** The query bus: one handler per query type tag; executing a query returns
    its handler's result. */
module Queries {
  import opened Common

  /** The message of the error `execute` throws for an unknown tag. */
  function NoQueryHandler(tag: string): string {
    "No handler registered for query type: " + tag
  }

  /** A bus for queries of type `Q` tagged by `typeOf`, answered with results
      of type `R` by handlers of type `H`. */
  class QueryBus<Q, R, H> {
    const typeOf: Q -> string
    var handlers: map<string, H>

    constructor (typeOf: Q -> string)
      ensures this.typeOf == typeOf && handlers == map[]
    {
      this.typeOf := typeOf;
      handlers := map[];
    }

    /** `registerHandler`: keyed by the tag of a fresh instance of the query
        class; re-registration overwrites, other tags are untouched. */
    method RegisterHandler(instance: Q, handler: H)
      modifies this`handlers
      ensures handlers == old(handlers)[typeOf(instance) := handler]
      ensures HandlerFor(typeOf(instance)) == Ok(handler)
      ensures forall t :: t != typeOf(instance) ==> HandlerFor(t) == old(HandlerFor(t))
    {
      handlers := handlers[typeOf(instance) := handler];
    }

    function HandlerFor(tag: string): (r: Result<H>)
      reads this
      ensures r.Ok? <==> tag in handlers
      ensures r.Ok? ==> r.value == handlers[tag]
      ensures r.Err? ==> r.error == NoQueryHandler(tag)
    {
      if tag in handlers then Ok(handlers[tag]) else Err(NoQueryHandler(tag))
    }

    /** `execute`: an unregistered tag fails and invokes nothing; otherwise
        the tag's handler is invoked once and its result (or failure) is
        returned unchanged. `run(h, q)` is the result of `h.handle(q)`. */
    method Execute(query: Q, run: (H, Q) -> Result<R>) returns (r: Result<R>, invoked: seq<H>)
      ensures typeOf(query) !in handlers ==> r == Err(NoQueryHandler(typeOf(query))) && invoked == []
      ensures typeOf(query) in handlers ==>
        invoked == [handlers[typeOf(query)]] && r == run(handlers[typeOf(query)], query)
    {
      var handler := HandlerFor(typeOf(query));
      if handler.Err? {
        return Err(handler.error), [];
      }
      r := run(handler.value, query);
      invoked := [handler.value];
    }
  }
}
