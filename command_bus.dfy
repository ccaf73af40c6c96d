/** The command bus: one handler per command type tag. */
module Commands {
  import opened Common

  /** The message of the error `dispatch` throws for an unknown tag. */
  function NoCommandHandler(tag: string): string {
    "No handler registered for command type: " + tag
  }

  /** A bus for commands of type `C`, each carrying its tag `typeOf(c)` (the
      command's `type` field), with handlers of type `H`. */
  class CommandBus<C, H> {
    const typeOf: C -> string
    var handlers: map<string, H>

    constructor (typeOf: C -> string)
      ensures this.typeOf == typeOf && handlers == map[]
    {
      this.typeOf := typeOf;
      handlers := map[];
    }

    /** `registerHandler`: the handler is stored under the tag of `instance`,
        a fresh instance of the command class; a second registration for the
        same tag replaces the first and other tags are untouched. */
    method RegisterHandler(instance: C, handler: H)
      modifies this`handlers
      ensures handlers == old(handlers)[typeOf(instance) := handler]
      ensures HandlerFor(typeOf(instance)) == Ok(handler)
      ensures forall t :: t != typeOf(instance) ==> HandlerFor(t) == old(HandlerFor(t))
    {
      handlers := handlers[typeOf(instance) := handler];
    }

    /** The lookup `dispatch` starts with. */
    function HandlerFor(tag: string): (r: Result<H>)
      reads this
      ensures r.Ok? <==> tag in handlers
      ensures r.Ok? ==> r.value == handlers[tag]
      ensures r.Err? ==> r.error == NoCommandHandler(tag)
    {
      if tag in handlers then Ok(handlers[tag]) else Err(NoCommandHandler(tag))
    }

    /** `dispatch`: an unregistered tag fails and invokes nothing; otherwise
        the tag's handler is invoked once with the command, and its failure,
        if any, is the dispatch's failure. `run(h, c)` is the outcome of
        `h.handle(c)`; `invoked` lists the handlers invoked, in order. */
    method Dispatch(command: C, run: (H, C) -> Outcome) returns (r: Outcome, invoked: seq<H>)
      ensures typeOf(command) !in handlers ==> r == Fail(NoCommandHandler(typeOf(command))) && invoked == []
      ensures typeOf(command) in handlers ==>
        invoked == [handlers[typeOf(command)]] && r == run(handlers[typeOf(command)], command)
    {
      var handler := HandlerFor(typeOf(command));
      if handler.Err? {
        return Fail(handler.error), [];
      }
      r := run(handler.value, command);
      invoked := [handler.value];
    }
  }
}
