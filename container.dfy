/** The dependency-injection container: services registered under string
    tokens, and the process-wide instance. */
module DependencyInjection {
  import opened Common

  /** The message of the error `resolve` throws for an unknown token. */
  function NotRegistered(token: string): string {
    "Service not registered: " + token
  }

  /** A container of services of type `S`. */
  class Container<S> {
    var services: map<string, S>

    constructor ()
      ensures services == map[]
    {
      services := map[];
    }

    /** `register`: store the instance under the token, replacing any earlier one. */
    method Register(token: string, instance: S)
      modifies this`services
      ensures services == old(services)[token := instance]
      ensures Resolve(token) == Ok(instance)
      ensures forall t :: t != token ==> Resolve(t) == old(Resolve(t))
    {
      services := services[token := instance];
    }

    /** `resolve`: the service under the token, or the "not registered" error. */
    function Resolve(token: string): (r: Result<S>)
      reads this
      ensures r.Ok? <==> token in services
      ensures r.Ok? ==> r.value == services[token]
      ensures r.Err? ==> r.error == NotRegistered(token)
    {
      if token in services then Ok(services[token]) else Err(NotRegistered(token))
    }
  }

  /** The static `Container.instance` slot, created on first use. */
  class ContainerSlot<S> {
    var instance: Option<Container<S>>

    constructor ()
      ensures instance == None
    {
      instance := None;
    }

    /** `getInstance`: the existing container, or a new empty one that is
        kept for every later call. */
    method GetInstance() returns (c: Container<S>)
      modifies this`instance
      ensures instance == Some(c)
      ensures old(instance).Some? ==> c == old(instance).value
      ensures old(instance).None? ==> fresh(c) && c.services == map[]
    {
      if instance.None? {
        var created := new Container<S>();
        instance := Some(created);
      }
      c := instance.value;
    }
  }

  /** Two calls of `getInstance` return the same container. */
  method GetInstanceTwice<S>(slot: ContainerSlot<S>) returns (first: Container<S>, second: Container<S>)
    modifies slot
    ensures first == second
  {
    first := slot.GetInstance();
    second := slot.GetInstance();
  }
}
