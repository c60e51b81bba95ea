/**
 * The dispatcher the views register with. Its routing is external; the only
 * part the views use is `add`, which appends a binding factory to the registry.
 */
module Dispatch {

  class Dispatcher<F> {
    /** The binding factories registered so far, oldest first. */
    var factories: seq<F>

    constructor ()
      ensures factories == []
    {
      factories := [];
    }

    /** `dispatcher.add(binding_factory)`. */
    method Add(factory: F)
      modifies this
      ensures factories == old(factories) + [factory]
    {
      factories := factories + [factory];
    }
  }
}
