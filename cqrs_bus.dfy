/**
 * `GenericCqrsBus`: dispatches a command or query to the handler registered
 * for its exact type. `typeOf` is the message's runtime type; `handle` is
 * what a handler returns or raises for a message.
 */
module CqrsBus {
  import opened Wrappers
  import opened Errors

  datatype GenericCqrsBus<T, H> = GenericCqrsBus(handlers: map<T, H>)

  /** `dispatch`: the registered handler's own result, or `BusException` when there is none. */
  function Dispatch<T, H, M, R>(bus: GenericCqrsBus<T, H>, typeOf: M -> T,
                                handle: (H, M) -> Result<R, Error>, message: M): (r: Result<R, Error>)
    ensures typeOf(message) !in bus.handlers ==> r == Failure(BusError)
    ensures typeOf(message) in bus.handlers ==> r == handle(bus.handlers[typeOf(message)], message)
  {
    if typeOf(message) !in bus.handlers then Failure(BusError)
    else handle(bus.handlers[typeOf(message)], message)
  }

  /** Only the entry for the message's own type matters: handlers for other types never change a dispatch. */
  lemma DispatchIgnoresOtherTypes<T, H, M, R>(bus: GenericCqrsBus<T, H>, typeOf: M -> T,
                                              handle: (H, M) -> Result<R, Error>, message: M, t: T, h: H)
    requires t != typeOf(message)
    ensures Dispatch(GenericCqrsBus(bus.handlers[t := h]), typeOf, handle, message)
         == Dispatch(bus, typeOf, handle, message)
  {
  }

  /** A dispatch fails with `BusException` only when no handler is registered, and then no handler ran. */
  lemma BusErrorOnlyWhenUnrouted<T, H, M, R>(bus: GenericCqrsBus<T, H>, typeOf: M -> T,
                                             handle: (H, M) -> Result<R, Error>, message: M)
    requires forall h :: handle(h, message) != Failure(BusError)
    ensures Dispatch(bus, typeOf, handle, message) == Failure(BusError) <==> typeOf(message) !in bus.handlers
  {
  }
}
