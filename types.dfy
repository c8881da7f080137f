/** Values shared by the endpoint registry, the factory cache and the
    proxy life cycle of ServiceFactory. */
module Types {

  /** The service key: the name of the service interface (typeof(T).Name). */
  type Key = string

  /** The name of an endpoint configuration entry. */
  type EndpointName = string

  /** A reference that may still be null (the lazily created dictionaries). */
  datatype Option<T> = None | Some(value: T)

  /** The errors ServiceFactory raises as exceptions. */
  datatype Error =
    | NotInitialized          // the endpoint dictionary is still null
    | NotFound(key: Key)      // no endpoint name registered for the key
    | Duplicate(key: Key)     // Dictionary.Add of a key already present
    | Unexpected(ex: string)  // a failure of Close that is re-raised after Abort

  datatype Result<T> = Ok(value: T) | Err(error: Error)

  /** A channel factory: bound once to a service key and an endpoint name. */
  datatype Factory = Factory(key: Key, endpointName: EndpointName)

  /** The states a proxy goes through: minted by CreateChannel (Created),
      opened (Open), then torn down by Close (Closed) or by Abort (Aborted). */
  datatype ChannelState = Created | Open | Closed | Aborted

  /** The exception a graceful Close may raise. CommunicationException stands
      for that class and all its subclasses. */
  datatype Exception =
    | CommunicationException
    | TimeoutException
    | OtherException(name: string)

  /** What a graceful Close of the channel does: it either completes or raises. */
  datatype CloseResult = Closes | Raises(ex: Exception)

  /** An argument of CloseChannel: an object that is no communication object,
      or a channel. */
  datatype Target<C> = PlainObject | Communication(channel: C)
}
