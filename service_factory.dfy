/** ServiceFactory as an object whose methods update its fields in place,
    and the proxies (channels) it hands out. Every method is proved to do to
    the fields what the matching function of module Transitions does to the
    state value, and to keep the cache coherent with the registry. */
module Proxies {
  import opened Types
  import opened Transitions

  /** A client proxy: minted by a factory, then opened, closed or aborted. */
  class Channel {
    const id: nat
    const factory: Factory
    var state: ChannelState

    /** ChannelFactory.CreateChannel: a new proxy, not yet opened. */
    constructor (id: nat, factory: Factory)
      ensures this.id == id && this.factory == factory && state == Created
    {
      this.id := id;
      this.factory := factory;
      state := Created;
    }

    /** IClientChannel.Open on a newly created proxy. */
    method Open()
      requires state == Created
      modifies this
      ensures state == ChannelState.Open
    {
      state := ChannelState.Open;
    }

    /** ICommunicationObject.Close; `outcome` says whether it completes or
        which exception it raises. A Close that raises changes nothing here. */
    method Close(outcome: CloseResult) returns (raised: Option<Exception>)
      modifies this
      ensures outcome.Closes? ==> raised == None && state == Closed
      ensures outcome.Raises? ==> raised == Some(outcome.ex) && state == old(state)
    {
      match outcome
      case Closes =>
        state := Closed;
        raised := None;
      case Raises(ex) =>
        raised := Some(ex);
    }

    /** ICommunicationObject.Abort: immediate teardown. */
    method Abort()
      modifies this
      ensures state == Aborted
    {
      state := Aborted;
    }
  }

  class ServiceFactory {
    /** The static fields _endpointNames and _listOfCreatedFactories. */
    var endpointNames: Option<map<Key, EndpointName>>
    var createdFactories: Option<map<Key, Factory>>
    /** How many ChannelFactory objects were built, and how many channels were minted. */
    var factoriesBuilt: nat
    var channelsMinted: nat

    /** The fields as a state value. */
    function Snapshot(): (s: State)
      reads this
    {
      State(endpointNames, createdFactories, factoriesBuilt, channelsMinted)
    }

    ghost predicate Valid()
      reads this
    {
      Coherent(Snapshot())
    }

    /** The static fields before first use: both dictionaries null. */
    constructor ()
      ensures Snapshot() == Start && Valid()
    {
      endpointNames := None;
      createdFactories := None;
      factoriesBuilt := 0;
      channelsMinted := 0;
    }

    method InitializeEndpoints()
      requires Valid()
      modifies this
      ensures Valid()
      ensures Snapshot() == Transitions.InitializeEndpoints(old(Snapshot()))
      ensures old(endpointNames).Some? ==> endpointNames == old(endpointNames)
    {
      if endpointNames.None? {
        endpointNames := Some(map[]);
      }
    }

    method AddEndpoint(key: Key, endpointName: EndpointName) returns (r: Result<()>)
      requires Valid()
      modifies this
      ensures Valid()
      ensures Step(Snapshot(), r) == Transitions.AddEndpoint(old(Snapshot()), key, endpointName)
      ensures r.Err? ==> Snapshot() == old(Snapshot())
      ensures r.Ok? ==> GetEndpointName(endpointNames, key) == Ok(endpointName)
    {
      if endpointNames.None? {
        // lock on a null dictionary
        r := Err(NotInitialized);
        return;
      }
      var names := endpointNames.value;
      if key in names {
        r := Err(Duplicate(key));
        return;
      }
      endpointNames := Some(names[key := endpointName]);
      r := Ok(());
      CoherentAfterAddEndpoint(old(Snapshot()), key, endpointName);
    }

    /** The ListOfCreatedFactories getter. */
    method ListOfCreatedFactories() returns (cache: map<Key, Factory>)
      requires Valid()
      modifies this
      ensures Valid()
      ensures Snapshot() == Transitions.ListOfCreatedFactories(old(Snapshot()))
      ensures createdFactories == Some(cache) && cache == Cache(old(Snapshot()))
    {
      if createdFactories.None? {
        createdFactories := Some(map[]);
      }
      cache := createdFactories.value;
    }

    /** CreateServiceChannel<T>(endpointName): reuses or builds the factory for
        the key, mints a new channel from it and opens it. */
    method CreateServiceChannelWithEndpoint(key: Key, endpointName: EndpointName) returns (r: Result<Channel>)
      requires Valid()
      modifies this
      ensures Valid()
      ensures var step := Transitions.CreateServiceChannelWithEndpoint(old(Snapshot()), key, endpointName);
              && Snapshot() == step.state
              && (r.Ok? <==> step.result.Ok?)
              && (r.Err? ==> r.error == step.result.error)
              && (r.Ok? ==> r.value.id == step.result.value.id && r.value.factory == step.result.value.factory)
      ensures r.Ok? ==> fresh(r.value) && r.value.state == ChannelState.Open
    {
      var cache := ListOfCreatedFactories();
      if key !in cache {
        var name := GetEndpointName(endpointNames, key);
        if name.Err? {
          r := Err(name.error);
          return;
        }
        cache := ListOfCreatedFactories();
        createdFactories := Some(cache[key := Factory(key, name.value)]);
        factoriesBuilt := factoriesBuilt + 1;
      }
      CoherentAfterObtainFactory(old(Snapshot()), key);
      cache := ListOfCreatedFactories();
      var channel := new Channel(channelsMinted, cache[key]);
      channelsMinted := channelsMinted + 1;
      channel.Open();
      r := Ok(channel);
    }

    /** CreateServiceChannel<T>(): looks up the registered endpoint name first. */
    method CreateServiceChannel(key: Key) returns (r: Result<Channel>)
      requires Valid()
      modifies this
      ensures Valid()
      ensures var step := Transitions.CreateServiceChannel(old(Snapshot()), key);
              && Snapshot() == step.state
              && (r.Ok? <==> step.result.Ok?)
              && (r.Err? ==> r.error == step.result.error)
              && (r.Ok? ==> r.value.id == step.result.value.id && r.value.factory == step.result.value.factory)
      ensures r.Ok? ==> fresh(r.value) && r.value.state == ChannelState.Open
    {
      var name := GetEndpointName(endpointNames, key);
      if name.Err? {
        r := Err(name.error);
        return;
      }
      r := CreateServiceChannelWithEndpoint(key, name.value);
    }

    /** CloseChannel: nothing for an object that is no communication object;
        otherwise Close, and Abort when Close raises. Communication and timeout
        exceptions are swallowed; any other exception is raised again. */
    static method CloseChannel(target: Target<Channel>, outcome: CloseResult) returns (r: Result<()>)
      modifies if target.Communication? then {target.channel} else {}
      ensures target.PlainObject? ==> r == Ok(())
      ensures target.Communication? ==>
                && target.channel.state == AfterClose(outcome).final
                && (r.Ok? <==> AfterClose(outcome).rethrown.None?)
                && (r.Err? ==> r.error == Unexpected(AfterClose(outcome).rethrown.value))
    {
      match target
      case PlainObject =>
        r := Ok(());
      case Communication(channel) =>
        var raised := channel.Close(outcome);
        match raised
        case None =>
          r := Ok(());
        case Some(CommunicationException) =>
          channel.Abort();
          r := Ok(());
        case Some(TimeoutException) =>
          channel.Abort();
          r := Ok(());
        case Some(OtherException(name)) =>
          channel.Abort();
          r := Err(Unexpected(name));
    }
  }
}
