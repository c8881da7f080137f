/** The static state of ServiceFactory as a value, and what each of its
    operations does to it. The class ServiceFactory in module Proxies is
    proved to follow these functions; module Lifetime proves what holds
    over any sequence of them. */
module Transitions {
  import opened Types

  /** The two static dictionaries (null until first assigned), the number of
      ChannelFactory objects built, and the number of channels minted. */
  datatype State = State(
    endpointNames: Option<map<Key, EndpointName>>,
    createdFactories: Option<map<Key, Factory>>,
    factoriesBuilt: nat,
    channelsMinted: nat)

  /** The state when the class is first used: both dictionaries null. */
  const Start := State(None, None, 0, 0)

  /** What one operation returns, together with the state it leaves. */
  datatype Step<T> = Step(state: State, result: Result<T>)

  /** A channel minted by a factory: its identity and the factory it came from. */
  datatype Minted = Minted(id: nat, factory: Factory)

  /** The entries of the factory cache; a null dictionary holds none. */
  function Cache(s: State): (cache: map<Key, Factory>) {
    if s.createdFactories.Some? then s.createdFactories.value else map[]
  }

  /** Every cached factory was built for its own key and bound to the endpoint
      name registered for that key, and exactly one factory was ever built per
      cached key. */
  predicate Coherent(s: State) {
    && (forall k :: k in Cache(s) ==>
          Cache(s)[k].key == k && GetEndpointName(s.endpointNames, k) == Ok(Cache(s)[k].endpointName))
    && s.factoriesBuilt == |Cache(s).Keys|
  }

  // ---------------------------------------------------------------------
  // Endpoint registry

  /** GetEndpointName: a read-only lookup that fails in two distinct ways. */
  function GetEndpointName(endpointNames: Option<map<Key, EndpointName>>, key: Key): (r: Result<EndpointName>)
    ensures r == Err(NotInitialized) <==> endpointNames.None?
    ensures r == Err(NotFound(key)) <==> endpointNames.Some? && key !in endpointNames.value
    ensures r.Ok? <==> endpointNames.Some? && key in endpointNames.value
    ensures r.Ok? ==> r.value == endpointNames.value[key]
  {
    match endpointNames
    case None => Err(NotInitialized)
    case Some(names) =>
      if key !in names then Err(NotFound(key)) else Ok(names[key])
  }

  /** InitializeEndpoints: creates an empty registry only when there is none. */
  function InitializeEndpoints(s: State): (t: State)
    ensures t.endpointNames.Some?
    ensures s.endpointNames.Some? ==> t == s
    ensures s.endpointNames.None? ==> t.endpointNames.value == map[]
    ensures forall k :: GetEndpointName(s.endpointNames, k).Ok? ==>
              GetEndpointName(t.endpointNames, k) == GetEndpointName(s.endpointNames, k)
    ensures t.createdFactories == s.createdFactories
    ensures t.factoriesBuilt == s.factoriesBuilt && t.channelsMinted == s.channelsMinted
  {
    if s.endpointNames.None? then s.(endpointNames := Some(map[])) else s
  }

  /** AddEndpoint: registers a new key. Before InitializeEndpoints it fails
      (the lock on a null dictionary); on a key already present it fails
      (Dictionary.Add); either failure leaves the state as it was. On success
      the key resolves to the new name and every other key resolves as before. */
  function AddEndpoint(s: State, key: Key, endpointName: EndpointName): (r: Step<()>)
    ensures s.endpointNames.None? ==> r == Step(s, Err(NotInitialized))
    ensures s.endpointNames.Some? && key in s.endpointNames.value ==> r == Step(s, Err(Duplicate(key)))
    ensures r.result.Ok? <==> GetEndpointName(s.endpointNames, key) == Err(NotFound(key))
    ensures r.result.Ok? ==> GetEndpointName(r.state.endpointNames, key) == Ok(endpointName)
    ensures forall k :: k != key ==>
              GetEndpointName(r.state.endpointNames, k) == GetEndpointName(s.endpointNames, k)
    ensures r.state.endpointNames.Some? ==>
              (s.endpointNames.Some? && s.endpointNames.value.Keys <= r.state.endpointNames.value.Keys)
    ensures r.state.createdFactories == s.createdFactories
    ensures r.state.factoriesBuilt == s.factoriesBuilt && r.state.channelsMinted == s.channelsMinted
  {
    match s.endpointNames
    case None => Step(s, Err(NotInitialized))
    case Some(names) =>
      if key in names then Step(s, Err(Duplicate(key)))
      else Step(s.(endpointNames := Some(names[key := endpointName])), Ok(()))
  }

  // ---------------------------------------------------------------------
  // Factory cache

  /** The ListOfCreatedFactories getter: assigns an empty dictionary when the
      field is null, and returns the dictionary. No entry changes. */
  function ListOfCreatedFactories(s: State): (t: State)
    ensures t.createdFactories.Some?
    ensures Cache(t) == Cache(s)
    ensures s.createdFactories.Some? ==> t == s
    ensures t.endpointNames == s.endpointNames
    ensures t.factoriesBuilt == s.factoriesBuilt && t.channelsMinted == s.channelsMinted
  {
    if s.createdFactories.None? then s.(createdFactories := Some(map[])) else s
  }

  /** Lines 111-117 and the lookup of line 119: the cached factory for the key,
      built and cached first when the key is absent. A new factory is bound to
      the endpoint name registered for the key; when there is none, the cache
      entries stay as they were and the lookup's error is returned. A cached
      factory is never replaced. */
  function ObtainFactory(s: State, key: Key): (r: Step<Factory>)
    ensures r.state.createdFactories.Some?
    ensures r.state.endpointNames == s.endpointNames && r.state.channelsMinted == s.channelsMinted
    ensures key in Cache(s) ==> r.result == Ok(Cache(s)[key]) && Cache(r.state) == Cache(s)
    ensures r.result.Ok? <==> key in Cache(s) || GetEndpointName(s.endpointNames, key).Ok?
    ensures r.result.Ok? ==> key in Cache(r.state) && r.result.value == Cache(r.state)[key]
    ensures key !in Cache(s) && r.result.Ok? ==>
              r.result.value == Factory(key, GetEndpointName(s.endpointNames, key).value)
    ensures r.result.Err? ==> r.result.error == GetEndpointName(s.endpointNames, key).error
    ensures Cache(r.state).Keys == Cache(s).Keys + (if r.result.Ok? then {key} else {})
    ensures forall k :: k in Cache(s) ==> k in Cache(r.state) && Cache(r.state)[k] == Cache(s)[k]
    ensures r.state.factoriesBuilt ==
              s.factoriesBuilt + (if key !in Cache(s) && r.result.Ok? then 1 else 0)
  {
    var t := ListOfCreatedFactories(s);
    var cache := t.createdFactories.value;
    if key in cache then Step(t, Ok(cache[key]))
    else
      match GetEndpointName(t.endpointNames, key)
      case Err(e) => Step(t, Err(e))
      case Ok(name) =>
        var f := Factory(key, name);
        Step(t.(createdFactories := Some(cache[key := f]), factoriesBuilt := t.factoriesBuilt + 1), Ok(f))
  }

  // ---------------------------------------------------------------------
  // Proxy creation

  /** CreateServiceChannel<T>(endpointName): obtains the cached factory for the
      key and mints a new channel from it. The endpointName argument takes no
      part: the factory is bound to the registered name. */
  function CreateServiceChannelWithEndpoint(s: State, key: Key, endpointName: EndpointName): (r: Step<Minted>)
    ensures r.result.Ok? <==> key in Cache(s) || GetEndpointName(s.endpointNames, key).Ok?
    ensures r.result.Ok? ==> r.result.value.id == s.channelsMinted && r.state.channelsMinted == s.channelsMinted + 1
    ensures r.result.Ok? ==> key in Cache(r.state) && r.result.value.factory == Cache(r.state)[key]
    ensures r.result.Ok? && key !in Cache(s) ==>
              r.result.value.factory == Factory(key, GetEndpointName(s.endpointNames, key).value)
    ensures r.result.Err? ==>
              && r.result.error == GetEndpointName(s.endpointNames, key).error
              && r.state.channelsMinted == s.channelsMinted
              && Cache(r.state) == Cache(s)
              && r.state.factoriesBuilt == s.factoriesBuilt
    ensures forall k :: k in Cache(s) ==> k in Cache(r.state) && Cache(r.state)[k] == Cache(s)[k]
    ensures Cache(r.state).Keys == Cache(s).Keys + (if r.result.Ok? then {key} else {})
    ensures r.state.factoriesBuilt ==
              s.factoriesBuilt + (if key !in Cache(s) && r.result.Ok? then 1 else 0)
    ensures r.state.endpointNames == s.endpointNames
  {
    var f := ObtainFactory(s, key);
    match f.result
    case Err(e) => Step(f.state, Err(e))
    case Ok(factory) =>
      Step(f.state.(channelsMinted := f.state.channelsMinted + 1), Ok(Minted(f.state.channelsMinted, factory)))
  }

  /** CreateServiceChannel<T>(): resolves the endpoint name through the registry
      first; a failed lookup fails before the factory cache is touched at all.
      In a coherent state the channel's factory is bound to the registered name. */
  function CreateServiceChannel(s: State, key: Key): (r: Step<Minted>)
    ensures r.result.Ok? <==> GetEndpointName(s.endpointNames, key).Ok?
    ensures r.result.Err? ==> r == Step(s, Err(GetEndpointName(s.endpointNames, key).error))
    ensures r.result.Ok? ==> r.result.value.id == s.channelsMinted && r.state.channelsMinted == s.channelsMinted + 1
    ensures r.result.Ok? ==> key in Cache(r.state) && r.result.value.factory == Cache(r.state)[key]
    ensures Coherent(s) && r.result.Ok? ==>
              r.result.value.factory == Factory(key, GetEndpointName(s.endpointNames, key).value)
    ensures forall k :: k in Cache(s) ==> k in Cache(r.state) && Cache(r.state)[k] == Cache(s)[k]
    ensures Cache(r.state).Keys == Cache(s).Keys + (if r.result.Ok? then {key} else {})
    ensures r.state.factoriesBuilt ==
              s.factoriesBuilt + (if key !in Cache(s) && r.result.Ok? then 1 else 0)
    ensures r.state.endpointNames == s.endpointNames
  {
    match GetEndpointName(s.endpointNames, key)
    case Err(e) => Step(s, Err(e))
    case Ok(name) => CreateServiceChannelWithEndpoint(s, key, name)
  }

  // ---------------------------------------------------------------------
  // Proxy closing

  /** What CloseChannel leaves behind for a channel: its final state and the
      exception it lets escape, if any. */
  datatype Closing = Closing(final: ChannelState, rethrown: Option<string>)

  /** Close, falling back to Abort on a CommunicationException or a
      TimeoutException (swallowed) and on any other exception (re-raised). */
  function AfterClose(outcome: CloseResult): (c: Closing)
    ensures c.final == Closed <==> outcome.Closes?
    ensures c.final == Aborted <==> outcome.Raises?
    ensures c.rethrown.Some? <==> outcome.Raises? && outcome.ex.OtherException?
    ensures c.rethrown.Some? ==> c.rethrown.value == outcome.ex.name
  {
    match outcome
    case Closes => Closing(Closed, None)
    case Raises(CommunicationException) => Closing(Aborted, None)
    case Raises(TimeoutException) => Closing(Aborted, None)
    case Raises(OtherException(name)) => Closing(Aborted, Some(name))
  }

  // ---------------------------------------------------------------------
  // Properties of single operations

  /** Calling InitializeEndpoints twice is the same as calling it once. */
  lemma InitializeEndpointsIdempotent(s: State)
    ensures InitializeEndpoints(InitializeEndpoints(s)) == InitializeEndpoints(s)
  {
  }

  /** A second registration of a key fails and keeps the first endpoint name. */
  lemma SecondRegistrationKeepsFirst(s: State, key: Key, e1: EndpointName, e2: EndpointName)
    requires AddEndpoint(s, key, e1).result.Ok?
    ensures AddEndpoint(AddEndpoint(s, key, e1).state, key, e2).result == Err(Duplicate(key))
    ensures GetEndpointName(AddEndpoint(AddEndpoint(s, key, e1).state, key, e2).state.endpointNames, key) == Ok(e1)
  {
  }

  /** The explicit endpointName argument of CreateServiceChannel<T>(endpointName)
      has no effect on what the call does. */
  lemma EndpointArgumentIgnored(s: State, key: Key, e1: EndpointName, e2: EndpointName)
    ensures CreateServiceChannelWithEndpoint(s, key, e1) == CreateServiceChannelWithEndpoint(s, key, e2)
  {
  }

  /** Each operation keeps the cache coherent with the registry. */
  lemma CoherentAfterAddEndpoint(s: State, key: Key, endpointName: EndpointName)
    requires Coherent(s)
    ensures Coherent(AddEndpoint(s, key, endpointName).state)
  {
    var t := AddEndpoint(s, key, endpointName).state;
    forall k | k in Cache(t)
      ensures GetEndpointName(t.endpointNames, k) == Ok(Cache(t)[k].endpointName)
    {
      assert GetEndpointName(s.endpointNames, k).Ok?;
    }
  }

  lemma CoherentAfterObtainFactory(s: State, key: Key)
    requires Coherent(s)
    ensures Coherent(ObtainFactory(s, key).state)
  {
    var r := ObtainFactory(s, key);
    if key !in Cache(s) && r.result.Ok? {
      assert Cache(r.state).Keys == Cache(s).Keys + {key};
      assert |Cache(r.state).Keys| == |Cache(s).Keys| + 1;
    }
  }
}
