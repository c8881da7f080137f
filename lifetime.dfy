/** What holds over the whole life of the process: any sequence of calls to
    the public operations of ServiceFactory, run one after the other. */
module Lifetime {
  import opened Types
  import Transitions

  type State = Transitions.State

  /** A call to one of the public operations. */
  datatype Op =
    | InitializeEndpoints
    | AddEndpoint(key: Key, endpointName: EndpointName)
    | CreateServiceChannel(key: Key)
    | CreateServiceChannelWithEndpoint(key: Key, endpointName: EndpointName)

  /** One call: the state it leaves and the channel it hands out, if any. */
  function Perform(s: State, op: Op): (r: Transitions.Step<Option<Transitions.Minted>>)
  {
    match op
    case InitializeEndpoints =>
      Transitions.Step(Transitions.InitializeEndpoints(s), Ok(None))
    case AddEndpoint(key, endpointName) =>
      var r := Transitions.AddEndpoint(s, key, endpointName);
      Transitions.Step(r.state, if r.result.Ok? then Ok(None) else Err(r.result.error))
    case CreateServiceChannel(key) =>
      var r := Transitions.CreateServiceChannel(s, key);
      Transitions.Step(r.state, if r.result.Ok? then Ok(Some(r.result.value)) else Err(r.result.error))
    case CreateServiceChannelWithEndpoint(key, endpointName) =>
      var r := Transitions.CreateServiceChannelWithEndpoint(s, key, endpointName);
      Transitions.Step(r.state, if r.result.Ok? then Ok(Some(r.result.value)) else Err(r.result.error))
  }

  /** The state after the calls, in order. */
  function Run(s: State, ops: seq<Op>): (t: State)
    decreases |ops|
  {
    if ops == [] then s else Run(Perform(s, ops[0]).state, ops[1..])
  }

  /** The channels handed out by the calls, in order. */
  function HandedOut(s: State, ops: seq<Op>): (channels: seq<Transitions.Minted>)
    decreases |ops|
  {
    if ops == [] then []
    else
      var r := Perform(s, ops[0]);
      Issued(r) + HandedOut(r.state, ops[1..])
  }

  // ---------------------------------------------------------------------
  // One call

  lemma CoherentAfterPerform(s: State, op: Op)
    requires Transitions.Coherent(s)
    ensures Transitions.Coherent(Perform(s, op).state)
  {
    match op
    case InitializeEndpoints =>
    case AddEndpoint(key, endpointName) =>
      Transitions.CoherentAfterAddEndpoint(s, key, endpointName);
    case CreateServiceChannel(key) =>
      if Transitions.GetEndpointName(s.endpointNames, key).Ok? {
        Transitions.CoherentAfterObtainFactory(s, key);
      }
    case CreateServiceChannelWithEndpoint(key, endpointName) =>
      Transitions.CoherentAfterObtainFactory(s, key);
  }

  // ---------------------------------------------------------------------
  // Any sequence of calls

  /** The cache stays coherent with the registry: every cached factory is bound
      to the endpoint name registered for its key, and the number of factories
      ever built equals the number of cached keys (one factory per key). */
  lemma {:induction false} CoherentThroughout(s: State, ops: seq<Op>)
    requires Transitions.Coherent(s)
    ensures Transitions.Coherent(Run(s, ops))
    decreases |ops|
  {
    if ops != [] {
      CoherentAfterPerform(s, ops[0]);
      CoherentThroughout(Perform(s, ops[0]).state, ops[1..]);
    }
  }

  /** From the first use of the class on, the cache is coherent: in particular
      the number of factories ever built equals the number of cached keys. */
  lemma OneFactoryPerKeyFromStart(ops: seq<Op>)
    ensures Transitions.Coherent(Run(Transitions.Start, ops))
  {
    CoherentThroughout(Transitions.Start, ops);
  }

  /** Once initialised, the registry stays initialised and no key is ever removed. */
  lemma {:induction false} RegistryPersists(s: State, ops: seq<Op>)
    requires s.endpointNames.Some?
    ensures Run(s, ops).endpointNames.Some?
    ensures s.endpointNames.value.Keys <= Run(s, ops).endpointNames.value.Keys
    decreases |ops|
  {
    if ops != [] {
      RegistryPersists(Perform(s, ops[0]).state, ops[1..]);
    }
  }

  /** A registered endpoint name is never overwritten. */
  lemma {:induction false} RegistrationPersists(s: State, ops: seq<Op>, key: Key)
    requires Transitions.GetEndpointName(s.endpointNames, key).Ok?
    ensures Transitions.GetEndpointName(Run(s, ops).endpointNames, key)
         == Transitions.GetEndpointName(s.endpointNames, key)
    decreases |ops|
  {
    if ops != [] {
      var t := Perform(s, ops[0]).state;
      assert Transitions.GetEndpointName(t.endpointNames, key) == Transitions.GetEndpointName(s.endpointNames, key);
      RegistrationPersists(t, ops[1..], key);
    }
  }

  /** A cached factory is never evicted or replaced. */
  lemma {:induction false} FactoryPersists(s: State, ops: seq<Op>, key: Key)
    requires key in Transitions.Cache(s)
    ensures key in Transitions.Cache(Run(s, ops))
    ensures Transitions.Cache(Run(s, ops))[key] == Transitions.Cache(s)[key]
    decreases |ops|
  {
    if ops != [] {
      FactoryPersists(Perform(s, ops[0]).state, ops[1..], key);
    }
  }

  /** The channel a call hands out, if any. */
  function Issued(r: Transitions.Step<Option<Transitions.Minted>>): (channels: seq<Transitions.Minted>) {
    if r.result.Ok? && r.result.value.Some? then [r.result.value.value] else []
  }

  /** A call that hands out a channel numbers it with the counter and
      advances the counter; any other call leaves the counter alone. */
  lemma MintedByPerform(s: State, op: Op)
    ensures var r := Perform(s, op);
            if Issued(r) != [] then Issued(r)[0].id == s.channelsMinted && r.state.channelsMinted == s.channelsMinted + 1
            else r.state.channelsMinted == s.channelsMinted
  {
  }

  /** Channels are numbered in the order they are handed out, so no two are the
      same, and every one is newer than the state the calls started from. */
  lemma {:induction false} ChannelsDistinct(s: State, ops: seq<Op>)
    ensures forall i, j :: 0 <= i < j < |HandedOut(s, ops)| ==> HandedOut(s, ops)[i].id < HandedOut(s, ops)[j].id
    ensures forall i :: 0 <= i < |HandedOut(s, ops)| ==>
              s.channelsMinted <= HandedOut(s, ops)[i].id < Run(s, ops).channelsMinted
    ensures s.channelsMinted <= Run(s, ops).channelsMinted
    decreases |ops|
  {
    if ops != [] {
      var r := Perform(s, ops[0]);
      MintedByPerform(s, ops[0]);
      ChannelsDistinct(r.state, ops[1..]);
      var head, rest := Issued(r), HandedOut(r.state, ops[1..]);
      var h := HandedOut(s, ops);
      assert h == head + rest;
      assert Run(s, ops) == Run(r.state, ops[1..]);
      forall i | 0 <= i < |h|
        ensures s.channelsMinted <= h[i].id < Run(s, ops).channelsMinted
        ensures i < |head| ==> h[i].id == s.channelsMinted
        ensures |head| <= i ==> r.state.channelsMinted <= h[i].id
      {
        if i >= |head| { assert h[i] == rest[i - |head|]; }
      }
    }
  }

  /** Every channel handed out comes from the factory that is cached for its
      key, so all channels of one key share one factory. */
  lemma {:induction false} ChannelsFromCachedFactory(s: State, ops: seq<Op>)
    requires Transitions.Coherent(s)
    ensures forall c :: c in HandedOut(s, ops) ==>
              c.factory.key in Transitions.Cache(Run(s, ops))
              && Transitions.Cache(Run(s, ops))[c.factory.key] == c.factory
    decreases |ops|
  {
    if ops != [] {
      var r := Perform(s, ops[0]);
      CoherentAfterPerform(s, ops[0]);
      ChannelsFromCachedFactory(r.state, ops[1..]);
      if r.result.Ok? && r.result.value.Some? {
        var c := r.result.value.value;
        var key := ops[0].key;
        assert key in Transitions.Cache(r.state) && Transitions.Cache(r.state)[key] == c.factory;
        assert c.factory.key == key;
        FactoryPersists(r.state, ops[1..], key);
        assert HandedOut(s, ops) == [c] + HandedOut(r.state, ops[1..]);
      } else {
        assert HandedOut(s, ops) == HandedOut(r.state, ops[1..]);
      }
    }
  }

  /** Two channels of the same key come from one and the same factory. */
  lemma SameKeySameFactory(s: State, ops: seq<Op>, i: nat, j: nat)
    requires Transitions.Coherent(s)
    requires i < |HandedOut(s, ops)| && j < |HandedOut(s, ops)|
    requires HandedOut(s, ops)[i].factory.key == HandedOut(s, ops)[j].factory.key
    ensures HandedOut(s, ops)[i].factory == HandedOut(s, ops)[j].factory
    ensures i != j ==> HandedOut(s, ops)[i].id != HandedOut(s, ops)[j].id
  {
    ChannelsFromCachedFactory(s, ops);
    ChannelsDistinct(s, ops);
    assert HandedOut(s, ops)[i] in HandedOut(s, ops);
    assert HandedOut(s, ops)[j] in HandedOut(s, ops);
  }

  /** The usage the class is written for: initialise, register one service,
      create two proxies for it. Both come from one factory bound to the
      registered endpoint, and they are two different channels. */
  lemma OrderServiceScenario()
    ensures var ops := [
                InitializeEndpoints,
                AddEndpoint("OrderService", "ep_orders"),
                CreateServiceChannel("OrderService"),
                CreateServiceChannel("OrderService")];
            && HandedOut(Transitions.Start, ops) == [
                 Transitions.Minted(0, Factory("OrderService", "ep_orders")),
                 Transitions.Minted(1, Factory("OrderService", "ep_orders"))]
            && Run(Transitions.Start, ops).factoriesBuilt == 1
  {
  }
}
