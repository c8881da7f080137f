# ServiceFactory of CommunicationsManager, modelled in Dafny

`ServiceFactory` is one static class. It is a process-wide registry and life-cycle
manager for WCF client proxies. It holds two lazily created dictionaries:

- the **endpoint registry**, from the service interface name to the endpoint
  configuration name;
- the **factory cache**, from the service interface name to the
  `ChannelFactory<T>` built for it.

It hands out opened proxies (channels) and closes them. When a close fails, it
falls back to `Abort`.

The model has four modules:

- `Types` (types.dfy) holds the values: keys, endpoint names, `Factory`, the
  channel states, the exceptions `Close` can raise, and `Result` in place of
  the exceptions the class throws.
- `Transitions` (transitions.dfy) treats the static fields as a value,
  `State`, and gives one function per operation of the class. The operations
  are `InitializeEndpoints`, `AddEndpoint`, the `ListOfCreatedFactories`
  getter, the factory lookup or build of `CreateServiceChannel<T>(endpointName)`,
  both `CreateServiceChannel<T>` overloads and `GetEndpointName`. There is also
  the close decision of `CloseChannel`. Each function's contract states what
  the source promises. `GetEndpointName` is the one pure lookup, and the
  class uses it too.
- `Proxies` (service_factory.dfy) holds the class `ServiceFactory`. Its
  fields are the two dictionaries, each `None` while the C# field is null,
  and two counters: factories built and channels minted. Its methods update
  those fields in place. Each method is proved to leave the fields equal to
  what the matching `Transitions` function gives from the old fields. Each
  method also keeps `Valid()`: every cached factory is bound to the endpoint
  name registered for its key, and one factory was built per cached key.
  The class `Channel` is a proxy with an identity, the factory it came from,
  and a state (`Created`, `Open`, `Closed`, `Aborted`). `CloseChannel` acts
  on a proxy, and an oracle argument says what its graceful `Close` does.
- `Lifetime` (lifetime.dfy) proves what holds over any sequence of calls:
  - the cache stays coherent with the registry;
  - registrations and cached factories are never overwritten or dropped;
  - channels handed out are all distinct;
  - all channels of one key come from one factory.

Behaviour of the code worth knowing:

- `CreateServiceChannel<T>(endpointName)` never reads `endpointName`. A new
  factory is bound to the name registered for the key (line 115), so the call
  fails for a key with no registration even when an endpoint name is given.
  The model follows the code: `Transitions.EndpointArgumentIgnored` proves
  the argument has no effect.
- Calling `AddEndpoint` before `InitializeEndpoints` fails because of `lock`
  on a null field (an `ArgumentNullException`). It is not an explicit
  "not initialised" check. The model reports it as `NotInitialized`, and the
  registry is unchanged, as in the code.
- The explicit overload runs the `ListOfCreatedFactories` getter before it
  looks up the name. So a failing call still replaces a null cache field with
  an empty dictionary. The parameterless overload fails on the lookup before
  it touches the cache. The model keeps both.

Outside calls are replaced as follows:

- WCF's `CreateChannel`, `Open`, `Close` and `Abort` become methods of
  `Channel` that change only its state.
- What `Close` does is an argument of type `CloseResult`: it completes, or it
  raises a `CommunicationException`, a `TimeoutException` or another exception.
- `typeof(T).Name` is an explicit `Key` argument.

## Model

| member | source | states |
|---|---|---|
| `Transitions.GetEndpointName` | CommunicationsManager.Core/ServiceFactory.cs:130-147 | fails with NotInitialized exactly when the registry is absent; fails with NotFound(key) exactly when the registry exists without the key; otherwise returns the registered name |
| `Transitions.InitializeEndpoints` | CommunicationsManager.Core/ServiceFactory.cs:20-26 | afterwards the registry exists; an existing registry is left exactly as it was; a new registry is empty; every registered name still resolves; the cache is untouched |
| `Transitions.InitializeEndpointsIdempotent` | CommunicationsManager.Core/ServiceFactory.cs:20-26 | a second InitializeEndpoints changes nothing |
| `Transitions.AddEndpoint` | CommunicationsManager.Core/ServiceFactory.cs:33-39 | fails with NotInitialized before initialisation and with Duplicate(key) for a registered key, leaving the state unchanged; succeeds exactly when the lookup of the key was NotFound; after success the key resolves to the new name; every other key resolves as before; no key disappears |
| `Transitions.SecondRegistrationKeepsFirst` | CommunicationsManager.Core/ServiceFactory.cs:37 | registering a key twice fails the second time with Duplicate and the key still resolves to the first name |
| `Transitions.ListOfCreatedFactories` | CommunicationsManager.Core/ServiceFactory.cs:44-54 | afterwards the cache dictionary exists with exactly the entries it had; an existing one is left as it was |
| `Transitions.ObtainFactory` | CommunicationsManager.Core/ServiceFactory.cs:109-119 | the cached factory is reused when the key is present; otherwise a factory bound to the registered name is added and counted as built; a failed lookup returns its error and adds nothing; existing entries are never replaced; the cached keys grow by at most the key |
| `Transitions.CreateServiceChannelWithEndpoint` | CommunicationsManager.Core/ServiceFactory.cs:107-123 | succeeds exactly when the key is cached or registered; a success mints the channel numbered by the counter and advances the counter; the channel comes from the cached factory for the key; a new factory is bound to the registered name; on failure no channel is minted, no factory is built, and the lookup's error is returned; the cached keys grow by at most the key, and a factory is counted as built only when the key was absent |
| `Transitions.EndpointArgumentIgnored` | CommunicationsManager.Core/ServiceFactory.cs:107-115 | the explicit endpointName argument does not affect the result or the new state |
| `Transitions.CreateServiceChannel` | CommunicationsManager.Core/ServiceFactory.cs:94-100 | succeeds exactly when the key is registered; fails with the lookup's error and an untouched state otherwise; a success mints a new channel numbered by the counter from the cached factory; in a coherent state that factory is bound to the registered name; the cached keys grow by at most the key, and a factory is counted as built only when the key was absent |
| `Transitions.AfterClose` | CommunicationsManager.Core/ServiceFactory.cs:65-87 | the channel ends Closed exactly when Close completes and Aborted exactly when it raises; an exception escapes exactly when it is neither a communication nor a timeout exception, and it is the same exception |
| `Transitions.CoherentAfterAddEndpoint` | CommunicationsManager.Core/ServiceFactory.cs:33-39 | a registration keeps every cached factory bound to its registered name |
| `Transitions.CoherentAfterObtainFactory` | CommunicationsManager.Core/ServiceFactory.cs:111-117 | obtaining a factory keeps the cache coherent: one factory built per cached key, each bound to its registered name |
| `Proxies.Channel.constructor` | CommunicationsManager.Core/ServiceFactory.cs:119 | CreateChannel mints a proxy with the given identity and factory, not yet opened |
| `Proxies.Channel.Open` | CommunicationsManager.Core/ServiceFactory.cs:120 | opening a newly minted proxy leaves it Open |
| `Proxies.Channel.Close` | CommunicationsManager.Core/ServiceFactory.cs:71 | a completed Close leaves the proxy Closed; a Close that raises returns the exception and leaves the state alone |
| `Proxies.Channel.Abort` | CommunicationsManager.Core/ServiceFactory.cs:75-83 | Abort leaves the proxy Aborted |
| `Proxies.ServiceFactory.constructor` | CommunicationsManager.Core/ServiceFactory.cs:14-15 | both static dictionaries start null and the counters at zero |
| `Proxies.ServiceFactory.InitializeEndpoints` | CommunicationsManager.Core/ServiceFactory.cs:20-26 | the fields become Transitions.InitializeEndpoints of the old fields; an existing registry is unchanged; coherence is kept |
| `Proxies.ServiceFactory.AddEndpoint` | CommunicationsManager.Core/ServiceFactory.cs:33-39 | the fields and result follow Transitions.AddEndpoint; a failure changes no field; after success the key resolves to the new name |
| `Proxies.ServiceFactory.ListOfCreatedFactories` | CommunicationsManager.Core/ServiceFactory.cs:44-54 | assigns an empty dictionary to a null field and returns the dictionary with exactly the old entries; coherence is kept |
| `Proxies.ServiceFactory.CreateServiceChannelWithEndpoint` | CommunicationsManager.Core/ServiceFactory.cs:107-123 | the fields, error and channel identity follow Transitions.CreateServiceChannelWithEndpoint; the returned channel is a fresh object in the Open state |
| `Proxies.ServiceFactory.CreateServiceChannel` | CommunicationsManager.Core/ServiceFactory.cs:94-100 | the fields, error and channel identity follow Transitions.CreateServiceChannel; the returned channel is a fresh object in the Open state |
| `Proxies.ServiceFactory.CloseChannel` | CommunicationsManager.Core/ServiceFactory.cs:65-87 | an object that is no communication object is left alone and nothing is raised; for a channel, the final state and the re-raised error are those of Transitions.AfterClose |
| `Lifetime.CoherentAfterPerform` | CommunicationsManager.Core/ServiceFactory.cs:20-123 | each public operation keeps the cache coherent with the registry |
| `Lifetime.CoherentThroughout` | CommunicationsManager.Core/ServiceFactory.cs:111-117 | over any sequence of calls, every cached factory stays bound to its registered name and one factory is built per cached key |
| `Lifetime.OneFactoryPerKeyFromStart` | CommunicationsManager.Core/ServiceFactory.cs:14-15 | from the first use of the class on, the cache is coherent with the registry: every cached factory is bound to its registered name, and the number of factories ever built equals the number of cached keys |
| `Lifetime.RegistryPersists` | CommunicationsManager.Core/ServiceFactory.cs:20-39 | once initialised, the registry stays initialised and never loses a key |
| `Lifetime.RegistrationPersists` | CommunicationsManager.Core/ServiceFactory.cs:37 | a registered name keeps resolving to the same value after any sequence of calls |
| `Lifetime.FactoryPersists` | CommunicationsManager.Core/ServiceFactory.cs:111-117 | a cached factory is never evicted or replaced by any sequence of calls |
| `Lifetime.MintedByPerform` | CommunicationsManager.Core/ServiceFactory.cs:119 | a call that hands out a channel numbers it with the counter and advances it; any other call leaves the counter alone |
| `Lifetime.ChannelsDistinct` | CommunicationsManager.Core/ServiceFactory.cs:119-122 | channels are handed out with strictly increasing identities, all newer than the starting state and below the final counter |
| `Lifetime.ChannelsFromCachedFactory` | CommunicationsManager.Core/ServiceFactory.cs:111-122 | every channel handed out comes from the factory that is cached for its key at the end |
| `Lifetime.SameKeySameFactory` | CommunicationsManager.Core/ServiceFactory.cs:111-122 | two channels of one key share one factory and are different channels |
| `Lifetime.OrderServiceScenario` | CommunicationsManager.Core/ServiceFactory.cs:94-123 | initialise, register "OrderService" as "ep_orders", create twice: two distinct channels from one factory bound to "ep_orders", one factory built |

## Left out

- Locking and concurrency: the `lock` statements and the unlocked
  `ContainsKey` test before the locked `Add` (lines 111-116). The model runs
  operations one at a time. It does not capture two threads that both see the
  key absent during the first creation, where the second `Add` throws.
- The `ListOfCreatedFactories` setter (lines 55-58): nothing calls it.
- WCF itself: what `ChannelFactory<T>`, `CreateChannel`, `Open`, `Close` and
  `Abort` do on the wire. A factory is the pair of its key and endpoint name.
  A proxy is an identity with a state.
- Failures of `new ChannelFactory<T>`, `CreateChannel` or `Open`. The model
  assumes they succeed. In the source such an exception would propagate to the
  caller unchanged.
- Exceptions raised by `Abort` itself.
- The exact .NET exception types and messages (lines 134 and 140). The model
  uses typed errors instead. `AddEndpoint` before `InitializeEndpoints` gives
  `NotInitialized` where .NET throws an `ArgumentNullException`.
- Null keys or names given to `AddEndpoint`. Strings in the model are never null.
- Reflection through `typeof(T).Name` (lines 96 and 109). The key is passed
  explicitly, and the generic proxy type `T` is not modelled. As a consequence,
  two service types with the same simple name share one cache key. In the
  source, the `(ChannelFactory<T>)` cast at line 119 then throws an
  `InvalidCastException` for the second type. The model instead hands out a
  channel from the factory cached for the first type.
- WCF's intermediate Closing and Faulted states. In the model, a graceful
  close that raises leaves the channel's state unchanged until `Abort`.
