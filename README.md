# ProxyThing: protocol-client resolution and dispatch

This project models the consumed-Thing proxy of node-wot (`src/proxything.ts`) and proves properties of it in Dafny.
A `ProxyThing` holds a parsed Thing Description, a reference to the Servient, and a lazily filled cache `clients` that maps each URI scheme to one protocol client.
`getProperty`, `setProperty` and `invokeAction` each do three things:

1. look up the named interaction of the right type (`findInteraction`);
2. choose a client and link for its links (`getClientFor`): first the earliest link whose scheme is already cached, otherwise the earliest link whose scheme the Servient supports, whose client is then fetched and cached;
3. forward `readResource`, `writeResource` or `invokeResource` to that client, using the chosen link's href.

Files:

- `results.dfy`: `Option` and `Result`, which stand for `null` returns and thrown errors.
- `thing_description.dfy`: the catalog (interactions, links) and `FindInteraction`.
- `client_resolution.dfy`: `Resolve`, the pure specification of `getClientFor` over (links, cache snapshot, Servient), the `findIndex` scan, and the resolution lemmas.
- `proxy_thing.dfy`: `Perform`, the specification of the three operations; the class `ProxyThing`, with its `clients` map field and its methods; the dispatch lemmas.
- `scenarios.dfy`: concrete catalogs run through the model.

Collaborators the model abstracts:

- `Helpers.extractScheme` is not part of this model. `ProxyThing` takes it as a given function `extractScheme: Href -> Scheme`.
- The Servient is a value `Servient(supported, instances)`. `hasClientFor(s)` is `s in supported`. `getClientFor(s)` is `instances[s]` when that key is present, and "no client" otherwise. This makes the provider deterministic.
- A ProtocolClient is an opaque handle `Client(id)`. A transport call is returned as a `TransportCall` value naming the primitive, the client, the href and the argument. What the primitive then returns is outside the model.
- The class keeps a ghost counter `fetches`. It counts how often the Servient's `getClientFor` was asked. The `fetched` flag of `Resolution` and `Outcome` records the same thing for one call.

Two modelling decisions about errors and the cache:

- The code throws plain `Error`s, so the failures are kinds. `NoLinks` models "no links for this interaction" (line 50). `NoSuitableClient` models "no suitable client" (lines 64 and 74). `InteractionNotFound(name, thing)` models the lookup rejection, and it carries the two names the message mentions. Typed errors could list the attempted schemes; the code's message does not, so the model does not either.
- A scheme is cached only after the Servient confirmed support for it. `CacheConsistent` states this, made exact for a deterministic Servient: every cached scheme is supported, and it is cached with the client the Servient yields for it. `ProxyThing.Valid` keeps it.

## Model

| member | source | states |
|---|---|---|
| ThingDescriptions.Filter | src/proxything.ts:80 | an entry is in the result iff it is in the catalog and matches both type and name; the result is empty iff no catalog entry matches |
| ThingDescriptions.FindInteraction | src/proxything.ts:79-82 | the result is None iff no entry matches both type and name, so a same-named entry of another type does not count; a returned entry is from the catalog and matches |
| ThingDescriptions.FilterHead | src/proxything.ts:80-81 | the earliest matching entry heads the filtered list |
| ThingDescriptions.FindInteractionFirst | src/proxything.ts:79-82 | findInteraction returns the entry at the earliest matching index, in catalog order |
| ClientResolution.SchemesOf | src/proxything.ts:53 | one scheme per link, in link order: the scheme at each index is the extracted scheme of that link's href |
| ClientResolution.FirstIn | src/proxything.ts:54 | None iff no scheme is in the key set; otherwise the index is in range, its scheme is in the set, and no earlier scheme is |
| ClientResolution.FindIndex | src/proxything.ts:63 | the findIndex loop returns -1 iff no scheme is in the set; otherwise it returns the earliest index whose scheme is |
| ClientResolution.FirstInAt | src/proxything.ts:54 | the earliest index whose scheme is in the set is exactly the one FirstIn names |
| ClientResolution.Resolve | src/proxything.ts:48-77 | fails with NoLinks iff the link list is empty; every failure leaves the cache unchanged; the cache changes only when the Servient was asked; existing entries are kept; on success the link is one of the inputs and the new cache maps its scheme to the returned client; new keys are schemes of the links |
| ClientResolution.ResolveCacheHit | src/proxything.ts:53-60 | if some link's scheme is cached, the earliest such link is returned with its cached client; the cache is unchanged; the Servient is not asked, and any other Servient gives the same resolution |
| ClientResolution.ResolveFallback | src/proxything.ts:63-71 | on a full cache miss, the earliest Servient-supported link is returned with the Servient's client; the cache gains exactly that scheme and keeps every earlier entry |
| ClientResolution.ResolveUnsupported | src/proxything.ts:63-64 | a full cache miss where no link scheme is supported fails with NoSuitableClient, with the cache unchanged and no client fetched |
| ClientResolution.ResolveNoInstance | src/proxything.ts:67-75 | when the earliest supported scheme yields no client, the call fails with NoSuitableClient and the cache is unchanged |
| ClientResolution.ResolveRepeat | src/proxything.ts:53-71 | after a successful resolution, resolving the same links again returns the same client and link from the cache, without asking the Servient and without changing the cache |
| ClientResolution.ResolvePreservesConsistency | src/proxything.ts:63-69 | resolution keeps the invariant that every cached scheme is supported and holds the Servient's client for it |
| ProxyThings.Forward | src/proxything.ts:100-146 | the forwarded call uses the given client and href; it is readResource for get (:100), writeResource carrying the new value for set (:123), and invokeResource carrying the optional parameter for invoke (:146) |
| ProxyThings.Perform | src/proxything.ts:88-150 | a rejected operation leaves the cache unchanged; existing cache entries are always kept; a successful operation is the transport primitive matching the operation, with the operation's argument, on its own client and href (PerformDispatch ties these to the link resolution chose) |
| ProxyThings.PerformNotFound | src/proxything.ts:91-138 | for get (:91-93), set (:114-116) and invoke (:136-138), an unknown name, or a name of the wrong type, rejects with InteractionNotFound; the cache is untouched and the Servient is not asked |
| ProxyThings.PerformDispatch | src/proxything.ts:91-100 | with the first matching entry, the operation is resolution over that entry's links followed by the matching primitive on the chosen link's href; resolution errors propagate unchanged |
| ProxyThings.PerformRepeat | src/proxything.ts:95-100 | after a successful operation, repeating it on the cache it left gives the same transport call, with no Servient lookup and no cache change |
| ProxyThings.PerformReuse | src/proxything.ts:95-146 | after a successful operation, any operation on the same name and interaction type (a set after a get, a second set with another value) is served from the cache it left: same client and href, no Servient lookup, no cache change |
| ProxyThings.ProxyThing.constructor | src/proxything.ts:40-45 | the thing takes its name from the description and starts with an empty client cache |
| ProxyThings.ProxyThing.GetClientFor | src/proxything.ts:48-77 | the result, the new cache and the lookup count are exactly those of Resolve on the old cache; the cache invariant is kept |
| ProxyThings.ProxyThing.GetProperty | src/proxything.ts:88-104 | the result and new cache are those of Perform with a read; the cache invariant is kept |
| ProxyThings.ProxyThing.SetProperty | src/proxything.ts:111-127 | the result and new cache are those of Perform with a write of the new value; the cache invariant is kept |
| ProxyThings.ProxyThing.InvokeAction | src/proxything.ts:133-150 | the result and new cache are those of Perform with an invoke carrying the optional parameter, looked up among actions; the cache invariant is kept |
| Scenarios.ReadFallsBackToSupportedScheme | src/proxything.ts:63-71 | with links over HTTP then CoAP and only CoAP supported, a first read fetches and caches the CoAP client and reads the CoAP href |
| Scenarios.ReadWithoutSupportedScheme | src/proxything.ts:63-64 | when neither scheme is supported, the read rejects with NoSuitableClient and caches nothing |
| Scenarios.WriteTwice | src/proxything.ts:111-127 | two writes of different values to the same property both go to the CoAP href with the same client, and the Servient is asked for a client only once |
| Scenarios.InvokeWithoutLinks | src/proxything.ts:49-51 | invoking an action with no links rejects with NoLinks and leaves the cache as it was |

## Left out

- `packages/node-wot/src/wot-impl.ts` is not part of this model. It is factory plumbing: it fetches and parses descriptions and creates and registers Things, and it has no decision logic of its own.
- Promises: the operations are synchronous methods that return a `Result`. A throw inside the promise executor, which rejects the promise, becomes an `Err`.
- Concurrency: two overlapping first uses of one scheme can both fetch a client, and the last write wins. Calls in the model are sequential, so this race is not captured.
- The `!client` branches (lines 96, 119 and 142) are not modelled. `getClientFor` throws rather than return a missing client, and an `Ok` always carries a client, so these branches cannot be taken.
- Logger calls, the no-op listener stubs (lines 152-154), and `getDescription` (lines 159-161) are left out. The last only calls the external `serializeTD`.
- The internals of `Helpers.extractScheme`, the Servient and `ProtocolClient` are abstracted as described above. A Servient whose `getClientFor` yields a new instance on each call is not captured; only the cached instance matters after the first fetch.
- The Servient is a constant of each `ProxyThing`: the schemes it supports and the clients it yields never change while the thing exists. The real Servient is a shared mutable object, also handed to other Things (packages/node-wot/src/wot-impl.ts:60 and 77). `CacheConsistent` relies on this; a Servient that later drops a scheme is not captured.
- Error message texts are not modelled; only the error kinds are.
