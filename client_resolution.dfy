/**
 * Protocol-client resolution: the two-pass choice ProxyThing.getClientFor makes
 * among an interaction's links, stated as a pure function over the links, a
 * snapshot of the per-scheme client cache and the Servient acting as client
 * provider. The class in module ProxyThings runs it against its own cache.
 */
module ClientResolution {
  import opened Results
  import opened ThingDescriptions

  type Scheme = string

  /** An opaque handle standing for one ProtocolClient instance. */
  datatype Client = Client(id: nat)

  /**
   * The Servient as client provider: `hasClientFor(s)` is `s in supported`;
   * `getClientFor(s)` yields `instances[s]` when present and nothing otherwise.
   */
  datatype Servient = Servient(supported: set<Scheme>, instances: map<Scheme, Client>)

  /** The two errors getClientFor throws: "no links for this interaction" and "no suitable client". */
  datatype ResolveError = NoLinks | NoSuitableClient

  datatype ClientAndLink = ClientAndLink(client: Client, link: Link)

  /**
   * What one resolution produces: its result, the cache afterwards, and whether
   * the Servient was asked for a client instance (its getClientFor was called).
   */
  datatype Resolution = Resolution(result: Result<ClientAndLink, ResolveError>, cache: map<Scheme, Client>, fetched: bool)

  /** The scheme of every link, in link order (`links.map(link => extractScheme(link.href))`). */
  function SchemesOf(links: seq<Link>, extractScheme: Href -> Scheme): (r: seq<Scheme>)
    ensures |r| == |links|
    ensures forall i :: 0 <= i < |links| ==> r[i] == extractScheme(links[i].href)
  {
    seq(|links|, i requires 0 <= i < |links| => extractScheme(links[i].href))
  }

  /** The earliest index whose scheme is in `keys`; None where findIndex gives -1. */
  function FirstIn(schemes: seq<Scheme>, keys: set<Scheme>): (r: Option<nat>)
    ensures r.None? <==> forall i :: 0 <= i < |schemes| ==> schemes[i] !in keys
    ensures r.Some? ==> r.value < |schemes| && schemes[r.value] in keys
    ensures r.Some? ==> forall k :: 0 <= k < r.value ==> schemes[k] !in keys
  {
    if schemes == [] then None
    else if schemes[0] in keys then Some(0)
    else match FirstIn(schemes[1..], keys)
      case None => None
      case Some(i) => Some(i + 1)
  }

  /**
   * `schemes.findIndex(s => s in keys)`, the scan getClientFor runs once over
   * the cache and once over the Servient's supported schemes.
   */
  method FindIndex(schemes: seq<Scheme>, keys: set<Scheme>) returns (idx: int)
    ensures -1 <= idx < |schemes|
    ensures idx == -1 <==> forall i :: 0 <= i < |schemes| ==> schemes[i] !in keys
    ensures idx != -1 ==> schemes[idx] in keys && forall k :: 0 <= k < idx ==> schemes[k] !in keys
  {
    idx := 0;
    while idx < |schemes|
      invariant 0 <= idx <= |schemes|
      invariant forall k :: 0 <= k < idx ==> schemes[k] !in keys
    {
      if schemes[idx] in keys {
        return;
      }
      idx := idx + 1;
    }
    idx := -1;
  }

  /** The earliest index with a scheme in `keys` is what FirstIn names. */
  lemma FirstInAt(schemes: seq<Scheme>, keys: set<Scheme>, i: nat)
    requires i < |schemes| && schemes[i] in keys
    requires forall k :: 0 <= k < i ==> schemes[k] !in keys
    ensures FirstIn(schemes, keys) == Some(i)
  {
  }

  /**
   * getClientFor as a function of its links, the cache before the call and
   * the Servient.
   */
  function Resolve(links: seq<Link>, extractScheme: Href -> Scheme, cache: map<Scheme, Client>, srv: Servient): (res: Resolution)
    ensures res.result == Err(NoLinks) <==> links == []
    ensures res.result.Err? ==> res.cache == cache
    ensures !res.fetched ==> res.cache == cache
    ensures forall s :: s in cache ==> s in res.cache && res.cache[s] == cache[s]
    ensures res.result.Ok? ==>
      res.result.value.link in links &&
      extractScheme(res.result.value.link.href) in res.cache &&
      res.cache[extractScheme(res.result.value.link.href)] == res.result.value.client
    ensures res.cache.Keys <= cache.Keys + set l | l in links :: extractScheme(l.href)
  {
    if links == [] then Resolution(Err(NoLinks), cache, false)
    else
      var schemes := SchemesOf(links, extractScheme);
      match FirstIn(schemes, cache.Keys)
      case Some(i) =>
        Resolution(Ok(ClientAndLink(cache[schemes[i]], links[i])), cache, false)
      case None =>
        match FirstIn(schemes, srv.supported)
        case None => Resolution(Err(NoSuitableClient), cache, false)
        case Some(j) =>
          if schemes[j] in srv.instances then
            var client := srv.instances[schemes[j]];
            Resolution(Ok(ClientAndLink(client, links[j])), cache[schemes[j] := client], true)
          else
            Resolution(Err(NoSuitableClient), cache, true)
  }

  /**
   * Cache hit: when some link's scheme is cached, the earliest such link wins
   * with its cached client, the cache stays as it is, and the Servient plays no
   * part (any other Servient gives the same resolution).
   */
  lemma ResolveCacheHit(links: seq<Link>, extractScheme: Href -> Scheme, cache: map<Scheme, Client>, srv: Servient, other: Servient, i: nat)
    requires i < |links| && extractScheme(links[i].href) in cache
    requires forall k :: 0 <= k < i ==> extractScheme(links[k].href) !in cache
    ensures Resolve(links, extractScheme, cache, srv)
         == Resolution(Ok(ClientAndLink(cache[extractScheme(links[i].href)], links[i])), cache, false)
    ensures Resolve(links, extractScheme, cache, other) == Resolve(links, extractScheme, cache, srv)
  {
  }

  /** No link's scheme is cached. */
  ghost predicate NoneCached(links: seq<Link>, extractScheme: Href -> Scheme, cache: map<Scheme, Client>) {
    forall k :: 0 <= k < |links| ==> extractScheme(links[k].href) !in cache
  }

  /** Index `j` is the earliest link whose scheme the Servient supports. */
  ghost predicate FirstSupported(links: seq<Link>, extractScheme: Href -> Scheme, srv: Servient, j: nat) {
    j < |links| && extractScheme(links[j].href) in srv.supported &&
    forall k :: 0 <= k < j ==> extractScheme(links[k].href) !in srv.supported
  }

  /**
   * Provider fallback: on a full cache miss, the earliest supported link is
   * chosen with the client the Servient yields, and the cache gains exactly
   * that scheme, every earlier entry kept.
   */
  lemma ResolveFallback(links: seq<Link>, extractScheme: Href -> Scheme, cache: map<Scheme, Client>, srv: Servient, j: nat)
    requires NoneCached(links, extractScheme, cache)
    requires FirstSupported(links, extractScheme, srv, j)
    requires extractScheme(links[j].href) in srv.instances
    ensures var s := extractScheme(links[j].href);
      var res := Resolve(links, extractScheme, cache, srv);
      res.result == Ok(ClientAndLink(srv.instances[s], links[j])) &&
      res.cache == cache[s := srv.instances[s]] &&
      res.cache.Keys == cache.Keys + {s} && s !in cache &&
      res.fetched
  {
  }

  /** No supported scheme: a full cache miss with no scheme the Servient supports fails and changes nothing. */
  lemma ResolveUnsupported(links: seq<Link>, extractScheme: Href -> Scheme, cache: map<Scheme, Client>, srv: Servient)
    requires links != []
    requires NoneCached(links, extractScheme, cache)
    requires forall k :: 0 <= k < |links| ==> extractScheme(links[k].href) !in srv.supported
    ensures Resolve(links, extractScheme, cache, srv) == Resolution(Err(NoSuitableClient), cache, false)
  {
  }

  /** Supported but no client: the Servient is asked and yields nothing, so the call fails and changes nothing. */
  lemma ResolveNoInstance(links: seq<Link>, extractScheme: Href -> Scheme, cache: map<Scheme, Client>, srv: Servient, j: nat)
    requires NoneCached(links, extractScheme, cache)
    requires FirstSupported(links, extractScheme, srv, j)
    requires extractScheme(links[j].href) !in srv.instances
    ensures Resolve(links, extractScheme, cache, srv) == Resolution(Err(NoSuitableClient), cache, true)
  {
  }

  /**
   * Repeat call: resolving the same links again against the cache a successful
   * resolution left behind returns the same client and link from the cache,
   * without asking the Servient and without changing the cache.
   */
  lemma ResolveRepeat(links: seq<Link>, extractScheme: Href -> Scheme, cache: map<Scheme, Client>, srv: Servient)
    requires Resolve(links, extractScheme, cache, srv).result.Ok?
    ensures var first := Resolve(links, extractScheme, cache, srv);
      Resolve(links, extractScheme, first.cache, srv) == Resolution(first.result, first.cache, false)
  {
  }

  /**
   * The cache invariant: a scheme is cached only if the Servient supports it,
   * and it is cached with the client the Servient yields for it.
   */
  ghost predicate CacheConsistent(cache: map<Scheme, Client>, srv: Servient) {
    forall s :: s in cache ==> s in srv.supported && s in srv.instances && cache[s] == srv.instances[s]
  }

  /** Resolution keeps the cache invariant. */
  lemma ResolvePreservesConsistency(links: seq<Link>, extractScheme: Href -> Scheme, cache: map<Scheme, Client>, srv: Servient)
    requires CacheConsistent(cache, srv)
    ensures CacheConsistent(Resolve(links, extractScheme, cache, srv).cache, srv)
  {
  }
}
