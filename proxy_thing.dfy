/**
 * ProxyThing, the consumed side of a Thing: it owns a lazily filled cache of
 * one protocol client per scheme and forwards property reads and writes and
 * action invocations to the client it resolves for the interaction's links.
 */
module ProxyThings {
  import opened Results
  import opened ThingDescriptions
  import opened ClientResolution

  /** An opaque application value (a TypeScript `any`). */
  datatype Value = Value(json: string)

  /** The three public operations, with the argument each carries. */
  datatype Operation = ReadOp | WriteOp(newValue: Value) | InvokeOp(parameter: Option<Value>)

  /**
   * The call forwarded to the chosen ProtocolClient. The operation's result
   * is that primitive's result, which lies outside the model.
   */
  datatype TransportCall =
    | ReadResource(client: Client, href: Href)
    | WriteResource(client: Client, href: Href, value: Value)
    | InvokeResource(client: Client, href: Href, parameter: Option<Value>)

  /** Why an operation rejects: the interaction is missing, or getClientFor threw. */
  datatype Failure = InteractionNotFound(name: string, thing: string) | ResolutionFailed(error: ResolveError)

  /** An operation's result, the cache afterwards, and whether the Servient was asked for a client. */
  datatype Outcome = Outcome(result: Result<TransportCall, Failure>, cache: map<Scheme, Client>, fetched: bool)

  /** The interaction type an operation looks up: properties for get and set, actions for invoke. */
  function Target(op: Operation): InteractionType {
    if op.InvokeOp? then Action else Property
  }

  /** The transport primitive matching an operation, aimed at `href`. */
  function Forward(op: Operation, client: Client, href: Href): (call: TransportCall)
    ensures call.client == client && call.href == href
    ensures call.ReadResource? <==> op.ReadOp?
    ensures call.WriteResource? <==> op.WriteOp?
    ensures call.WriteResource? ==> call.value == op.newValue
    ensures call.InvokeResource? ==> call.parameter == op.parameter
  {
    match op
    case ReadOp => ReadResource(client, href)
    case WriteOp(v) => WriteResource(client, href, v)
    case InvokeOp(p) => InvokeResource(client, href, p)
  }

  /**
   * getProperty, setProperty and invokeAction as one function of the
   * catalog, the Servient, the cache before the call, the name and the operation.
   */
  function Perform(td: ThingDescription, extractScheme: Href -> Scheme, srv: Servient,
                   cache: map<Scheme, Client>, name: string, op: Operation): (o: Outcome)
    ensures o.result.Err? ==> o.cache == cache
    ensures forall s :: s in cache ==> s in o.cache && o.cache[s] == cache[s]
    ensures o.result.Ok? ==> o.result.value == Forward(op, o.result.value.client, o.result.value.href)
  {
    match FindInteraction(td, name, Target(op))
    case None => Outcome(Err(InteractionNotFound(name, td.name)), cache, false)
    case Some(ia) =>
      var res := Resolve(ia.links, extractScheme, cache, srv);
      match res.result
      case Err(e) => Outcome(Err(ResolutionFailed(e)), res.cache, res.fetched)
      case Ok(cl) => Outcome(Ok(Forward(op, cl.client, cl.link.href)), res.cache, res.fetched)
  }

  /**
   * An unknown name, or a name whose entries all have another type, rejects
   * with InteractionNotFound before any client is resolved: the cache is
   * untouched and the Servient is not asked.
   */
  lemma PerformNotFound(td: ThingDescription, extractScheme: Href -> Scheme, srv: Servient,
                        cache: map<Scheme, Client>, name: string, op: Operation)
    requires forall i :: 0 <= i < |td.interactions| ==> !Matches(td.interactions[i], name, Target(op))
    ensures Perform(td, extractScheme, srv, cache, name, op) == Outcome(Err(InteractionNotFound(name, td.name)), cache, false)
  {
  }

  /**
   * Dispatch: with `i` the first catalog entry of the right type and name,
   * the operation is exactly resolution over that entry's links followed by
   * the matching primitive on the href of the link resolution chose.
   */
  lemma PerformDispatch(td: ThingDescription, extractScheme: Href -> Scheme, srv: Servient,
                        cache: map<Scheme, Client>, name: string, op: Operation, i: nat)
    requires i < |td.interactions| && Matches(td.interactions[i], name, Target(op))
    requires forall k :: 0 <= k < i ==> !Matches(td.interactions[k], name, Target(op))
    ensures var res := Resolve(td.interactions[i].links, extractScheme, cache, srv);
      var o := Perform(td, extractScheme, srv, cache, name, op);
      o.cache == res.cache && o.fetched == res.fetched &&
      (res.result.Err? ==> o.result == Err(ResolutionFailed(res.result.error))) &&
      (res.result.Ok? ==>
        res.result.value.link in td.interactions[i].links &&
        o.result == Ok(Forward(op, res.result.value.client, res.result.value.link.href)))
  {
    FindInteractionFirst(td, name, Target(op), i);
  }

  /**
   * Repeat call: once an operation has succeeded, the same operation on the
   * same name is served from the cache it left behind: the same transport
   * call, no further Servient lookup, no change to the cache.
   */
  lemma PerformRepeat(td: ThingDescription, extractScheme: Href -> Scheme, srv: Servient,
                      cache: map<Scheme, Client>, name: string, op: Operation)
    requires Perform(td, extractScheme, srv, cache, name, op).result.Ok?
    ensures var first := Perform(td, extractScheme, srv, cache, name, op);
      Perform(td, extractScheme, srv, first.cache, name, op) == Outcome(first.result, first.cache, false)
  {
    var ia := FindInteraction(td, name, Target(op)).value;
    ResolveRepeat(ia.links, extractScheme, cache, srv);
  }

  /**
   * Cache reuse across operations: once an operation on a name has succeeded,
   * any operation looking up the same interaction type and name (a set after a
   * get, a second set with another value) is served from the cache it left
   * behind: the same client and href, no Servient lookup, no change to the cache.
   */
  lemma PerformReuse(td: ThingDescription, extractScheme: Href -> Scheme, srv: Servient,
                     cache: map<Scheme, Client>, name: string, op1: Operation, op2: Operation)
    requires Target(op1) == Target(op2)
    requires Perform(td, extractScheme, srv, cache, name, op1).result.Ok?
    ensures var first := Perform(td, extractScheme, srv, cache, name, op1);
      var second := Perform(td, extractScheme, srv, first.cache, name, op2);
      second.cache == first.cache && !second.fetched &&
      second.result == Ok(Forward(op2, first.result.value.client, first.result.value.href))
  {
    var ia := FindInteraction(td, name, Target(op1)).value;
    ResolveRepeat(ia.links, extractScheme, cache, srv);
  }

  class ProxyThing {
    const name: string
    const td: ThingDescription
    const srv: Servient
    /** Helpers.extractScheme, which lies outside the model, as a given function. */
    const extractScheme: Href -> Scheme
    /** The lazy per-scheme client cache; it only ever grows. */
    var clients: map<Scheme, Client>
    /** How many times this thing has asked the Servient for a client instance. */
    ghost var fetches: nat

    ghost predicate Valid()
      reads this
    {
      name == td.name && CacheConsistent(clients, srv)
    }

    constructor (servient: Servient, td: ThingDescription, extractScheme: Href -> Scheme)
      ensures Valid()
      ensures this.srv == servient && this.td == td && this.name == td.name
      ensures this.extractScheme == extractScheme
      ensures clients == map[] && fetches == 0
    {
      this.srv := servient;
      this.name := td.name;
      this.td := td;
      this.extractScheme := extractScheme;
      clients := map[];
      fetches := 0;
    }

    /** The lazy singleton lookup: cache first, then the Servient, inserting what it yields. */
    method GetClientFor(links: seq<Link>) returns (r: Result<ClientAndLink, ResolveError>)
      requires Valid()
      modifies this`clients, this`fetches
      ensures Valid()
      ensures var res := Resolve(links, extractScheme, old(clients), srv);
        r == res.result && clients == res.cache &&
        fetches == old(fetches) + (if res.fetched then 1 else 0)
    {
      ResolvePreservesConsistency(links, extractScheme, clients, srv);
      if |links| == 0 {
        return Err(NoLinks);
      }
      var schemes := SchemesOf(links, extractScheme);
      var cacheIdx := FindIndex(schemes, clients.Keys);
      if cacheIdx != -1 {
        FirstInAt(schemes, clients.Keys, cacheIdx);
        r := Ok(ClientAndLink(clients[schemes[cacheIdx]], links[cacheIdx]));
      } else {
        var srvIdx := FindIndex(schemes, srv.supported);
        if srvIdx == -1 {
          return Err(NoSuitableClient);
        }
        FirstInAt(schemes, srv.supported, srvIdx);
        fetches := fetches + 1;
        if schemes[srvIdx] in srv.instances {
          var client := srv.instances[schemes[srvIdx]];
          clients := clients[schemes[srvIdx] := client];
          r := Ok(ClientAndLink(client, links[srvIdx]));
        } else {
          r := Err(NoSuitableClient);
        }
      }
    }

    /** getProperty: readResource on the chosen link of the named property. */
    method GetProperty(propertyName: string) returns (r: Result<TransportCall, Failure>)
      requires Valid()
      modifies this`clients, this`fetches
      ensures Valid()
      ensures var o := Perform(td, extractScheme, srv, old(clients), propertyName, ReadOp);
        r == o.result && clients == o.cache &&
        fetches == old(fetches) + (if o.fetched then 1 else 0)
    {
      var interaction := FindInteraction(td, propertyName, Property);
      if interaction.None? {
        return Err(InteractionNotFound(propertyName, name));
      }
      var resolved := GetClientFor(interaction.value.links);
      match resolved
      case Err(e) =>
        r := Err(ResolutionFailed(e));
      case Ok(ClientAndLink(client, link)) =>
        r := Ok(ReadResource(client, link.href));
    }

    /** setProperty: writeResource of `newValue` on the chosen link of the named property. */
    method SetProperty(propertyName: string, newValue: Value) returns (r: Result<TransportCall, Failure>)
      requires Valid()
      modifies this`clients, this`fetches
      ensures Valid()
      ensures var o := Perform(td, extractScheme, srv, old(clients), propertyName, WriteOp(newValue));
        r == o.result && clients == o.cache &&
        fetches == old(fetches) + (if o.fetched then 1 else 0)
    {
      var interaction := FindInteraction(td, propertyName, Property);
      if interaction.None? {
        return Err(InteractionNotFound(propertyName, name));
      }
      var resolved := GetClientFor(interaction.value.links);
      match resolved
      case Err(e) =>
        r := Err(ResolutionFailed(e));
      case Ok(ClientAndLink(client, link)) =>
        r := Ok(WriteResource(client, link.href, newValue));
    }

    /** invokeAction: invokeResource with the optional parameter on the chosen link of the named action. */
    method InvokeAction(actionName: string, parameter: Option<Value>) returns (r: Result<TransportCall, Failure>)
      requires Valid()
      modifies this`clients, this`fetches
      ensures Valid()
      ensures var o := Perform(td, extractScheme, srv, old(clients), actionName, InvokeOp(parameter));
        r == o.result && clients == o.cache &&
        fetches == old(fetches) + (if o.fetched then 1 else 0)
    {
      var interaction := FindInteraction(td, actionName, Action);
      if interaction.None? {
        return Err(InteractionNotFound(actionName, name));
      }
      var resolved := GetClientFor(interaction.value.links);
      match resolved
      case Err(e) =>
        r := Err(ResolutionFailed(e));
      case Ok(ClientAndLink(client, link)) =>
        r := Ok(InvokeResource(client, link.href, parameter));
    }
  }
}
