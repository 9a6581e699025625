/** Concrete catalogs and Servients run through the model: the documented usage scenarios. */
module Scenarios {
  import opened Results
  import opened ThingDescriptions
  import opened ClientResolution
  import opened ProxyThings

  /** A device with property `temperature` over HTTP then CoAP, and action `reboot` with no links. */
  function Device(): ThingDescription {
    ThingDescription("dev", [
      Interaction("temperature", Property, [Link("http://dev/temp", "application/json"), Link("coap://dev/temp", "application/json")]),
      Interaction("reboot", Action, [])
    ])
  }

  /**
   * Only CoAP is supported: the first read asks the Servient for the CoAP client,
   * caches it and reads the CoAP href.
   */
  lemma ReadFallsBackToSupportedScheme(extractScheme: Href -> Scheme, coap: Client)
    requires extractScheme("http://dev/temp") == "http" && extractScheme("coap://dev/temp") == "coap"
    ensures Perform(Device(), extractScheme, Servient({"coap"}, map["coap" := coap]), map[], "temperature", ReadOp)
         == Outcome(Ok(ReadResource(coap, "coap://dev/temp")), map["coap" := coap], true)
  {
  }

  /** Neither scheme is supported: the read rejects with NoSuitableClient and caches nothing. */
  lemma ReadWithoutSupportedScheme(extractScheme: Href -> Scheme, srv: Servient)
    requires extractScheme("http://dev/temp") !in srv.supported && extractScheme("coap://dev/temp") !in srv.supported
    ensures Perform(Device(), extractScheme, srv, map[], "temperature", ReadOp)
         == Outcome(Err(ResolutionFailed(NoSuitableClient)), map[], false)
  {
  }

  /** Invoking an action that has no links rejects with NoLinks. */
  lemma InvokeWithoutLinks(extractScheme: Href -> Scheme, srv: Servient, cache: map<Scheme, Client>, parameter: Option<Value>)
    ensures Perform(Device(), extractScheme, srv, cache, "reboot", InvokeOp(parameter))
         == Outcome(Err(ResolutionFailed(NoLinks)), cache, false)
  {
  }

  /** Two writes to the same property ask the Servient for a client only once. */
  method WriteTwice(extractScheme: Href -> Scheme, coap: Client, v1: Value, v2: Value)
    returns (first: Result<TransportCall, Failure>, second: Result<TransportCall, Failure>, ghost lookups: nat)
    requires extractScheme("http://dev/temp") == "http" && extractScheme("coap://dev/temp") == "coap"
    ensures first == Ok(WriteResource(coap, "coap://dev/temp", v1))
    ensures second == Ok(WriteResource(coap, "coap://dev/temp", v2))
    ensures lookups == 1
  {
    var srv := Servient({"coap"}, map["coap" := coap]);
    var thing := new ProxyThing(srv, Device(), extractScheme);
    first := thing.SetProperty("temperature", v1);
    assert first == Ok(WriteResource(coap, "coap://dev/temp", v1));
    assert thing.fetches == 1;
    second := thing.SetProperty("temperature", v2);
    assert second == Ok(WriteResource(coap, "coap://dev/temp", v2));
    lookups := thing.fetches;
  }
}
