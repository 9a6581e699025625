/**
 * The parsed Thing Description as the ProxyThing sees it: an ordered list of
 * interactions, each with its type, its name and its transport links, and the
 * lookup `findInteraction` over that list.
 */
module ThingDescriptions {
  import opened Results

  type Href = string

  datatype InteractionType = Property | Action | Event

  /** One transport-specific way to reach an interaction. */
  datatype Link = Link(href: Href, mediaType: string)

  datatype Interaction = Interaction(name: string, interactionType: InteractionType, links: seq<Link>)

  datatype ThingDescription = ThingDescription(name: string, interactions: seq<Interaction>)

  /** The test findInteraction applies to each catalog entry: type and name both agree. */
  predicate Matches(ia: Interaction, name: string, t: InteractionType) {
    ia.interactionType == t && ia.name == name
  }

  /** The entries of `ias` that match, in catalog order (the `filter` call of findInteraction). */
  function Filter(ias: seq<Interaction>, name: string, t: InteractionType): (r: seq<Interaction>)
    ensures forall x :: x in r <==> x in ias && Matches(x, name, t)
    ensures |r| == 0 <==> forall i :: 0 <= i < |ias| ==> !Matches(ias[i], name, t)
    ensures |r| <= |ias|
  {
    if ias == [] then []
    else if Matches(ias[0], name, t) then [ias[0]] + Filter(ias[1..], name, t)
    else Filter(ias[1..], name, t)
  }

  /**
   * findInteraction: the first entry of the catalog whose type and name both
   * match, or None. An entry with the right name but another type is no match.
   */
  function FindInteraction(td: ThingDescription, name: string, t: InteractionType): (r: Option<Interaction>)
    ensures r.None? <==> forall i :: 0 <= i < |td.interactions| ==> !Matches(td.interactions[i], name, t)
    ensures r.Some? ==> r.value in td.interactions && Matches(r.value, name, t)
  {
    var res := Filter(td.interactions, name, t);
    if |res| > 0 then Some(res[0]) else None
  }

  /** The first matching entry heads the filtered list. */
  lemma {:induction false} FilterHead(ias: seq<Interaction>, name: string, t: InteractionType, i: nat)
    requires i < |ias| && Matches(ias[i], name, t)
    requires forall k :: 0 <= k < i ==> !Matches(ias[k], name, t)
    ensures |Filter(ias, name, t)| > 0 && Filter(ias, name, t)[0] == ias[i]
  {
    if i > 0 {
      assert !Matches(ias[0], name, t);
      var rest := ias[1..];
      assert forall k :: 0 <= k < i - 1 ==> rest[k] == ias[k + 1];
      FilterHead(rest, name, t, i - 1);
    }
  }

  /** findInteraction returns the entry at the earliest matching index, in catalog order. */
  lemma FindInteractionFirst(td: ThingDescription, name: string, t: InteractionType, i: nat)
    requires i < |td.interactions| && Matches(td.interactions[i], name, t)
    requires forall k :: 0 <= k < i ==> !Matches(td.interactions[k], name, t)
    ensures FindInteraction(td, name, t) == Some(td.interactions[i])
  {
    FilterHead(td.interactions, name, t, i);
  }
}
