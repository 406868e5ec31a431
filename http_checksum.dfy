/**
 * The `smithy.api#httpChecksum` trait: a `request` and a `response`
 * checksum property, each with a location, a header prefix and an ordered
 * list of algorithm names, and their encoding as node values.
 */
module HttpChecksum {
  import opened Wrappers
  import opened NodeValue

  /** Where the checksum is carried. */
  datatype Location = Header | Trailer

  datatype HttpChecksumProperties = HttpChecksumProperties(
    location: Location,
    prefix: string,
    algorithms: seq<string>)

  datatype HttpChecksumTrait = HttpChecksumTrait(
    request: HttpChecksumProperties,
    response: HttpChecksumProperties)

  /** The builder obtained from `toBuilder`. */
  datatype Builder = Builder(
    request: HttpChecksumProperties,
    response: HttpChecksumProperties)

  /** Member names of an encoded property, in the order the encoder writes them. */
  const PropertyKeys: seq<string> := ["location", "prefix", "algorithms"]

  /** Member names of an encoded trait, in the order the encoder writes them. */
  const TraitKeys: seq<string> := ["request", "response"]

  function LocationName(l: Location): string {
    match l
    case Header => "header"
    case Trailer => "trailer"
  }

  function LocationToNode(l: Location): (r: Node)
    ensures r.StringNode?
    ensures LocationFromNode(r) == Some(l)
  {
    StringNode(LocationName(l))
  }

  function LocationFromNode(n: Node): (r: Option<Location>)
    ensures r.Some? <==> n in {StringNode("header"), StringNode("trailer")}
    ensures r.Some? ==> n == StringNode(LocationName(r.value))
  {
    if n == StringNode("header") then Some(Header)
    else if n == StringNode("trailer") then Some(Trailer)
    else None
  }

  function PropertiesToNode(p: HttpChecksumProperties): (r: Node)
    ensures r.ObjectNode? && Keys(r.members) == PropertyKeys
    ensures GetMember(r.members, "location") == Some(LocationToNode(p.location))
    ensures GetMember(r.members, "prefix") == Some(StringNode(p.prefix))
    ensures GetMember(r.members, "algorithms") == Some(FromStrings(p.algorithms))
  {
    var members := [
      ("location", LocationToNode(p.location)),
      ("prefix", StringNode(p.prefix)),
      ("algorithms", FromStrings(p.algorithms))];
    PropertyMembersFound(members);
    ObjectNode(members)
  }

  /**
   * Decodes one checksum property: an object whose `location` is a known
   * location string, whose `prefix` is a string and whose `algorithms` is an
   * array of strings.
   */
  function PropertiesFromNode(n: Node): (r: Option<HttpChecksumProperties>)
    ensures r.Some? ==> n.ObjectNode?
    ensures r.Some? ==>
      && GetMember(n.members, "location") == Some(LocationToNode(r.value.location))
      && GetMember(n.members, "prefix") == Some(StringNode(r.value.prefix))
      && GetMember(n.members, "algorithms") == Some(FromStrings(r.value.algorithms))
  {
    if !n.ObjectNode? then None
    else
      var location := GetMember(n.members, "location");
      var prefix := GetMember(n.members, "prefix");
      var algorithms := GetMember(n.members, "algorithms");
      if location.None? || prefix.None? || algorithms.None? then None
      else if !prefix.value.StringNode? || !algorithms.value.ArrayNode? then None
      else match (LocationFromNode(location.value), ExpectStrings(algorithms.value.elements))
        case (Some(l), Some(names)) =>
          StringsNodeRoundTrip(algorithms.value.elements, names);
          Some(HttpChecksumProperties(l, prefix.value.str, names))
        case _ => None
  }

  function ToNode(t: HttpChecksumTrait): (r: Node)
    ensures r.ObjectNode? && Keys(r.members) == TraitKeys
    ensures GetMember(r.members, "request") == Some(PropertiesToNode(t.request))
    ensures GetMember(r.members, "response") == Some(PropertiesToNode(t.response))
  {
    var members := [
      ("request", PropertiesToNode(t.request)),
      ("response", PropertiesToNode(t.response))];
    TraitMembersFound(members);
    ObjectNode(members)
  }

  /** Decodes the trait: an object whose `request` and `response` members are properties. */
  function FromNode(n: Node): (r: Option<HttpChecksumTrait>)
    ensures r.Some? ==> n.ObjectNode?
    ensures r.Some? ==>
      && GetMember(n.members, "request").Some?
      && PropertiesFromNode(GetMember(n.members, "request").value) == Some(r.value.request)
      && GetMember(n.members, "response").Some?
      && PropertiesFromNode(GetMember(n.members, "response").value) == Some(r.value.response)
  {
    if !n.ObjectNode? then None
    else
      var request := GetMember(n.members, "request");
      var response := GetMember(n.members, "response");
      if request.None? || response.None? then None
      else match (PropertiesFromNode(request.value), PropertiesFromNode(response.value))
        case (Some(req), Some(resp)) => Some(HttpChecksumTrait(req, resp))
        case _ => None
  }

  function ToBuilder(t: HttpChecksumTrait): Builder {
    Builder(t.request, t.response)
  }

  function Build(b: Builder): HttpChecksumTrait {
    HttpChecksumTrait(b.request, b.response)
  }

  /** In a member list laid out as the encoder writes a property, each member is found at its position. */
  lemma PropertyMembersFound(m: seq<(string, Node)>)
    requires Keys(m) == PropertyKeys
    ensures GetMember(m, "location") == Some(m[0].1)
    ensures GetMember(m, "prefix") == Some(m[1].1)
    ensures GetMember(m, "algorithms") == Some(m[2].1)
  {
    var k := Keys(m);
    assert forall i, j :: 0 <= j < i < 3 ==> |k[j]| != |k[i]|;
    GetMemberAt(m, 0);
    GetMemberAt(m, 1);
    GetMemberAt(m, 2);
  }

  /** In a member list laid out as the encoder writes the trait, each member is found at its position. */
  lemma TraitMembersFound(m: seq<(string, Node)>)
    requires Keys(m) == TraitKeys
    ensures GetMember(m, "request") == Some(m[0].1)
    ensures GetMember(m, "response") == Some(m[1].1)
  {
  }

  /** Decoding the encoding of a property gives the property back. */
  lemma PropertiesRoundTrip(p: HttpChecksumProperties)
    ensures PropertiesFromNode(PropertiesToNode(p)) == Some(p)
  {
    var n := PropertiesToNode(p);
    PropertyMembersFound(n.members);
    StringsRoundTrip(p.algorithms);
  }

  /**
   * Re-encoding a decoded property gives back exactly the node it came from,
   * for a node written with the encoder's members in the encoder's order.
   */
  lemma PropertiesNodeRoundTrip(n: Node, p: HttpChecksumProperties)
    requires PropertiesFromNode(n) == Some(p)
    requires Keys(n.members) == PropertyKeys
    ensures PropertiesToNode(p) == n
  {
    var m := n.members;
    PropertyMembersFound(m);
    assert PropertiesToNode(p).members == m;
  }

  /** Decoding the encoding of the trait gives the trait back. */
  lemma TraitRoundTrip(t: HttpChecksumTrait)
    ensures FromNode(ToNode(t)) == Some(t)
  {
    var n := ToNode(t);
    TraitMembersFound(n.members);
    PropertiesRoundTrip(t.request);
    PropertiesRoundTrip(t.response);
  }

  /**
   * Re-encoding a decoded trait gives back exactly the input node, when the
   * input and both of its properties are written in the encoder's layout.
   */
  lemma TraitNodeRoundTrip(n: Node, t: HttpChecksumTrait)
    requires FromNode(n) == Some(t)
    requires Keys(n.members) == TraitKeys
    requires n.members[0].1.ObjectNode? && Keys(n.members[0].1.members) == PropertyKeys
    requires n.members[1].1.ObjectNode? && Keys(n.members[1].1.members) == PropertyKeys
    ensures ToNode(t) == n
  {
    var m := n.members;
    TraitMembersFound(m);
    PropertiesNodeRoundTrip(m[0].1, t.request);
    PropertiesNodeRoundTrip(m[1].1, t.response);
    assert ToNode(t).members == m;
  }

  /** Rebuilding a trait from its builder gives an equal trait. */
  lemma BuilderRoundTrip(t: HttpChecksumTrait)
    ensures Build(ToBuilder(t)) == t
  {
  }
}
