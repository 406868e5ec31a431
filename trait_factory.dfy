/**
 * The trait factory for the two structured traits: given a trait id and a
 * node payload it builds the typed trait, and every trait encodes back to a
 * node that the factory turns into an equal trait.
 */
module TraitFactory {
  import opened Wrappers
  import opened NodeValue
  import opened Shapes
  import HttpChecksum
  import Authorizers

  const HttpChecksumId: ShapeId := ShapeId("smithy.api", "httpChecksum")
  const AuthorizersId: ShapeId := ShapeId("aws.apigateway", "authorizers")

  datatype Trait =
    | HttpChecksumTrait(checksum: HttpChecksum.HttpChecksumTrait)
    | AuthorizersTrait(authorizers: Authorizers.AuthorizersTrait)

  /** The id under which a trait's factory is registered. */
  function TraitId(t: Trait): ShapeId {
    match t
    case HttpChecksumTrait(_) => HttpChecksumId
    case AuthorizersTrait(_) => AuthorizersId
  }

  /** The payload of a trait: an object whose member names are the trait's fixed members or its scheme names. */
  function ToNode(t: Trait): (r: Node)
    ensures r.ObjectNode?
    ensures t.HttpChecksumTrait? ==> Keys(r.members) == HttpChecksum.TraitKeys
    ensures t.AuthorizersTrait? ==> Keys(r.members) == Authorizers.SchemeNames(t.authorizers)
  {
    match t
    case HttpChecksumTrait(c) => HttpChecksum.ToNode(c)
    case AuthorizersTrait(a) => Authorizers.ToNode(a)
  }

  /**
   * `createTrait`: decodes the payload with the factory registered for the
   * trait id; no trait for an unknown id or a payload that does not decode.
   */
  function CreateTrait(traitId: ShapeId, node: Node): (r: Option<Trait>)
    ensures r.Some? ==> TraitId(r.value) == traitId
    ensures r.Some? && traitId == HttpChecksumId ==>
      r.value.HttpChecksumTrait? && HttpChecksum.FromNode(node) == Some(r.value.checksum)
    ensures r.Some? && traitId == AuthorizersId ==>
      r.value.AuthorizersTrait? && Authorizers.FromNode(node) == Some(r.value.authorizers)
    ensures traitId == HttpChecksumId ==> (r.Some? <==> HttpChecksum.FromNode(node).Some?)
    ensures traitId == AuthorizersId ==> (r.Some? <==> Authorizers.FromNode(node).Some?)
    ensures traitId !in {HttpChecksumId, AuthorizersId} ==> r.None?
  {
    if traitId == HttpChecksumId then
      match HttpChecksum.FromNode(node)
      case Some(c) => Some(HttpChecksumTrait(c))
      case None => None
    else if traitId == AuthorizersId then
      match Authorizers.FromNode(node)
      case Some(a) => Some(AuthorizersTrait(a))
      case None => None
    else None
  }

  /** Creating a trait from its own id and encoding gives an equal trait. */
  lemma CreateFromOwnNode(t: Trait)
    ensures CreateTrait(TraitId(t), ToNode(t)) == Some(t)
  {
    match t
    case HttpChecksumTrait(c) => HttpChecksum.TraitRoundTrip(c);
    case AuthorizersTrait(a) => Authorizers.TraitRoundTrip(a);
  }

  /** The request/response property node built in the checksum trait test. */
  function ChecksumPropertyNode(): Node {
    ObjectNode([
      ("location", HttpChecksum.LocationToNode(HttpChecksum.Header)),
      ("prefix", StringNode("x-checksum-")),
      ("algorithms", FromStrings(["crc32", "crc32c"]))])
  }

  /** The checksum trait payload built in the checksum trait test. */
  function ChecksumNode(): Node {
    ObjectNode([("request", ChecksumPropertyNode()), ("response", ChecksumPropertyNode())])
  }

  /**
   * Loading the test payload under `smithy.api#httpChecksum` gives a checksum
   * trait whose request and response carry location header, prefix
   * "x-checksum-" and the algorithms in input order; each property and the
   * whole trait encode back to the nodes they came from.
   */
  lemma LoadsChecksumTrait()
    ensures CreateTrait(HttpChecksumId, ChecksumNode()).Some?
    ensures CreateTrait(HttpChecksumId, ChecksumNode()).value.HttpChecksumTrait?
    ensures
      var c := CreateTrait(HttpChecksumId, ChecksumNode()).value.checksum;
      && c.request == HttpChecksum.HttpChecksumProperties(HttpChecksum.Header, "x-checksum-", ["crc32", "crc32c"])
      && c.response == HttpChecksum.HttpChecksumProperties(HttpChecksum.Header, "x-checksum-", ["crc32", "crc32c"])
      && HttpChecksum.PropertiesToNode(c.request) == ChecksumPropertyNode()
      && HttpChecksum.PropertiesToNode(c.response) == ChecksumPropertyNode()
      && HttpChecksum.ToNode(c) == ChecksumNode()
      && HttpChecksum.Build(HttpChecksum.ToBuilder(c)) == c
  {
  }

  /** The authorizer node built in the authorizers trait test. */
  function SigV4AuthorizerNode(): Node {
    ObjectNode([
      ("clientType", StringNode("awsSigV4")),
      ("type", StringNode("request")),
      ("uri", StringNode("arn:foo:baz")),
      ("credentials", StringNode("arn:foo:bar")),
      ("identitySource", StringNode("mapping.expression")),
      ("identityValidationExpression", StringNode("[A-Z]+")),
      ("resultTtlInSeconds", NumberNode(100))])
  }

  /** The authorizers trait payload built in the authorizers trait test. */
  function AuthorizersNode(): Node {
    ObjectNode([("aws.v4", SigV4AuthorizerNode())])
  }

  /**
   * The test payload decodes under `aws.apigateway#authorizers` to an
   * authorizers trait mapping "aws.v4" to the authorizer with the seven
   * given fields, and creating a trait from that trait's encoding gives it back.
   */
  lemma RegistersAuthorizersTrait()
    ensures CreateTrait(AuthorizersId, AuthorizersNode()).Some?
    ensures
      var t := CreateTrait(AuthorizersId, AuthorizersNode()).value;
      && t.AuthorizersTrait?
      && t.authorizers.authorizers == [("aws.v4", Authorizers.AuthorizerDefinition(
           "awsSigV4", "request", "arn:foo:baz", "arn:foo:bar",
           "mapping.expression", "[A-Z]+", 100))]
      && CreateTrait(AuthorizersId, ToNode(t)) == Some(t)
  {
  }
}
