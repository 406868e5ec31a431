/**
 * The API Gateway `aws.apigateway#authorizers` trait: a map, in insertion
 * order, from an authorization scheme name to an authorizer definition, and
 * its encoding as a node value.
 */
module Authorizers {
  import opened Wrappers
  import opened NodeValue

  datatype AuthorizerDefinition = AuthorizerDefinition(
    clientType: string,
    authorizerType: string,
    uri: string,
    credentials: string,
    identitySource: string,
    identityValidationExpression: string,
    resultTtlInSeconds: int)

  /** Scheme name to authorizer, in the order the entries were added. */
  datatype AuthorizersTrait = AuthorizersTrait(authorizers: seq<(string, AuthorizerDefinition)>)

  /** Member names of an encoded authorizer, in the order the encoder writes them. */
  const DefinitionKeys: seq<string> := [
    "clientType", "type", "uri", "credentials",
    "identitySource", "identityValidationExpression", "resultTtlInSeconds"]

  function DefinitionToNode(d: AuthorizerDefinition): (r: Node)
    ensures r.ObjectNode? && Keys(r.members) == DefinitionKeys
    ensures GetMember(r.members, "clientType") == Some(StringNode(d.clientType))
    ensures GetMember(r.members, "type") == Some(StringNode(d.authorizerType))
    ensures GetMember(r.members, "uri") == Some(StringNode(d.uri))
    ensures GetMember(r.members, "credentials") == Some(StringNode(d.credentials))
    ensures GetMember(r.members, "identitySource") == Some(StringNode(d.identitySource))
    ensures GetMember(r.members, "identityValidationExpression")
      == Some(StringNode(d.identityValidationExpression))
    ensures GetMember(r.members, "resultTtlInSeconds") == Some(NumberNode(d.resultTtlInSeconds))
  {
    var members := [
      ("clientType", StringNode(d.clientType)),
      ("type", StringNode(d.authorizerType)),
      ("uri", StringNode(d.uri)),
      ("credentials", StringNode(d.credentials)),
      ("identitySource", StringNode(d.identitySource)),
      ("identityValidationExpression", StringNode(d.identityValidationExpression)),
      ("resultTtlInSeconds", NumberNode(d.resultTtlInSeconds))];
    DefinitionMembersFound(members);
    ObjectNode(members)
  }

  /** The string value of member `key`, if present and a string. */
  function StringMember(members: seq<(string, Node)>, key: string): (r: Option<string>)
    ensures r.Some? <==> GetMember(members, key).Some? && GetMember(members, key).value.StringNode?
    ensures r.Some? ==> GetMember(members, key) == Some(StringNode(r.value))
  {
    match GetMember(members, key)
    case Some(StringNode(s)) => Some(s)
    case _ => None
  }

  /**
   * Decodes one authorizer: an object with the six string members and the
   * integer `resultTtlInSeconds`.
   */
  function DefinitionFromNode(n: Node): (r: Option<AuthorizerDefinition>)
    ensures r.Some? ==> n.ObjectNode?
    ensures r.Some? ==>
      && GetMember(n.members, "clientType") == Some(StringNode(r.value.clientType))
      && GetMember(n.members, "type") == Some(StringNode(r.value.authorizerType))
      && GetMember(n.members, "uri") == Some(StringNode(r.value.uri))
      && GetMember(n.members, "credentials") == Some(StringNode(r.value.credentials))
      && GetMember(n.members, "identitySource") == Some(StringNode(r.value.identitySource))
      && GetMember(n.members, "identityValidationExpression")
           == Some(StringNode(r.value.identityValidationExpression))
      && GetMember(n.members, "resultTtlInSeconds") == Some(NumberNode(r.value.resultTtlInSeconds))
  {
    if !n.ObjectNode? then None
    else
      var m := n.members;
      var clientType := StringMember(m, "clientType");
      var authorizerType := StringMember(m, "type");
      var uri := StringMember(m, "uri");
      var credentials := StringMember(m, "credentials");
      var identitySource := StringMember(m, "identitySource");
      var expression := StringMember(m, "identityValidationExpression");
      var ttl := GetMember(m, "resultTtlInSeconds");
      if clientType.None? || authorizerType.None? || uri.None? || credentials.None?
        || identitySource.None? || expression.None? || ttl.None? || !ttl.value.NumberNode?
      then None
      else Some(AuthorizerDefinition(
        clientType.value, authorizerType.value, uri.value, credentials.value,
        identitySource.value, expression.value, ttl.value.num))
  }

  function ToNode(t: AuthorizersTrait): (r: Node)
    ensures r.ObjectNode? && Keys(r.members) == SchemeNames(t)
    ensures forall i :: 0 <= i < |t.authorizers| ==>
      r.members[i] == (t.authorizers[i].0, DefinitionToNode(t.authorizers[i].1))
  {
    ObjectNode(seq(|t.authorizers|, i requires 0 <= i < |t.authorizers| =>
      (t.authorizers[i].0, DefinitionToNode(t.authorizers[i].1))))
  }

  /** Decodes every member of the object, keeping member names and order. */
  function DefinitionsFromMembers(members: seq<(string, Node)>): (r: Option<seq<(string, AuthorizerDefinition)>>)
    ensures r.Some? ==> |r.value| == |members|
    ensures r.Some? ==> forall i :: 0 <= i < |members| ==>
      r.value[i].0 == members[i].0 && DefinitionFromNode(members[i].1) == Some(r.value[i].1)
    ensures r.None? ==> exists i :: 0 <= i < |members| && DefinitionFromNode(members[i].1).None?
  {
    if members == [] then Some([])
    else match (DefinitionFromNode(members[0].1), DefinitionsFromMembers(members[1..]))
      case (Some(d), Some(rest)) => Some([(members[0].0, d)] + rest)
      case (None, _) => None
      case (_, None) => None
  }

  /** Decodes the trait: an object mapping each scheme name to an authorizer. */
  function FromNode(n: Node): (r: Option<AuthorizersTrait>)
    ensures r.Some? ==> n.ObjectNode? && Keys(n.members) == SchemeNames(r.value)
    ensures r.Some? ==> forall i :: 0 <= i < |n.members| ==>
      DefinitionFromNode(n.members[i].1) == Some(r.value.authorizers[i].1)
    ensures r.None? <==>
      !n.ObjectNode? || exists i :: 0 <= i < |n.members| && DefinitionFromNode(n.members[i].1).None?
  {
    if !n.ObjectNode? then None
    else match DefinitionsFromMembers(n.members)
      case Some(entries) => Some(AuthorizersTrait(entries))
      case None => None
  }

  /** The scheme names of the trait, in order. */
  function SchemeNames(t: AuthorizersTrait): (r: seq<string>)
    ensures |r| == |t.authorizers|
  {
    seq(|t.authorizers|, i requires 0 <= i < |t.authorizers| => t.authorizers[i].0)
  }

  /** In a member list laid out as the encoder writes it, each member is found at its position. */
  lemma DefinitionMembersFound(m: seq<(string, Node)>)
    requires Keys(m) == DefinitionKeys
    ensures GetMember(m, "clientType") == Some(m[0].1)
    ensures GetMember(m, "type") == Some(m[1].1)
    ensures GetMember(m, "uri") == Some(m[2].1)
    ensures GetMember(m, "credentials") == Some(m[3].1)
    ensures GetMember(m, "identitySource") == Some(m[4].1)
    ensures GetMember(m, "identityValidationExpression") == Some(m[5].1)
    ensures GetMember(m, "resultTtlInSeconds") == Some(m[6].1)
  {
    var k := Keys(m);
    assert forall i, j :: 0 <= j < i < 7 ==> |k[j]| != |k[i]|;
    GetMemberAt(m, 0);
    GetMemberAt(m, 1);
    GetMemberAt(m, 2);
    GetMemberAt(m, 3);
    GetMemberAt(m, 4);
    GetMemberAt(m, 5);
    GetMemberAt(m, 6);
  }

  lemma DefinitionRoundTrip(d: AuthorizerDefinition)
    ensures DefinitionFromNode(DefinitionToNode(d)) == Some(d)
  {
  }

  lemma DefinitionNodeRoundTrip(n: Node, d: AuthorizerDefinition)
    requires DefinitionFromNode(n) == Some(d)
    requires Keys(n.members) == DefinitionKeys
    ensures DefinitionToNode(d) == n
  {
    var m := n.members;
    DefinitionMembersFound(m);
    assert DefinitionToNode(d).members == m;
  }

  /** Decoding the encoding of the trait gives an equal trait. */
  lemma TraitRoundTrip(t: AuthorizersTrait)
    ensures FromNode(ToNode(t)) == Some(t)
  {
    var m := ToNode(t).members;
    forall i | 0 <= i < |m|
      ensures DefinitionFromNode(m[i].1) == Some(t.authorizers[i].1)
    {
      DefinitionRoundTrip(t.authorizers[i].1);
    }
    var r := DefinitionsFromMembers(m);
    assert r.Some?;
    assert r.value == t.authorizers;
  }

  /**
   * Re-encoding a decoded trait gives back the input node when every
   * authorizer in it is written in the encoder's layout.
   */
  lemma TraitNodeRoundTrip(n: Node, t: AuthorizersTrait)
    requires FromNode(n) == Some(t)
    requires forall i :: 0 <= i < |n.members| ==>
      n.members[i].1.ObjectNode? && Keys(n.members[i].1.members) == DefinitionKeys
    ensures ToNode(t) == n
  {
    var m := n.members;
    var r := DefinitionsFromMembers(m);
    forall i | 0 <= i < |m|
      ensures ToNode(t).members[i] == m[i]
    {
      DefinitionNodeRoundTrip(m[i].1, t.authorizers[i].1);
    }
    assert ToNode(t).members == m;
  }
}
