/**
 * The untyped node value tree that carries trait payloads: objects with
 * named members (insertion order kept), strings, numbers and arrays.
 */
module NodeValue {
  import opened Wrappers

  datatype Node =
    | ObjectNode(members: seq<(string, Node)>)
    | StringNode(str: string)
    | NumberNode(num: int)
    | ArrayNode(elements: seq<Node>)

  /** The member names of an object's member list, in order. */
  function Keys(members: seq<(string, Node)>): (r: seq<string>)
    ensures |r| == |members|
    ensures forall i :: 0 <= i < |members| ==> r[i] == members[i].0
  {
    seq(|members|, i requires 0 <= i < |members| => members[i].0)
  }

  /** The value of the first member named `key`, if any. */
  function GetMember(members: seq<(string, Node)>, key: string): (r: Option<Node>)
  {
    if members == [] then None
    else if members[0].0 == key then Some(members[0].1)
    else GetMember(members[1..], key)
  }

  /** A member is found by name when no earlier member has that name. */
  lemma {:induction false} GetMemberAt(members: seq<(string, Node)>, i: nat)
    requires i < |members|
    requires forall j :: 0 <= j < i ==> members[j].0 != members[i].0
    ensures GetMember(members, members[i].0) == Some(members[i].1)
  {
    if i > 0 {
      GetMemberAt(members[1..], i - 1);
    }
  }

  /** `Node.fromStrings`: an array node of string nodes. */
  function FromStrings(xs: seq<string>): (r: Node)
    ensures r.ArrayNode? && |r.elements| == |xs|
    ensures forall i :: 0 <= i < |xs| ==> r.elements[i] == StringNode(xs[i])
  {
    ArrayNode(seq(|xs|, i requires 0 <= i < |xs| => StringNode(xs[i])))
  }

  /** Reads an array node of string nodes back into its strings, in order. */
  function ExpectStrings(elements: seq<Node>): (r: Option<seq<string>>)
    ensures r.Some? <==> forall i :: 0 <= i < |elements| ==> elements[i].StringNode?
    ensures r.Some? ==> |r.value| == |elements|
    ensures r.Some? ==> forall i :: 0 <= i < |elements| ==> elements[i] == StringNode(r.value[i])
  {
    if elements == [] then Some([])
    else if !elements[0].StringNode? then None
    else match ExpectStrings(elements[1..])
      case None => None
      case Some(rest) => Some([elements[0].str] + rest)
  }

  lemma {:induction false} StringsRoundTrip(xs: seq<string>)
    ensures ExpectStrings(FromStrings(xs).elements) == Some(xs)
  {
    var e := FromStrings(xs).elements;
    var r := ExpectStrings(e);
    assert r.Some?;
    assert r.value == xs;
  }

  lemma {:induction false} StringsNodeRoundTrip(elements: seq<Node>, xs: seq<string>)
    requires ExpectStrings(elements) == Some(xs)
    ensures FromStrings(xs) == ArrayNode(elements)
  {
  }
}
