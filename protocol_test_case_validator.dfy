/**
 * The protocol test case validator: for every operation and structure shape
 * that carries the validator's test-case trait, each test case's params are
 * validated against the shape's input, output or error structure; when
 * there is no such structure, params given for a shape the validator
 * covers are an ERROR.
 */
module ProtocolTestCaseValidator {
  import opened Wrappers
  import opened NodeValue
  import opened Shapes
  import opened Decimal

  /** A protocol test case; only its params object matters to the validator. */
  datatype TestCase = TestCase(params: seq<(string, Node)>)

  datatype TimestampValidationStrategy = EpochSeconds

  /** The configuration of the node validation visitor built for one test case. */
  datatype NodeValidationVisitor = NodeValidationVisitor(
    value: seq<(string, Node)>,
    eventShapeId: ShapeId,
    startingContext: string,
    eventId: string,
    timestampValidationStrategy: TimestampValidationStrategy,
    allowBoxedNull: bool)

  /** A concrete validator: the trait it checks, how it describes the structure, its name. */
  datatype Validator = Validator(traitId: ShapeId, descriptor: string, name: string)

  /**
   * What the validator relies on but does not define: the subclass's
   * structure lookup and test-case extraction, its coverage test, the node
   * validation visitor applied to a structure, and JSON printing.
   */
  datatype Hooks = Hooks(
    getStructure: Shape -> Option<Shape>,
    getTestCases: Node -> seq<TestCase>,
    isValidatedBy: Shape -> bool,
    accept: (NodeValidationVisitor, Shape) -> seq<ValidationEvent>,
    printJson: seq<(string, Node)> -> string)

  /** `isValidatedBy` unless a subclass overrides it: operations only. */
  function DefaultIsValidatedBy(shape: Shape): (r: bool)
    ensures r <==> shape.kind !in {Structure, Other}
  {
    shape.kind == Operation
  }

  /** The visitor's starting context for test case `position`: `<traitId>.<position>.params`. */
  function Context(v: Validator, position: nat): string {
    IdString(v.traitId) + "." + DecimalString(position) + ".params"
  }

  function CreateVisitor(v: Validator, value: seq<(string, Node)>, shape: Shape, position: nat): (r: NodeValidationVisitor)
    ensures r.value == value && r.eventShapeId == shape.id && r.eventId == v.name
    ensures r.startingContext == Context(v, position)
    ensures r.timestampValidationStrategy == EpochSeconds && r.allowBoxedNull
  {
    NodeValidationVisitor(value, shape.id, Context(v, position), v.name, EpochSeconds, true)
  }

  function MissingStructureMessage(v: Validator, json: string): string {
    "Protocol test " + v.descriptor + " parameters provided for operation with no "
      + v.descriptor + ": `" + json + "`"
  }

  /** The ERROR for params given where the shape has no structure. */
  function MissingStructureError(v: Validator, h: Hooks, shape: Shape, params: seq<(string, Node)>): (r: ValidationEvent)
    ensures r.severity == Error && r.eventId == v.name && r.shapeId == shape.id
    ensures var json := h.printJson(params);
      && |r.message| >= |json| + 2
      && r.message[|r.message| - |json| - 2..] == "`" + json + "`"
      && "Protocol test " + v.descriptor <= r.message
  {
    ValidationEvent(Error, v.name, shape.id, MissingStructureMessage(v, h.printJson(params)))
  }

  /** The events one iteration of the loop appends for test case `position`. */
  function CaseEvents(v: Validator, h: Hooks, shape: Shape, testCase: TestCase, position: nat): seq<ValidationEvent> {
    match h.getStructure(shape)
    case Some(struct) => h.accept(CreateVisitor(v, testCase.params, shape, position), struct)
    case None =>
      if |testCase.params| != 0 && h.isValidatedBy(shape)
      then [MissingStructureError(v, h, shape, testCase.params)]
      else []
  }

  /** The events after the first `n` test cases have been processed. */
  function OperationEvents(v: Validator, h: Hooks, shape: Shape, testCases: seq<TestCase>, n: nat): seq<ValidationEvent>
    requires n <= |testCases|
  {
    if n == 0 then []
    else OperationEvents(v, h, shape, testCases, n - 1) + CaseEvents(v, h, shape, testCases[n - 1], n - 1)
  }

  /** `validateOperation`: the events for the test cases of one trait-bearing shape. */
  method ValidateOperation(v: Validator, h: Hooks, shape: Shape, payload: Node) returns (events: seq<ValidationEvent>)
    ensures events == OperationEvents(v, h, shape, h.getTestCases(payload), |h.getTestCases(payload)|)
  {
    events := [];
    var testCases := h.getTestCases(payload);
    for i := 0 to |testCases|
      invariant events == OperationEvents(v, h, shape, testCases, i)
    {
      var testCase := testCases[i];
      var struct := h.getStructure(shape);
      if struct.Some? {
        var visitor := CreateVisitor(v, testCase.params, shape, i);
        events := events + h.accept(visitor, struct.value);
      } else if |testCase.params| != 0 && h.isValidatedBy(shape) {
        events := events + [MissingStructureError(v, h, shape, testCase.params)];
      }
    }
  }

  /** The shapes of one kind, in model order. */
  function ShapesOfKind(model: seq<Shape>, kind: ShapeKind): (r: seq<Shape>)
    ensures forall s :: s in r ==> s in model && s.kind == kind
    ensures forall s :: s in model && s.kind == kind ==> s in r
  {
    if model == [] then []
    else (if model[0].kind == kind then [model[0]] else []) + ShapesOfKind(model[1..], kind)
  }

  /** The events of one shape: those of its test cases if it carries the trait, none otherwise. */
  function ShapeEvents(v: Validator, h: Hooks, shape: Shape): seq<ValidationEvent> {
    if v.traitId in shape.traits then
      var testCases := h.getTestCases(shape.traits[v.traitId]);
      OperationEvents(v, h, shape, testCases, |testCases|)
    else []
  }

  /** The events of a list of shapes, concatenated in order. */
  function EventsOf(v: Validator, h: Hooks, shapes: seq<Shape>): seq<ValidationEvent> {
    if shapes == [] then [] else ShapeEvents(v, h, shapes[0]) + EventsOf(v, h, shapes[1..])
  }

  /** A list of shapes none of which carries the trait has no events. */
  lemma {:induction false} EventsOfWithoutTrait(v: Validator, h: Hooks, shapes: seq<Shape>)
    requires forall s :: s in shapes ==> v.traitId !in s.traits
    ensures EventsOf(v, h, shapes) == []
  {
    if shapes != [] {
      assert shapes[0] in shapes;
      EventsOfWithoutTrait(v, h, shapes[1..]);
    }
  }

  /**
   * `validate`: operations first, then structures; a model in which no
   * operation or structure carries the trait has no events.
   */
  function Validate(v: Validator, h: Hooks, model: seq<Shape>): (r: seq<ValidationEvent>)
    ensures (forall s :: s in model && s.kind != Other ==> v.traitId !in s.traits) ==> r == []
  {
    var operations := ShapesOfKind(model, Operation);
    var structures := ShapesOfKind(model, Structure);
    if forall s :: s in model && s.kind != Other ==> v.traitId !in s.traits then
      EventsOfWithoutTrait(v, h, operations);
      EventsOfWithoutTrait(v, h, structures);
      EventsOf(v, h, operations) + EventsOf(v, h, structures)
    else
      EventsOf(v, h, operations) + EventsOf(v, h, structures)
  }

  // ---------------------------------------------------------------------
  // Reference definitions

  /** The params of the test cases that have any, in test-case order. */
  function NonEmptyParams(testCases: seq<TestCase>): (r: seq<seq<(string, Node)>>)
    ensures |r| <= |testCases|
    ensures forall k :: 0 <= k < |r| ==> |r[k]| != 0
    ensures r == [] <==> forall i :: 0 <= i < |testCases| ==> |testCases[i].params| == 0
  {
    if testCases == [] then []
    else
      var head := if |testCases[0].params| != 0 then [testCases[0].params] else [];
      head + NonEmptyParams(testCases[1..])
  }

  /** One ERROR per non-empty params, in order, when the shape is covered; none otherwise. */
  function MissingStructureErrors(v: Validator, h: Hooks, shape: Shape, testCases: seq<TestCase>): seq<ValidationEvent> {
    if h.isValidatedBy(shape) then
      var ps := NonEmptyParams(testCases);
      seq(|ps|, k requires 0 <= k < |ps| => MissingStructureError(v, h, shape, ps[k]))
    else []
  }

  /** Concatenation of a list of event lists, front to back. */
  function Flatten(lists: seq<seq<ValidationEvent>>): seq<ValidationEvent> {
    if lists == [] then [] else lists[0] + Flatten(lists[1..])
  }

  /** What the visitors return for the first `n` test cases, one list per test case. */
  function VisitorResults(v: Validator, h: Hooks, shape: Shape, struct: Shape, testCases: seq<TestCase>, n: nat): seq<seq<ValidationEvent>>
    requires n <= |testCases|
  {
    seq(n, i requires 0 <= i < n => h.accept(CreateVisitor(v, testCases[i].params, shape, i), struct))
  }

  // ---------------------------------------------------------------------
  // Properties of validateOperation

  /** Processing more test cases only appends: earlier events are kept, in place. */
  lemma {:induction false} OperationEventsPrefix(v: Validator, h: Hooks, shape: Shape, testCases: seq<TestCase>, k: nat, n: nat)
    requires k <= n <= |testCases|
    ensures OperationEvents(v, h, shape, testCases, k) <= OperationEvents(v, h, shape, testCases, n)
  {
    if k < n {
      OperationEventsPrefix(v, h, shape, testCases, k, n - 1);
    }
  }

  lemma {:induction false} NonEmptyParamsAppend(testCases: seq<TestCase>, c: TestCase)
    ensures NonEmptyParams(testCases + [c])
      == NonEmptyParams(testCases) + (if |c.params| != 0 then [c.params] else [])
  {
    if testCases == [] {
      assert [] + [c] == [c];
    } else {
      assert (testCases + [c])[1..] == testCases[1..] + [c];
      NonEmptyParamsAppend(testCases[1..], c);
    }
  }

  lemma MissingStructureErrorsAppend(v: Validator, h: Hooks, shape: Shape, testCases: seq<TestCase>, c: TestCase, position: nat)
    requires h.getStructure(shape).None?
    ensures MissingStructureErrors(v, h, shape, testCases + [c])
      == MissingStructureErrors(v, h, shape, testCases) + CaseEvents(v, h, shape, c, position)
  {
    NonEmptyParamsAppend(testCases, c);
    if h.isValidatedBy(shape) {
      var ps := NonEmptyParams(testCases);
      var qs := NonEmptyParams(testCases + [c]);
      var before := MissingStructureErrors(v, h, shape, testCases);
      var after := MissingStructureErrors(v, h, shape, testCases + [c]);
      if |c.params| != 0 {
        assert qs == ps + [c.params];
        assert after == before + [MissingStructureError(v, h, shape, c.params)];
      } else {
        assert qs == ps;
      }
    }
  }

  /**
   * With no structure, the events are exactly one ERROR per test case with
   * non-empty params, in test-case order, if the shape is covered, and none
   * otherwise.
   */
  lemma {:induction false} NoStructureEvents(v: Validator, h: Hooks, shape: Shape, testCases: seq<TestCase>, n: nat)
    requires h.getStructure(shape).None?
    requires n <= |testCases|
    ensures OperationEvents(v, h, shape, testCases, n) == MissingStructureErrors(v, h, shape, testCases[..n])
  {
    if n > 0 {
      NoStructureEvents(v, h, shape, testCases, n - 1);
      assert testCases[..n] == testCases[..n - 1] + [testCases[n - 1]];
      MissingStructureErrorsAppend(v, h, shape, testCases[..n - 1], testCases[n - 1], n - 1);
    }
  }

  /**
   * With no structure, the number of events is the number of test cases
   * with non-empty params if the shape is covered and zero otherwise; each
   * is an ERROR with the validator's name on the shape, built from the
   * descriptor and that test case's printed params.
   */
  lemma NoStructureErrorCount(v: Validator, h: Hooks, shape: Shape, testCases: seq<TestCase>)
    requires h.getStructure(shape).None?
    ensures var events := OperationEvents(v, h, shape, testCases, |testCases|);
      && |events| == (if h.isValidatedBy(shape) then |NonEmptyParams(testCases)| else 0)
      && forall k :: 0 <= k < |events| ==>
           && events[k].severity == Error && events[k].eventId == v.name && events[k].shapeId == shape.id
           && events[k].message == MissingStructureMessage(v, h.printJson(NonEmptyParams(testCases)[k]))
  {
    NoStructureEvents(v, h, shape, testCases, |testCases|);
    assert testCases[..|testCases|] == testCases;
  }

  /** With no structure and no test case carrying params, nothing is emitted. */
  lemma EmptyParamsEmitNothing(v: Validator, h: Hooks, shape: Shape, testCases: seq<TestCase>)
    requires h.getStructure(shape).None?
    requires forall i :: 0 <= i < |testCases| ==> |testCases[i].params| == 0
    ensures OperationEvents(v, h, shape, testCases, |testCases|) == []
  {
    NoStructureEvents(v, h, shape, testCases, |testCases|);
    assert testCases[..|testCases|] == testCases;
  }

  /**
   * Under the default coverage, a structure shape without an associated
   * structure emits nothing, whatever its params.
   */
  lemma DefaultSkipsStructureShapes(v: Validator, h: Hooks, shape: Shape, testCases: seq<TestCase>)
    requires h.isValidatedBy(shape) == DefaultIsValidatedBy(shape)
    requires shape.kind == Structure
    requires h.getStructure(shape).None?
    ensures OperationEvents(v, h, shape, testCases, |testCases|) == []
  {
    NoStructureEvents(v, h, shape, testCases, |testCases|);
  }

  lemma {:induction false} FlattenAppend(lists: seq<seq<ValidationEvent>>, last: seq<ValidationEvent>)
    ensures Flatten(lists + [last]) == Flatten(lists) + last
  {
    if lists == [] {
      assert [] + [last] == [last];
    } else {
      assert (lists + [last])[1..] == lists[1..] + [last];
      FlattenAppend(lists[1..], last);
    }
  }

  /**
   * With a structure, the events are what the visitors return for test
   * cases 0, 1, ..., n-1, unchanged and concatenated in that order.
   */
  lemma {:induction false} StructureEvents(v: Validator, h: Hooks, shape: Shape, struct: Shape, testCases: seq<TestCase>, n: nat)
    requires h.getStructure(shape) == Some(struct)
    requires n <= |testCases|
    ensures OperationEvents(v, h, shape, testCases, n) == Flatten(VisitorResults(v, h, shape, struct, testCases, n))
  {
    if n > 0 {
      StructureEvents(v, h, shape, struct, testCases, n - 1);
      var prev := VisitorResults(v, h, shape, struct, testCases, n - 1);
      var last := h.accept(CreateVisitor(v, testCases[n - 1].params, shape, n - 1), struct);
      assert VisitorResults(v, h, shape, struct, testCases, n) == prev + [last];
      FlattenAppend(prev, last);
    }
  }

  /** Distinct test cases are validated under distinct contexts. */
  lemma ContextInjective(v: Validator, i: nat, j: nat)
    requires Context(v, i) == Context(v, j)
    ensures i == j
  {
    var head := IdString(v.traitId) + ".";
    var tail := ".params";
    var ci, cj := Context(v, i), Context(v, j);
    var di, dj := DecimalString(i), DecimalString(j);
    assert ci == head + di + tail;
    assert cj == head + dj + tail;
    assert |di| == |dj|;
    assert di == ci[|head|..|head| + |di|];
    assert dj == cj[|head|..|head| + |dj|];
    DecimalStringInjective(i, j);
  }

  // ---------------------------------------------------------------------
  // Properties of validate

  lemma {:induction false} ShapesOfKindAppend(a: seq<Shape>, b: seq<Shape>, kind: ShapeKind)
    ensures ShapesOfKind(a + b, kind) == ShapesOfKind(a, kind) + ShapesOfKind(b, kind)
  {
    if a == [] {
      assert [] + b == b;
    } else {
      assert (a + b)[1..] == a[1..] + b;
      ShapesOfKindAppend(a[1..], b, kind);
    }
  }

  lemma {:induction false} EventsOfAppend(v: Validator, h: Hooks, a: seq<Shape>, b: seq<Shape>)
    ensures EventsOf(v, h, a + b) == EventsOf(v, h, a) + EventsOf(v, h, b)
  {
    if a == [] {
      assert [] + b == b;
    } else {
      assert (a + b)[1..] == a[1..] + b;
      EventsOfAppend(v, h, a[1..], b);
    }
  }

  lemma UnrelatedSingletonSkipped(v: Validator, h: Hooks, s: Shape, kind: ShapeKind)
    requires s.kind == Other || v.traitId !in s.traits
    requires kind != Other
    ensures EventsOf(v, h, ShapesOfKind([s], kind)) == []
  {
  }

  lemma UnrelatedShapeSkipped(v: Validator, h: Hooks, a: seq<Shape>, s: Shape, b: seq<Shape>, kind: ShapeKind)
    requires s.kind == Other || v.traitId !in s.traits
    requires kind != Other
    ensures EventsOf(v, h, ShapesOfKind(a + [s] + b, kind)) == EventsOf(v, h, ShapesOfKind(a + b, kind))
  {
    var sa, ss, sb := ShapesOfKind(a, kind), ShapesOfKind([s], kind), ShapesOfKind(b, kind);
    UnrelatedSingletonSkipped(v, h, s, kind);
    ShapesOfKindAppend(a + [s], b, kind);
    ShapesOfKindAppend(a, [s], kind);
    ShapesOfKindAppend(a, b, kind);
    EventsOfAppend(v, h, sa + ss, sb);
    EventsOfAppend(v, h, sa, ss);
    EventsOfAppend(v, h, sa, sb);
    assert EventsOf(v, h, sa + ss) == EventsOf(v, h, sa);
  }

  /**
   * A shape with a fresh id that is neither an operation nor a structure,
   * or that does not carry the validator's trait, contributes no events
   * wherever it stands (the hooks being the same for both models).
   */
  lemma UnrelatedShapeContributesNothing(v: Validator, h: Hooks, a: seq<Shape>, s: Shape, b: seq<Shape>)
    requires s.kind == Other || v.traitId !in s.traits
    requires forall t :: t in a + b ==> t.id != s.id
    ensures Validate(v, h, a + [s] + b) == Validate(v, h, a + b)
  {
    UnrelatedShapeSkipped(v, h, a, s, b, Operation);
    UnrelatedShapeSkipped(v, h, a, s, b, Structure);
  }

  lemma {:induction false} ShapesOfKindFiltered(model: seq<Shape>, kind: ShapeKind, other: ShapeKind)
    ensures ShapesOfKind(ShapesOfKind(model, kind), other) == if kind == other then ShapesOfKind(model, kind) else []
  {
    if model != [] {
      var head := if model[0].kind == kind then [model[0]] else [];
      ShapesOfKindAppend(head, ShapesOfKind(model[1..], kind), other);
      ShapesOfKindFiltered(model[1..], kind, other);
      if model[0].kind == kind {
        assert ShapesOfKind(head, other) == (if kind == other then head else []) by {
          assert head[1..] == [];
        }
      }
    }
  }

  /**
   * The events of the whole model are those of its operations followed by
   * those of its structures.
   */
  lemma OperationsBeforeStructures(v: Validator, h: Hooks, model: seq<Shape>)
    ensures Validate(v, h, model)
      == Validate(v, h, ShapesOfKind(model, Operation)) + Validate(v, h, ShapesOfKind(model, Structure))
  {
    ShapesOfKindFiltered(model, Operation, Operation);
    ShapesOfKindFiltered(model, Operation, Structure);
    ShapesOfKindFiltered(model, Structure, Operation);
    ShapesOfKindFiltered(model, Structure, Structure);
  }

  /** A model with a single trait-bearing operation yields that operation's events. */
  lemma SingleOperation(v: Validator, h: Hooks, shape: Shape)
    requires shape.kind == Operation && v.traitId in shape.traits
    ensures var testCases := h.getTestCases(shape.traits[v.traitId]);
      Validate(v, h, [shape]) == OperationEvents(v, h, shape, testCases, |testCases|)
  {
    assert ShapesOfKind([shape], Operation) == [shape];
    assert ShapesOfKind([shape], Structure) == [];
  }
}
