# Smithy protocol-test validation and structured trait payloads, in Dafny

This project models two pieces of the Smithy interface-definition toolchain.

1. **The protocol test case validator.** A validator is bound to one
   test-case trait (for example the HTTP request tests trait). It walks every
   operation shape and then every structure shape that carries that trait.
   For each test case of the trait, in index order:
   - if the shape has an associated input, output or error structure, the
     test case's params are validated against it by a node validation
     visitor started at the context `<traitId>.<index>.params`, with the
     validator's name as event id and the trait-bearing shape as event shape;
     all of the visitor's events are appended unchanged;
   - otherwise, when the params are non-empty and the shape is one the
     validator covers (operations, unless a subclass says otherwise), one
     ERROR is appended whose message is built from the validator's
     descriptor and the printed params;
   - otherwise nothing is appended.

   `ValidateOperation` is the loop, written imperatively and proved equal to
   the specification function `OperationEvents` (the events after the first
   `n` test cases). `Validate` is the pure pipeline over the whole model.
   The structure lookup, the extraction of test cases from a trait, the
   coverage test, the visitor and JSON printing are parameters (`Hooks`).

2. **Trait payload encoding.** A node value tree (objects with ordered named
   members, strings, integers, arrays) and two structured traits with total
   encoders and partial decoders: `smithy.api#httpChecksum` (request and
   response properties with a location, a prefix and ordered algorithm names)
   and `aws.apigateway#authorizers` (scheme name to authorizer definition).
   The trait factory picks the decoder by trait id. Decoding an encoding gives
   the value back, and re-encoding a decoded node gives the node back when
   it is written the way the encoder writes it.

Files: `wrappers.dfy` (Option), `node_value.dfy`, `shapes.dfy` (shape
ids, shapes, validation events), `decimal.dfy` (printing an index in
decimal, and reading it back), `protocol_test_case_validator.dfy`,
`http_checksum.dfy`, `authorizers.dfy`, `trait_factory.dfy`.

An ERROR for params without a structure is emitted only for shapes the
validator covers (ProtocolTestCaseValidator.java:81), so by default a
structure shape with params and no structure emits nothing.

## Model

| member | source | states |
|---|---|---|
| ProtocolTestCaseValidator.ValidateOperation | smithy-protocol-test-traits/src/main/java/software/amazon/smithy/protocoltests/traits/ProtocolTestCaseValidator.java:66-89 | the loop over test cases returns exactly the events of all test cases in index order, as `OperationEvents` defines them case by case |
| ProtocolTestCaseValidator.CreateVisitor | smithy-protocol-test-traits/src/main/java/software/amazon/smithy/protocoltests/traits/ProtocolTestCaseValidator.java:91-101 | the visitor validates the test case's params, reports on the trait-bearing shape under the validator's name, starts at context `<traitId>.<position>.params`, uses epoch-seconds timestamps and allows boxed nulls |
| ProtocolTestCaseValidator.OperationEventsPrefix | smithy-protocol-test-traits/src/main/java/software/amazon/smithy/protocoltests/traits/ProtocolTestCaseValidator.java:72-88 | processing more test cases only appends: the events of the first k test cases are a prefix of those of the first n, for k <= n |
| ProtocolTestCaseValidator.NoStructureEvents | smithy-protocol-test-traits/src/main/java/software/amazon/smithy/protocoltests/traits/ProtocolTestCaseValidator.java:81-85 | with no structure, the events are one ERROR per test case with non-empty params, in test-case order, if the shape is covered, and none otherwise |
| ProtocolTestCaseValidator.NoStructureErrorCount | smithy-protocol-test-traits/src/main/java/software/amazon/smithy/protocoltests/traits/ProtocolTestCaseValidator.java:81-85 | with no structure, the number of events equals the number of test cases with non-empty params if the shape is covered and zero otherwise; each event is an ERROR with the validator's name, the shape's id and the message built from the descriptor and that test case's printed params |
| ProtocolTestCaseValidator.EmptyParamsEmitNothing | smithy-protocol-test-traits/src/main/java/software/amazon/smithy/protocoltests/traits/ProtocolTestCaseValidator.java:81 | with no structure, test cases whose params are all empty emit no event |
| ProtocolTestCaseValidator.DefaultSkipsStructureShapes | smithy-protocol-test-traits/src/main/java/software/amazon/smithy/protocoltests/traits/ProtocolTestCaseValidator.java:62-64 | under the default coverage (operations only), a structure shape with no associated structure emits nothing whatever its params |
| ProtocolTestCaseValidator.StructureEvents | smithy-protocol-test-traits/src/main/java/software/amazon/smithy/protocoltests/traits/ProtocolTestCaseValidator.java:77-80 | with a structure, the events are the visitor results for test cases 0..n-1, each unchanged, concatenated in index order |
| ProtocolTestCaseValidator.ContextInjective | smithy-protocol-test-traits/src/main/java/software/amazon/smithy/protocoltests/traits/ProtocolTestCaseValidator.java:96 | two test cases of the same validator get the same starting context only if they have the same index |
| ProtocolTestCaseValidator.ShapesOfKind | smithy-protocol-test-traits/src/main/java/software/amazon/smithy/protocoltests/traits/ProtocolTestCaseValidator.java:52 | selecting shapes of a kind keeps exactly the model's shapes of that kind |
| ProtocolTestCaseValidator.UnrelatedShapeContributesNothing | smithy-protocol-test-traits/src/main/java/software/amazon/smithy/protocoltests/traits/ProtocolTestCaseValidator.java:52-54 | for the same hooks, inserting a shape with a fresh id that is not an operation or structure, or that lacks the trait, anywhere in the model leaves the validator's events unchanged |
| ProtocolTestCaseValidator.OperationsBeforeStructures | smithy-protocol-test-traits/src/main/java/software/amazon/smithy/protocoltests/traits/ProtocolTestCaseValidator.java:52-55 | the model's events are the events of its operations followed by the events of its structures |
| ProtocolTestCaseValidator.SingleOperation | smithy-protocol-test-traits/src/main/java/software/amazon/smithy/protocoltests/traits/ProtocolTestCaseValidator.java:52-55 | a model holding one trait-bearing operation yields exactly the events of that operation's test cases |
| Decimal.DecimalString | smithy-protocol-test-traits/src/main/java/software/amazon/smithy/protocoltests/traits/ProtocolTestCaseValidator.java:96 | the position is printed as one or more decimal digits with no leading zero, a single digit exactly below ten |
| Decimal.DecimalRoundTrip | smithy-protocol-test-traits/src/main/java/software/amazon/smithy/protocoltests/traits/ProtocolTestCaseValidator.java:96 | reading the printed position back as a decimal number gives the position |
| NodeValue.ExpectStrings | smithy-model/src/test/java/software/amazon/smithy/model/traits/HttpChecksumTraitTest.java:58-60 | an array of strings decodes to its strings in the same order, and decoding fails exactly when an element is not a string |
| HttpChecksum.LocationFromNode | smithy-model/src/test/java/software/amazon/smithy/model/traits/HttpChecksumTraitTest.java:56-57 | exactly the location strings decode, and a decoded location encodes back to the same node |
| HttpChecksum.PropertiesFromNode | smithy-model/src/test/java/software/amazon/smithy/model/traits/HttpChecksumTraitTest.java:56-65 | a decoded property takes its location, prefix and algorithms (in order) from the members of those names in the node |
| HttpChecksum.FromNode | smithy-model/src/test/java/software/amazon/smithy/model/traits/HttpChecksumTraitTest.java:50-53 | a decoded trait takes its request and response properties from the decoded members of those names |
| HttpChecksum.PropertiesRoundTrip | smithy-model/src/test/java/software/amazon/smithy/model/traits/HttpChecksumTraitTest.java:67-68 | decoding the encoding of any checksum property gives the property back |
| HttpChecksum.PropertiesNodeRoundTrip | smithy-model/src/test/java/software/amazon/smithy/model/traits/HttpChecksumTraitTest.java:67-68 | re-encoding a decoded property gives back exactly the node it came from, for a node with the encoder's members in the encoder's order |
| HttpChecksum.TraitRoundTrip | smithy-model/src/test/java/software/amazon/smithy/model/traits/HttpChecksumTraitTest.java:69 | decoding the encoding of any checksum trait gives the trait back |
| HttpChecksum.TraitNodeRoundTrip | smithy-model/src/test/java/software/amazon/smithy/model/traits/HttpChecksumTraitTest.java:69 | re-encoding a decoded trait gives back exactly the input node, when the trait node and both property nodes are in the encoder's layout |
| HttpChecksum.BuilderRoundTrip | smithy-model/src/test/java/software/amazon/smithy/model/traits/HttpChecksumTraitTest.java:70 | converting a trait to a builder and building gives an equal trait |
| Authorizers.DefinitionFromNode | aws/smithy-aws-traits/src/test/java/software/amazon/smithy/aws/traits/apigateway/AuthorizersTraitTest.java:19-25 | a decoded authorizer takes each of its six string fields and its integer TTL from the member of the same name |
| Authorizers.FromNode | aws/smithy-aws-traits/src/test/java/software/amazon/smithy/aws/traits/apigateway/AuthorizersTraitTest.java:17-18 | a decoded authorizers trait has exactly the node's member names, in order, as scheme names, each paired with the decoding of that member's value; decoding fails exactly when the node is not an object or some member is not an authorizer |
| Authorizers.DefinitionsFromMembers | aws/smithy-aws-traits/src/test/java/software/amazon/smithy/aws/traits/apigateway/AuthorizersTraitTest.java:17-18 | every member decodes to the authorizer under the same scheme name at the same position, and decoding fails exactly when some member is not an authorizer |
| Authorizers.DefinitionRoundTrip | aws/smithy-aws-traits/src/test/java/software/amazon/smithy/aws/traits/apigateway/AuthorizersTraitTest.java:19-25 | decoding the encoding of any authorizer preserves all seven fields |
| Authorizers.DefinitionNodeRoundTrip | aws/smithy-aws-traits/src/test/java/software/amazon/smithy/aws/traits/apigateway/AuthorizersTraitTest.java:19-25 | re-encoding a decoded authorizer gives back the node it came from, for a node in the encoder's member order |
| Authorizers.TraitRoundTrip | aws/smithy-aws-traits/src/test/java/software/amazon/smithy/aws/traits/apigateway/AuthorizersTraitTest.java:31 | decoding the encoding of any authorizers trait gives an equal trait: same scheme names, same order, same authorizers |
| Authorizers.TraitNodeRoundTrip | aws/smithy-aws-traits/src/test/java/software/amazon/smithy/aws/traits/apigateway/AuthorizersTraitTest.java:17-27 | re-encoding a decoded authorizers trait gives back the input node when every authorizer in it is in the encoder's layout |
| TraitFactory.CreateTrait | aws/smithy-aws-traits/src/test/java/software/amazon/smithy/aws/traits/apigateway/AuthorizersTraitTest.java:28-30 | for a registered id a trait is created exactly when the payload decodes, and it has that id, the kind registered for it and the decoded value; an unknown id gives no trait |
| TraitFactory.CreateFromOwnNode | aws/smithy-aws-traits/src/test/java/software/amazon/smithy/aws/traits/apigateway/AuthorizersTraitTest.java:31 | creating a trait from its own id and encoding gives an equal trait, for both trait kinds |
| ProtocolTestCaseValidator.Validate | smithy-protocol-test-traits/src/main/java/software/amazon/smithy/protocoltests/traits/ProtocolTestCaseValidator.java:49-56 | the events of the whole model (operations' then structures'); a model in which no operation or structure carries the trait has no events |
| ProtocolTestCaseValidator.DefaultIsValidatedBy | smithy-protocol-test-traits/src/main/java/software/amazon/smithy/protocoltests/traits/ProtocolTestCaseValidator.java:62-64 | by default exactly operation shapes are covered: structures and other shapes are not |
| ProtocolTestCaseValidator.MissingStructureError | smithy-protocol-test-traits/src/main/java/software/amazon/smithy/protocoltests/traits/ProtocolTestCaseValidator.java:82-84 | the event is an ERROR with the validator's name on the trait-bearing shape; its message starts with "Protocol test " and the descriptor and ends with the printed params in backticks |
| HttpChecksum.LocationToNode | smithy-model/src/test/java/software/amazon/smithy/model/traits/HttpChecksumTraitTest.java:37 | a location encodes to a string node that decodes back to the same location |
| HttpChecksum.PropertiesToNode | smithy-model/src/test/java/software/amazon/smithy/model/traits/HttpChecksumTraitTest.java:36-39 | a property encodes to an object with members location, prefix, algorithms in that order, each carrying the property's field of that name, algorithms in order |
| HttpChecksum.ToNode | smithy-model/src/test/java/software/amazon/smithy/model/traits/HttpChecksumTraitTest.java:46-48 | a trait encodes to an object with members request then response, each carrying the encoding of that property |
| NodeValue.FromStrings | smithy-model/src/test/java/software/amazon/smithy/model/traits/HttpChecksumTraitTest.java:39 | the strings become an array of string nodes of the same length, in the same order |
| Authorizers.DefinitionToNode | aws/smithy-aws-traits/src/test/java/software/amazon/smithy/aws/traits/apigateway/AuthorizersTraitTest.java:18-26 | an authorizer encodes to an object with the seven members in the test's order, each carrying the field of that name |
| Authorizers.ToNode | aws/smithy-aws-traits/src/test/java/software/amazon/smithy/aws/traits/apigateway/AuthorizersTraitTest.java:17-27 | the trait encodes to an object whose member names are the scheme names in order, each carrying the encoding of its authorizer |
| TraitFactory.ToNode | aws/smithy-aws-traits/src/test/java/software/amazon/smithy/aws/traits/apigateway/AuthorizersTraitTest.java:31 | a trait's payload is an object whose member names are request and response for a checksum trait and the scheme names for an authorizers trait |
| TraitFactory.LoadsChecksumTrait | smithy-model/src/test/java/software/amazon/smithy/model/traits/HttpChecksumTraitTest.java:34-71 | the test payload loads as a checksum trait with location header, prefix "x-checksum-" and algorithms "crc32" then "crc32c" on both sides; each property and the trait re-encode to their input nodes; the builder round trip holds |
| TraitFactory.RegistersAuthorizersTrait | aws/smithy-aws-traits/src/test/java/software/amazon/smithy/aws/traits/apigateway/AuthorizersTraitTest.java:14-31 | the test payload loads as an authorizers trait mapping "aws.v4" to the given seven fields, and creating a trait from its encoding gives it back |

## Left out

- The build command, the API Gateway default-config settings hook, and the topic-label and XML-attribute annotation traits are not part of this model; they are I/O and plumbing around code not shown.
- The node validation visitor's structural checks, the operation index lookup, `Trait.flatMapStream`, the subclasses' `getStructure` and `getTestCases`, and `Node.printJson` are parameters of the model (`Hooks`); a subclass's override of `isValidatedBy` is the `isValidatedBy` hook, and `DefaultIsValidatedBy` is the default.
- The source locations of events and traits, the target shape id passed to `createTrait`, and trait-factory service discovery are not modelled; they are provenance and plugin loading.
- ProtocolTestCaseValidator.UnrelatedShapeContributesNothing: the hooks are taken as independent of the model. In the source the structure lookup and the visitor read the model, so adding a shape that some operation references as its input, output or error changes the events; the lemma does not cover that case. The model is also a sequence that could repeat a shape id, which a real model cannot; the lemma asks only that the inserted shape's id be fresh.
- The order in which the model yields its shapes is the order of the `model` sequence; the source takes whatever order its shape store produces.
- Shape kinds other than operation and structure are one kind, `Other`; member shape ids are not modelled.
- HttpChecksumProperties.java, HttpChecksumTrait.java and AuthorizersTrait.java are not part of this model. The wire strings "header" and "trailer" for the checksum location are an assumption. Every member the tests set is required; a missing or wrongly typed member makes decoding fail, and members of other names are ignored. No property is claimed about those cases.
- Node values have no boolean or null kind, and numbers are unbounded integers; the 32-bit width of `resultTtlInSeconds` is not modelled.
- HttpChecksum.PropertiesNodeRoundTrip: states encode(decode(n)) == n only for nodes whose members are exactly the encoder's, in the encoder's order, which is how the tests build them; node equality here is order-sensitive.
- HttpChecksum.TraitNodeRoundTrip: the same restriction, for the trait node and both property nodes.
- Authorizers.DefinitionNodeRoundTrip: the same restriction, for one authorizer node.
- Authorizers.TraitNodeRoundTrip: the same restriction, for every authorizer node in the trait.
