/**
 * Shape identifiers, the shapes the protocol-test validator walks, and the
 * validation events it emits.
 */
module Shapes {
  import opened NodeValue

  /** `namespace#Name`. */
  datatype ShapeId = ShapeId(namespace: string, name: string)

  /** The printed form of a shape id, as used in string concatenation. */
  function IdString(id: ShapeId): string {
    id.namespace + "#" + id.name
  }

  /** The shape kinds the validator distinguishes; every other kind is `Other`. */
  datatype ShapeKind = Operation | Structure | Other

  /**
   * A shape: its id, its kind and the payloads of the traits applied to it,
   * keyed by trait id.
   */
  datatype Shape = Shape(id: ShapeId, kind: ShapeKind, traits: map<ShapeId, Node>)

  datatype Severity = Note | Warning | Danger | Error

  datatype ValidationEvent = ValidationEvent(
    severity: Severity,
    eventId: string,
    shapeId: ShapeId,
    message: string)
}
