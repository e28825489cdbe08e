/** Identifiers shared by every layer, and the optional value that stands in
    for Go's nil error. */
module System {

  /** A UUID. The model only compares identifiers for equality, so the 128 bits
      are kept as one natural number. */
  datatype UUID = UUID(value: nat)

  /** The reserved identifier that means "no identifier" (all bits zero). */
  const EmptyUUID: UUID := UUID(0)

  /** `None` plays the part of a nil Go `error`, `Some(e)` of a non-nil one. */
  datatype Option<+T> = None | Some(value: T)
}
