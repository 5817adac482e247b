/** The type registry's entries. The registry interns exactly one entry per
    distinct type and the compiler compares `Type*` by address; an entry here
    carries the registry's unique id, so `==` on entries is that identity test. */
module Types {
  datatype Kind = Void | Scalar | Array | Struct | Slice | ErrorSentinel

  datatype Type = Type(id: nat, kind: Kind, name: string)
  {
    predicate IsVoid() { kind == Void }

    /** Array, struct and slice types always live in addressable storage. */
    predicate IsAggregate() { kind == Array || kind == Struct || kind == Slice }
  }

  /** The entry `Type::Get("error-type")` returns: the placeholder given to a
      declaration whose type cannot be determined. */
  const ErrorType: Type := Type(0, ErrorSentinel, "error-type")
}
