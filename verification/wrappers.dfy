/**
 * Java's nullable references. The three members below are what Dafny's `:-`
 * operator asks of a type, so the payload reader can stop at its first
 * missing field without spelling out each `match`.
 */
module Wrappers {

  /** `None` stands for a Java `null`, `Some(v)` for a present reference. */
  datatype Option<+T> = None | Some(value: T) {

    /** A `null` ends a `:-` chain. */
    predicate IsFailure() {
      None?
    }

    /** The `null` handed on by a chain that stopped. */
    function PropagateFailure<U>(): Option<U>
      requires None?
    {
      None
    }

    /** The reference a chain carries on with. */
    function Extract(): T
      requires Some?
    {
      value
    }
  }
}
