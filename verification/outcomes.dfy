/**
  The failure-carrying datatypes of the directory layer. Every exception the
  PHP code throws (a `Horde_Kolab_Server_Exception`, whatever its message or
  code) becomes an `Err` carrying one of the `Error` cases below.
 */
module Outcomes {

  datatype Option<+T> = None | Some(value: T)

  /** The distinct failures the core raises. */
  datatype Error =
    /** A message passed through unchanged from the directory library. */
    | ServerError(message: string)
    /** A lookup of one entry returned no entries at all. */
    | EmptyResult
    /** A lookup returned entries, but none under the requested DN. */
    | NoResultFor(dn: string)
    /** An entry lacks an attribute the caller relies on. */
    | MissingAttribute(dn: string, attribute: string)
    /** No object type matches the object classes of an entry. */
    | UnknownType(uid: string)
    /** The filter library rejected a criteria node (code INVALID_QUERY). */
    | InvalidQuery(message: string)
    /** A negation node without an element to negate. */
    | MissingOperand

  datatype Result<+T> = Ok(value: T) | Err(error: Error) {

    predicate IsFailure() {
      Err?
    }

    function PropagateFailure<U>(): Result<U>
      requires Err?
    {
      Err(error)
    }

    function Extract(): T
      requires Ok?
    {
      value
    }
  }
}
