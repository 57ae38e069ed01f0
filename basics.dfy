/** Identifiers and the failure-carrying wrappers shared by every module. */
module Basics {

  /** Primary keys. Every table is append-only, so a row's key is its position. */
  type UserId = nat
  type SheetId = nat
  type TaskId = nat
  type SolutionId = nat
  type AnswerId = nat

  datatype Option<+T> = None | Some(value: T) {
    /** The value, or `default` when there is none (a field left out of a request). */
    function GetOr(default: T): T
    {
      match this
      case Some(v) => v
      case None => default
    }
  }

  datatype Result<+T, +E> = Ok(value: T) | Err(error: E)
}
