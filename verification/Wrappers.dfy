/** The types shared by the modules of this project. */
module Wrappers {

  datatype Option<+T> = None | Some(value: T)

  datatype Result<+T, +E> = Success(value: T) | Failure(error: E)

  /** What a call to the database did, seen from both ends: applied and answered, applied with the
      answer lost, or not applied at all. */
  datatype Delivery = Acked | LostAfterApply | NotApplied

  function Power2(n: nat): nat {
    if n == 0 then 1 else 2 * Power2(n - 1)
  }
}
