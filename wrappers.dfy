/** Failure-carrying results shared by the solver interfaces and the coordinator. */
module Wrappers {

  /** `None` stands for a call that raised instead of returning. */
  datatype Option<+T> = None | Some(value: T)

  datatype Result<+R, +E> = Success(value: R) | Failure(error: E)
}
