/** Stock types of the other modules. */
module Wrappers {
  datatype Option<+T> = None | Some(value: T)

  /** An exception in flight: derived from `std::exception`, or of any other type. */
  datatype Exn = Std(code: int) | Foreign(code: int)
}
