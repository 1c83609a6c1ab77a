/** The result types shared by all models. */
module Wrappers {
  datatype Option<+T> = None | Some(value: T)

  // A Python call either returns a value or raises.
  datatype Result<+T> = Ok(value: T) | Raised(reason: string)
}
