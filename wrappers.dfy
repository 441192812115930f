/** Result and option wrappers shared by every module of the model.
    `Result` stands for a Python call that either returns a value or raises;
    `Outcome` for a call that returns nothing or raises. */
module Wrappers {

  datatype Option<+T> = None | Some(value: T)

  datatype Result<+T, +E> = Ok(value: T) | Err(error: E)

  datatype Outcome<+E> = Pass | Fail(error: E)
}
