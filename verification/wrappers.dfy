/** Failure-carrying wrappers shared by every module of the model.
    `Option` stands for "a value, or the program panics / gives up";
    `Result` mirrors Rust's `Result<T, E>`. */
module Wrappers {

  datatype Option<+T> = None | Some(value: T)

  datatype Result<+T, +E> = Ok(value: T) | Err(error: E)
}
