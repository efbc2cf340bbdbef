/** Result type used for the fallible operations of the header cipher. */
module Wrappers {

  /** Either a value or an error, as Rust's `Result<T, E>`. */
  datatype Result<T, E> = Ok(value: T) | Err(error: E)

  /** The error of an I/O collaborator (std::io::Error); its kind is opaque here. */
  datatype IoError = IoError(kind: nat)

  /** What a `read_exact` call on the reader collaborator answers: the requested bytes, or an error. */
  datatype ReadExact = Filled(bytes: seq<bv8>) | Failed(error: IoError)
}
