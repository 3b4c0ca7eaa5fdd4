/** Bytes, and the Python exceptions that the modelled code can raise, as values. */
module Prelude {

  type byte = x: int | 0 <= x < 256
  type Bytes = seq<byte>

  datatype Option<+T> = None | Some(value: T)

  /** The exception classes that some `except` clause of the code distinguishes. */
  datatype PyError =
    | ValueError
    | KeyError
    | TypeError
    | AttributeError
    | OSError
    | VerificationError
    | PromotionError
    | QuarantineError
    | SourceError
    | PolicyError
    | OtherError

  datatype Result<+T> = Ok(value: T) | Raised(error: PyError) {
    predicate IsFailure() { Raised? }

    function PropagateFailure<U>(): Result<U>
      requires Raised?
    {
      Raised(error)
    }

    function Extract(): T
      requires Ok?
    {
      value
    }
  }
}
