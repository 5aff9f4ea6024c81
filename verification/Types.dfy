/** Integer bounds, bytes, and the option, result and error types shared by every module. */
module Types {

  const TWO_32: int := 0x1_0000_0000
  const TWO_63: int := 0x8000_0000_0000_0000
  const TWO_64: int := 0x1_0000_0000_0000_0000

  type byte = x: int | 0 <= x < 256

  datatype Option<+T> = None | Some(value: T)

  /** The crate's single error type; message texts are dropped. */
  datatype Error =
    | Rpc
    | Simulation
    | TransactionFailed
    | Timeout
    | Signer
    | MissingReturnValue
    | Xdr
    | InvalidAddress

  /** `Result<T, SorobanUtilsError>`; failure-compatible, so `:-` plays the part of Rust's `?`. */
  datatype Result<+T> = Ok(value: T) | Err(error: Error) {
    predicate IsFailure() { Err? }

    function PropagateFailure<U>(): Result<U>
      requires Err?
    {
      Err(error)
    }

    function Extract(): T
      requires Ok?
    {
      value
    }
  }

  function Min(a: int, b: int): int { if a <= b then a else b }

  function Max(a: int, b: int): int { if a >= b then a else b }
}
