/** Shared vocabulary of the model: bytes, Go's `error` values, optional values
    and the untyped `interface{}` values used as custom-metric keys and values. */
module Common {

  /** A Go `byte`. */
  newtype byte = x: int | 0 <= x < 0x100

  /** A Go `rune` (an `int32`). */
  newtype int32 = x: int | -0x8000_0000 <= x < 0x8000_0000

  datatype Option<+T> = None | Some(value: T)

  /** The error values that matter to the model; a nil `error` is `None`. */
  datatype Error =
    | EOF              // io.EOF: the request body is exhausted
    | ErrShortWrite    // io.ErrShortWrite
    | ErrBodyClosed    // a read on a request body that was closed
    | ErrConnection    // the client connection stopped accepting bytes

  /** An `interface{}` value as stored in the custom-metric store. */
  datatype Dynamic = IntValue(i: int) | StringValue(s: string)

  function Min(a: int, b: int): int
  {
    if a < b then a else b
  }

  function Max(a: int, b: int): int
  {
    if a < b then b else a
  }
}
