/** Shared vocabulary of the SQL front-end model: bytes, optional values and
    the three ways a step can end. */
module Base {

  /** One byte of the request buffer. */
  type Byte = b: int | 0 <= b < 256

  datatype Option<+T> = None | Some(value: T)

  /** A Rust panic: the source either reaches a `todo!()` or indexes past the
      end of its buffer. Neither is a recoverable error; the model reports it
      instead of pretending the call returned. */
  datatype Halt =
    | Unimplemented(routine: string)
    | IndexOutOfBounds(index: nat)

  /** The result of a step that may succeed, fail with an error value of
      type `E`, or halt. */
  datatype Outcome<+T, +E> =
    | Done(value: T)
    | Failed(error: E)
    | Halted(halt: Halt)

  /** The bytes of an ASCII string literal, used to write request buffers. */
  function Ascii(s: string): (r: seq<Byte>)
    ensures |r| == |s|
  {
    seq(|s|, i requires 0 <= i < |s| => (s[i] as int) % 256)
  }
}
