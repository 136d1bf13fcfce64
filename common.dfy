/** Shared value types: fixed-width unsigned integers, the outcome of a call
    that may panic, and the non-blocking result of the embedded serial traits. */
module Common {

  type u8 = x: int | 0 <= x < 0x100
  type u16 = x: int | 0 <= x < 0x1_0000
  type u32 = x: int | 0 <= x < 0x1_0000_0000

  const U16_MAX: int := 0xFFFF

  datatype Option<+T> = None | Some(value: T)

  /** A call either returns a value or aborts the program (a Rust `panic!`,
      `unimplemented!`, failed `assert!`, failed `expect`, or an arithmetic
      overflow or division by zero under checked arithmetic). */
  datatype Outcome<+T> = Returns(value: T) | Panics

  /** `nb::Result<T, ()>`: the value, or "try again later". */
  datatype NbResult<+T> = Ok(value: T) | WouldBlock
}
