/** Machine integer widths and the Option/Result shapes shared by the GUI and the client. */
module Prim {

  /** Rust `u8`. */
  newtype u8 = x: int | 0 <= x < 0x100

  /** Rust `u16`: ports; its upper bound is the 65535 of `MAX_PORT_NUMBER`. */
  newtype u16 = x: int | 0 <= x < 0x1_0000

  /** Rust `Option<T>`. */
  datatype Option<+T> = None | Some(value: T)

  /** Rust `Result<T, E>`. */
  datatype Result<+T, +E> = Ok(value: T) | Err(error: E)
}
