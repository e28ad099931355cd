/**
 * Machine integer types of the emulator and the two result shapes used
 * throughout the model.  Integers are unbounded in Dafny, so each Rust
 * width is a subset type of `int`; wrap-around is always written out.
 */
module Types {
  type u8 = x: int | 0 <= x < 0x100
  type u16 = x: int | 0 <= x < 0x1_0000
  type usize = x: int | 0 <= x < 0x1_0000_0000_0000_0000

  const U8_LIMIT: nat := 0x100
  const U16_LIMIT: nat := 0x1_0000
  const USIZE_LIMIT: nat := 0x1_0000_0000_0000_0000

  datatype Option<T> = None | Some(value: T)

  /** The outcome of code that may panic: `Fatal` stands for the panic. */
  datatype Result<T> = Ok(value: T) | Fatal

  /** `x as u8`: keep the low eight bits. */
  function Trunc8(x: int): (r: u8)
    ensures 0 <= x < U8_LIMIT ==> r == x
  {
    x % U8_LIMIT
  }

  /** `x.wrapping_add(y)` and `x.wrapping_sub(y)` on u16. */
  function WrappingAdd16(x: u16, y: int): (r: u16)
    ensures x + y < U16_LIMIT && 0 <= x + y ==> r == x + y
  {
    (x + y) % U16_LIMIT
  }

  /** `x.wrapping_sub(y)` on usize. */
  function WrappingSubUsize(x: usize, y: usize): (r: usize)
    ensures y <= x ==> r == x - y
    ensures x < y ==> r == USIZE_LIMIT + x - y
  {
    (x - y) % USIZE_LIMIT
  }
}
