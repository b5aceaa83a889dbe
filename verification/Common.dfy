/** Types shared by every component: bytes, machine integers and results. */
module Common {

  newtype byte = x: int | 0 <= x < 256
  type Bytes = seq<byte>

  const TWO32: int := 0x1_0000_0000
  const TWO64: int := 0x1_0000_0000_0000_0000

  type uint32 = x: int | 0 <= x < 0x1_0000_0000
  type uint64 = x: int | 0 <= x < 0x1_0000_0000_0000_0000

  /** Machine addition: what `a + b` computes on 32-bit unsigned integers. */
  function Add32(a: uint32, b: uint32): uint32 {
    (a + b) % TWO32
  }

  /** Machine addition on 64-bit unsigned integers. */
  function Add64(a: uint64, b: uint64): uint64 {
    (a + b) % TWO64
  }

  datatype Option<+T> = None | Some(value: T) {
    function GetOr(default: T): T {
      if Some? then value else default
    }
  }

  datatype Result<+T, +E> = Ok(value: T) | Err(error: E)
}
