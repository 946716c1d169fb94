/** Small shared vocabulary: the unsigned 32-bit integers of the host code and
    the two failure-compatible wrappers the model uses for optional values and
    for the host's panicking paths. */
module Types {

  /** Rust's `u32`. */
  type u32 = x: nat | x < 0x1_0000_0000

  const U32_MODULUS: nat := 0x1_0000_0000

  /** `x` truncated to 32 bits, i.e. what a release build keeps after an
      overflowing `u32` operation. */
  function Wrap32(x: nat): (r: u32)
    ensures x < U32_MODULUS ==> r == x
    ensures (r - x) % U32_MODULUS == 0
  {
    x % U32_MODULUS
  }

  lemma WrapAdd(x: nat, y: nat)
    ensures Wrap32(Wrap32(x) + y) == Wrap32(x + y)
  {
  }

  datatype Option<+T> = None | Some(value: T)

  datatype Result<+T, +E> = Ok(value: T) | Err(error: E)
}
