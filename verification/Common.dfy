/** Types shared by every module of the model: byte strings, options and results. */
module Common {
  newtype byte = x: int | 0 <= x < 256

  type Bytes = seq<byte>

  function Zeros(n: nat): (r: Bytes)
    ensures |r| == n
  {
    seq(n, i => 0)
  }

  /** Go's `[32]byte` and `[64]byte`. */
  type Bytes32 = b: Bytes | |b| == 32 witness Zeros(32)
  type Bytes64 = b: Bytes | |b| == 64 witness Zeros(64)

  datatype Option<+T> = None | Some(value: T)

  /** The outcome of an operation that Go reports as a value or an error. */
  datatype Result<+T, +E> = Ok(value: T) | Err(error: E)

  /** Sizes of Go's fixed-width unsigned integers. */
  const TWO_32: nat := 0x1_0000_0000
  const TWO_64: nat := 0x1_0000_0000_0000_0000

  /** `++` on a uint32. */
  function Inc32(n: nat): (r: nat)
  {
    (n + 1) % TWO_32
  }

  /** `++` on a uint64. */
  function Inc64(n: nat): (r: nat)
  {
    (n + 1) % TWO_64
  }
}
