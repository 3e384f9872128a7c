/** Fixed-width values and failure-carrying wrappers shared by the model of the
    Ethereum backend server. */
module Common {

  /** One octet. */
  type byte = x: int | 0 <= x < 0x100

  /** Go's `uint64`. */
  type uint64 = x: int | 0 <= x < 0x1_0000_0000_0000_0000

  /** `n` zero octets. */
  function Zeros(n: nat): (r: seq<byte>)
    ensures |r| == n
    ensures forall i :: 0 <= i < n ==> r[i] == 0
  {
    seq(n, _ => 0)
  }

  /** A 32-byte hash (`common.Hash`, the wire type `H256`). */
  type Hash = s: seq<byte> | |s| == 32 witness Zeros(32)

  /** A 20-byte account address (`common.Address`, the wire type `H160`). */
  type Address = s: seq<byte> | |s| == 20 witness Zeros(20)

  /** A 256-byte logs bloom filter (`types.Bloom`, the wire type `H2048`). */
  type Bloom = s: seq<byte> | |s| == 256 witness Zeros(256)

  /** An 8-byte block nonce (`types.BlockNonce`). */
  type Nonce = s: seq<byte> | |s| == 8 witness Zeros(8)

  /** A Go pointer or slice that may be nil. */
  datatype Option<+T> = None | Some(value: T)

  /** A value, or the error a Go function returns beside a nil value. */
  datatype Result<+T, +E> = Success(value: T) | Failure(error: E)
}
