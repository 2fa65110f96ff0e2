/** Shared wrappers, machine-integer ranges and byte-level types. */
module Base {

  datatype Option<+T> = None | Some(value: T)

  datatype Result<+T, +E> = Ok(value: T) | Err(error: E)

  /** A failed query to the node. */
  datatype ProviderError = ProviderError

  const U32_LIMIT: nat := 0x1_0000_0000
  const U64_LIMIT: nat := 0x1_0000_0000_0000_0000
  const U128_LIMIT: nat := 0x1_0000_0000_0000_0000_0000_0000_0000_0000
  const U192_LIMIT: nat := 0x1_0000_0000_0000_0000_0000_0000_0000_0000_0000_0000_0000_0000
  const U256_LIMIT: nat :=
    0x1_0000_0000_0000_0000_0000_0000_0000_0000_0000_0000_0000_0000_0000_0000_0000_0000

  const U64_MAX: nat := U64_LIMIT - 1

  newtype byte = x: int | 0 <= x < 256

  type uint32 = n: nat | n < U32_LIMIT
  type uint64 = n: nat | n < U64_LIMIT
  type uint128 = n: nat | n < U128_LIMIT
  type uint256 = n: nat | n < U256_LIMIT

  /** A 256-bit digest. Its derived ordering is the numeric one. */
  type B256 = uint256

  type Bytes = seq<byte>
  type Bytes32 = b: seq<byte> | |b| == 32 witness seq(32, _ => 0 as byte)
  type Address = b: seq<byte> | |b| == 20 witness seq(20, _ => 0 as byte)

  function Min(a: nat, b: nat): nat {
    if a <= b then a else b
  }

  function Max(a: nat, b: nat): nat {
    if a >= b then a else b
  }

  /** `u64::saturating_sub`. */
  function SaturatingSub(a: nat, b: nat): nat {
    if a >= b then a - b else 0
  }
}
