/** The bridge's constants (config/types.go:10-17), in base units of 10^-18 where the source writes decimals. */
module Config {
  const MIN_FEE: nat := 10
  const DUST: nat := 100_000_000_000_000
  const TX_TIMEOUT: nat := 300
  const MIN_CHECK_BLOCK_GAP: nat := 6
  const REQ_CACHE_SIZE: nat := 512
  const TWO_64: nat := 0x1_0000_0000_0000_0000
  const MAX_INT64: int := 0x7FFF_FFFF_FFFF_FFFF
}

module Wrappers {
  datatype Option<+T> = None | Some(value: T)

  datatype Result<+T, +E> = Success(value: T) | Failure(error: E)
}

/** Bytes and twenty-byte account addresses. */
module ByteTypes {
  type Byte = b: int | 0 <= b < 256 witness 0
  type Bytes = seq<Byte>
  type Address = a: Bytes | |a| == 20 witness seq(20, _ => 0)
}
