/** The crate-level constants and the machine integer widths the source uses. */
module Lib {

  const U32_MAX: nat := 0xFFFF_FFFF
  const U64_MAX: nat := 0xFFFF_FFFF_FFFF_FFFF
  /** `usize::MAX` on a 64-bit target. */
  const USIZE_MAX: nat := U64_MAX

  /** Rust's `u32` and `u64`: the model keeps their ranges explicit. */
  type u32 = x: int | 0 <= x <= U32_MAX
  type u64 = x: int | 0 <= x <= U64_MAX

  /** The public explorer endpoint an agent talks to unless told otherwise. */
  const DEFAULT_BASE_URL: string := "https://api.explorer.aleo.org/v1"
  /** The network name used in every request path unless told otherwise. */
  const DEFAULT_TESTNET: string := "testnet3"
  const MAINNET: string := "mainnet"
  /** 1 credit = 1_000_000 microcredits. */
  const MICROCREDITS: u64 := 1_000_000

  /** The id of the built-in credits program. */
  const CREDITS_PROGRAM: string := "credits.aleo"
}
