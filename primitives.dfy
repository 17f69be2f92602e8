/** Fixed-width integers, public keys, the saturating arithmetic the
    handlers use, and the byte-width sum that the account size constants
    are built from. */
module Primitives {

  const U8_MAX: int := 0xFF
  const U64_MAX: int := 0xFFFF_FFFF_FFFF_FFFF

  /** Rust `u8`. */
  type U8 = x: int | 0 <= x <= U8_MAX

  /** Rust `u64`. */
  type U64 = x: int | 0 <= x <= U64_MAX

  /** Rust `i64` (Unix timestamps). */
  type I64 = x: int | -0x8000_0000_0000_0000 <= x < 0x8000_0000_0000_0000

  /** A Solana public key: 32 bytes, compared only for equality. */
  type Pubkey = k: seq<U8> | |k| == 32 witness DefaultKey()

  /** `Pubkey::default()`, the all-zero key. */
  function DefaultKey(): (k: seq<U8>)
    ensures |k| == 32 && forall i :: 0 <= i < 32 ==> k[i] == 0
  {
    seq(32, _ => 0)
  }

  /** `u8::saturating_sub`: the result is the exact difference whenever that
      is representable, and otherwise the closest `u8`, which is 0. */
  function SaturatingSub(a: U8, b: U8): (r: U8)
    ensures a - b <= r <= a
    ensures r > a - b ==> r == 0
  {
    if b <= a then a - b else 0
  }

  /** `u64::saturating_add`: the result is the exact sum whenever that is
      representable, and otherwise the closest `u64`, which is `U64_MAX`. */
  function SaturatingAdd(a: U64, b: U64): (r: U64)
    ensures a <= r <= a + b
    ensures r < a + b ==> r == U64_MAX
  {
    if a + b <= U64_MAX then a + b else U64_MAX
  }

  // Serialized widths, in bytes, of the field types the accounts use.
  const DISCRIMINATOR_WIDTH: nat := 8
  const PUBKEY_WIDTH: nat := 32
  const U64_WIDTH: nat := 8
  const I64_WIDTH: nat := 8
  const U8_WIDTH: nat := 1
  /** A fieldless enum is stored as its one-byte variant index. */
  const ENUM_WIDTH: nat := 1

  /** Total width of a record whose fields have the given widths. */
  function LayoutWidth(widths: seq<nat>): nat
  {
    if widths == [] then 0 else widths[0] + LayoutWidth(widths[1..])
  }
}
