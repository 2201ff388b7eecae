/** Fixed-width unsigned integers of the EVM side (`U256`) and of the ledger
    side (`u8`, `u32`, `u64`, `u128`), the narrowing casts between them and
    the little-endian byte image of a `U256`. */
module Uint {

  const U8_LIMIT: nat := 0x100
  const U32_LIMIT: nat := 0x1_0000_0000
  const U64_LIMIT: nat := 0x1_0000_0000_0000_0000
  const U128_LIMIT: nat := 0x1_0000_0000_0000_0000_0000_0000_0000_0000
  const U256_LIMIT: nat :=
    0x1_0000_0000_0000_0000_0000_0000_0000_0000_0000_0000_0000_0000_0000_0000_0000_0000

  /** `core::mem::size_of::<U256>()`. */
  const U256_BYTES: nat := 32

  type U8 = x: int | 0 <= x < U8_LIMIT
  type Byte = U8
  type Bytes = seq<Byte>
  type U32 = x: int | 0 <= x < U32_LIMIT
  type U64 = x: int | 0 <= x < U64_LIMIT
  type U128 = x: int | 0 <= x < U128_LIMIT
  type U256 = x: int | 0 <= x < U256_LIMIT

  /** 256 to the power n: the number of values n bytes can hold. */
  function Pow256(n: nat): (r: nat)
    ensures r >= 1
  {
    if n == 0 then 1 else 256 * Pow256(n - 1)
  }

  /** `U256::as_u64`: the lowest 64-bit limb. The uint crate panics when a
      higher limb is non-zero, so callers must keep the value in range; there
      the cast loses nothing. */
  function AsU64(x: U256): (r: U64)
    requires x < U64_LIMIT
    ensures r == x
  {
    x % U64_LIMIT
  }

  /** `U256::as_u32`: the lowest 32 bits, under the same no-overflow demand. */
  function AsU32(x: U256): (r: U32)
    requires x < U32_LIMIT
    ensures r == x
  {
    x % U32_LIMIT
  }

  /** The n-byte little-endian image of v: its n lowest bytes, least
      significant first. */
  function LeBytes(v: nat, n: nat): (r: Bytes)
    ensures |r| == n
  {
    if n == 0 then [] else [v % 256] + LeBytes(v / 256, n - 1)
  }

  /** `U256::to_little_endian(&mut buf)`: writes the 32-byte little-endian
      image of v into buf, byte by byte. */
  method ToLittleEndian(v: U256, buf: array<Byte>)
    requires buf.Length == U256_BYTES
    modifies buf
    ensures buf[..] == LeBytes(v, U256_BYTES)
  {
    var rest: nat := v;
    for i := 0 to buf.Length
      invariant buf[..i] + LeBytes(rest, buf.Length - i) == LeBytes(v, buf.Length)
    {
      assert LeBytes(rest, buf.Length - i) == [rest % 256] + LeBytes(rest / 256, buf.Length - i - 1);
      buf[i] := rest % 256;
      assert buf[..i + 1] == buf[..i] + [rest % 256];
      rest := rest / 256;
    }
    assert buf[..] == buf[..buf.Length];
  }
}
