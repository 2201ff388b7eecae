/** The SCALE codec's fixed-width integer decoding, as used for the ledger's
    `u128` balance: little-endian, exactly as many bytes as the width, and
    any further input left unread. */
module Scale {
  import opened Wrappers
  import opened Uint

  /** Bytes a `u128` occupies in SCALE. */
  const U128_BYTES: nat := 16

  /** The number a little-endian byte string denotes. */
  function LeValue(s: Bytes): (r: nat)
    ensures r < Pow256(|s|)
  {
    if |s| == 0 then 0 else s[0] + 256 * LeValue(s[1..])
  }

  lemma Pow256U128()
    ensures Pow256(U128_BYTES) == U128_LIMIT
  {
    assert Pow256(4) == 0x1_0000_0000;
    assert Pow256(8) == 0x1_0000_0000_0000_0000;
    assert Pow256(12) == 0x1_0000_0000_0000_0000_0000_0000;
  }

  /** `u128::decode(&mut &input[..])`: fails only when fewer than 16 bytes
      are left; bytes after the first 16 are not consumed and not checked. */
  function DecodeU128(input: Bytes): (r: Option<U128>)
    ensures r.Some? <==> |input| >= U128_BYTES
  {
    Pow256U128();
    if |input| < U128_BYTES then None else Some(LeValue(input[..U128_BYTES]))
  }

  /** Input after the first 16 bytes does not change what is decoded. */
  lemma DecodeU128IgnoresTrailing(input: Bytes, extra: Bytes)
    requires |input| >= U128_BYTES
    ensures DecodeU128(input + extra) == DecodeU128(input)
  {
    assert (input + extra)[..U128_BYTES] == input[..U128_BYTES];
  }

  /** Taking the first m bytes of an n-byte image gives the m-byte image. */
  lemma {:induction false} LeBytesPrefix(v: nat, m: nat, n: nat)
    requires m <= n
    ensures LeBytes(v, n)[..m] == LeBytes(v, m)
  {
    if m > 0 {
      LeBytesPrefix(v / 256, m - 1, n - 1);
      assert LeBytes(v, n)[..m] == [v % 256] + LeBytes(v / 256, n - 1)[..m - 1];
    }
  }

  /** Splitting a remainder by 256 * b into its lowest byte and the rest. */
  lemma ModSplit(v: nat, b: nat)
    requires b >= 1
    ensures v % (256 * b) == v % 256 + 256 * ((v / 256) % b)
  {
    var q, r := v / 256, v % 256;
    var q2, r2 := q / b, q % b;
    assert v == 256 * q + r;
    assert q == b * q2 + r2;
    assert v == (256 * b) * q2 + (256 * r2 + r) by {
      calc {
        v;
        256 * q + r;
        256 * (b * q2 + r2) + r;
        (256 * b) * q2 + (256 * r2 + r);
      }
    }
    assert 0 <= 256 * r2 + r < 256 * b;
    DivModUnique(v, 256 * b, q2, 256 * r2 + r);
  }

  /** Euclidean division has one quotient and one remainder. */
  lemma DivModUnique(v: nat, d: nat, q: nat, m: nat)
    requires d >= 1 && m < d && v == d * q + m
    ensures v % d == m
  {
    var q0, m0 := v / d, v % d;
    assert v == d * q0 + m0;
    assert d * (q0 + 1) == d * q0 + d;
    assert d * (q + 1) == d * q + d;
    if q0 < q {
      MulMonotone(d, q0 + 1, q);
    } else if q0 > q {
      MulMonotone(d, q + 1, q0);
    }
  }

  lemma MulMonotone(d: nat, a: nat, b: nat)
    requires a <= b
    ensures d * a <= d * b
  {
  }

  /** Decoding the n-byte little-endian image of v gives back v modulo
      256^n: the encoding loses exactly the bytes that did not fit. */
  lemma {:induction false} LeValueOfLeBytes(v: nat, n: nat)
    ensures LeValue(LeBytes(v, n)) == v % Pow256(n)
  {
    if n > 0 {
      LeValueOfLeBytes(v / 256, n - 1);
      assert LeBytes(v, n)[1..] == LeBytes(v / 256, n - 1);
      ModSplit(v, Pow256(n - 1));
    }
  }

  /** The u128 read back from an image of at least 16 bytes is the imaged
      value modulo 2^128. */
  lemma DecodeU128OfImage(v: nat, n: nat)
    requires n >= U128_BYTES
    ensures DecodeU128(LeBytes(v, n)) == Some(v % U128_LIMIT)
  {
    LeBytesPrefix(v, U128_BYTES, n);
    LeValueOfLeBytes(v, U128_BYTES);
    Pow256U128();
  }

  /** The u128 read back from the 32-byte image of a U256 is that value
      modulo 2^128, and the value itself when it fits. */
  lemma DecodeU128OfU256Image(v: U256)
    ensures DecodeU128(LeBytes(v, U256_BYTES)) == Some(v % U128_LIMIT)
    ensures v < U128_LIMIT ==> DecodeU128(LeBytes(v, U256_BYTES)) == Some(v)
  {
    DecodeU128OfImage(v, U256_BYTES);
    if v < U128_LIMIT {
      SmallModIdentity(v, U128_LIMIT);
    }
  }

  lemma SmallModIdentity(v: nat, d: nat)
    requires v < d
    ensures v % d == v
  {
  }
}
