/** The EVM's unsigned words: their bounds, and the unchecked left shift. */
module Machine {
  const U32: nat := 0x1_0000_0000
  const U64: nat := 0x1_0000_0000_0000_0000
  const U128: nat := 0x1_0000_0000_0000_0000_0000_0000_0000_0000
  const U256: nat := 0x1_0000_0000_0000_0000_0000_0000_0000_0000_0000_0000_0000_0000_0000_0000_0000_0000
  const MAX_UINT256: nat := U256 - 1

  function Pow2(n: nat): (p: nat)
    ensures p >= 1
  {
    if n == 0 then 1 else 2 * Pow2(n - 1)
  }

  /** `x << bits` on uint256: the bits shifted past 255 are dropped without a revert. */
  function Shl(x: nat, bits: nat): nat {
    (x * Pow2(bits)) % U256
  }

  lemma {:induction false} Pow2Add(a: nat, b: nat)
    ensures Pow2(a + b) == Pow2(a) * Pow2(b)
  {
    if a == 0 {
    } else {
      Pow2Add(a - 1, b);
      assert Pow2(a + b) == 2 * (Pow2(a - 1) * Pow2(b)) == (2 * Pow2(a - 1)) * Pow2(b);
    }
  }

  lemma Pow2Doubles(half: nat, whole: nat, p: nat)
    requires whole == half + half && Pow2(half) == p
    ensures Pow2(whole) == p * p
  {
    Pow2Add(half, half);
  }

  lemma Pow2Of128(n: nat)
    requires n == 128
    ensures Pow2(n) == U128
  {
    assert Pow2(4) == 16;
    var n8, n16, n32, n64 := 8, 16, 32, 64;
    Pow2Doubles(4, n8, 16);
    Pow2Doubles(n8, n16, 0x100);
    Pow2Doubles(n16, n32, 0x1_0000);
    Pow2Doubles(n32, n64, U32);
    Pow2Doubles(n64, n, U64);
  }

  lemma MulBelow(x: nat, xBound: nat, y: nat, yBound: nat)
    requires x < xBound && y <= yBound && yBound > 0
    ensures x * y < xBound * yBound
  {
    assert x * y <= x * yBound by { MulMono(y, yBound, x); }
    assert x * yBound < xBound * yBound by {
      assert (xBound - x) * yBound >= yBound by { MulMono(1, xBound - x, yBound); }
    }
  }

  lemma MulMono(x: nat, y: nat, k: nat)
    requires x <= y
    ensures k * x <= k * y && x * k <= y * k
  {
    assert k * (y - x) >= 0;
  }

  lemma Pow2UpTo128(bits: nat, limit: nat)
    requires bits <= limit == 128
    ensures Pow2(bits) <= U128
  {
    Pow2Of128(limit);
    var rest := limit - bits;
    Pow2Add(bits, rest);
    assert Pow2(bits) * Pow2(rest) == U128;
    MulMono(1, Pow2(rest), Pow2(bits));
  }

  /** For depths up to 128 and operands below 2^128 the shift is multiplication by 2^bits. */
  lemma ShlIsExact(x: nat, bits: nat)
    requires x < U128 && bits <= 128
    ensures x * Pow2(bits) < U256
    ensures Shl(x, bits) == x * Pow2(bits)
  {
    Pow2UpTo128(bits, 128);
    MulBelow(x, U128, Pow2(bits), U128);
    assert U128 * U128 == U256;
  }

  /** Two uint64 factors never overflow a uint256: their product stays below 2^128. */
  lemma ProductOfUint64(x: nat, y: nat)
    requires x < U64 && y < U64
    ensures x * y < U128
  {
    MulBelow(x, U64, y, U64);
  }

  /** A positive multiple of two is never the all-ones word, which ERC-20 tokens read as "unlimited". */
  lemma NeverUnlimited(x: nat, bits: nat)
    requires bits >= 1
    ensures x * Pow2(bits) != MAX_UINT256
  {
    assert x * Pow2(bits) == 2 * (x * Pow2(bits - 1));
    assert MAX_UINT256 % 2 == 1;
  }

  function Min(a: nat, b: nat): nat {
    if a <= b then a else b
  }
}
