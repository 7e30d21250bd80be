/** Integer views of the bit operations the simulator uses on basis-state
  * indices: `1 << k`, `(i >> q) & 1`, `i ^ (1 << q)` and `v |= b << k`.
  * Everything is stated on unbounded naturals; the source's 32- and 64-bit
  * widths never matter for the sizes modelled here. */
module Bits {

  /** `1 << k`. */
  function Pow2(k: nat): (r: nat)
    ensures r >= 1
  {
    if k == 0 then 1 else 2 * Pow2(k - 1)
  }

  /** `(i >> q) & 1`. */
  function Bit(i: nat, q: nat): (b: nat)
    ensures b <= 1
  {
    if q == 0 then i % 2 else Bit(i / 2, q - 1)
  }

  /** `i ^ (1 << q)`: index `i` with bit `q` inverted. */
  function FlipBit(i: nat, q: nat): (r: nat)
    ensures r == if Bit(i, q) == 0 then i + Pow2(q) else i - Pow2(q)
  {
    if q == 0 then (if i % 2 == 0 then i + 1 else i - 1)
    else 2 * FlipBit(i / 2, q - 1) + i % 2
  }

  /** Bitwise OR of two naturals, `a | b`. */
  function Or(a: nat, b: nat): (r: nat)
    decreases a + b
  {
    if a == 0 && b == 0 then 0
    else 2 * Or(a / 2, b / 2) + (if a % 2 == 1 || b % 2 == 1 then 1 else 0)
  }

  /** Bitwise XOR of two naturals. */
  function NatXor(a: nat, b: nat): (r: nat)
    decreases a + b
  {
    if a == 0 && b == 0 then 0
    else 2 * NatXor(a / 2, b / 2) + (if a % 2 != b % 2 then 1 else 0)
  }

  /** Two's-complement XOR of two integers, `a ^ b`, via `~a == -a - 1`. */
  function Xor(a: int, b: int): int
  {
    if a < 0 && b < 0 then NatXor(-a - 1, -b - 1)
    else if a < 0 then -1 - (NatXor(-a - 1, b) as int)
    else if b < 0 then -1 - (NatXor(a, -b - 1) as int)
    else NatXor(a, b)
  }

  /** The value of a little-endian bit list: bit k weighs 2^k. */
  function FromBits(bits: seq<int>): int
  {
    if bits == [] then 0 else bits[0] + 2 * FromBits(bits[1..])
  }

  /** Bits 0..n-1 of `i`, least significant first. */
  function ToBits(i: nat, n: nat): (bits: seq<int>)
    ensures |bits| == n
    ensures forall j :: 0 <= j < n ==> bits[j] == Bit(i, j)
  {
    seq(n, (j: int) requires 0 <= j < n => Bit(i, j))
  }

  predicate IsBitString(bits: seq<int>)
  {
    forall j :: 0 <= j < |bits| ==> 0 <= bits[j] <= 1
  }

  lemma {:induction false} BitOfFlip(i: nat, q: nat, p: nat)
    ensures Bit(FlipBit(i, q), p) == if p == q then 1 - Bit(i, q) else Bit(i, p)
  {
    if q == 0 {
      if p > 0 {
        assert FlipBit(i, q) / 2 == i / 2;
      }
    } else {
      assert FlipBit(i, q) % 2 == i % 2;
      assert FlipBit(i, q) / 2 == FlipBit(i / 2, q - 1);
      if p > 0 {
        BitOfFlip(i / 2, q - 1, p - 1);
      }
    }
  }

  lemma FlipFlip(i: nat, q: nat)
    ensures FlipBit(FlipBit(i, q), q) == i
  {
    BitOfFlip(i, q, q);
  }

  /** Two indices below 2^n with the same n low bits are equal. */
  lemma {:induction false} SameBitsSame(i: nat, j: nat, n: nat)
    requires i < Pow2(n) && j < Pow2(n)
    requires forall p :: 0 <= p < n ==> Bit(i, p) == Bit(j, p)
    ensures i == j
  {
    if n > 0 {
      assert Bit(i, 0) == Bit(j, 0);
      forall p | 0 <= p < n - 1 ensures Bit(i / 2, p) == Bit(j / 2, p) {
        assert Bit(i, p + 1) == Bit(j, p + 1);
      }
      SameBitsSame(i / 2, j / 2, n - 1);
    }
  }

  /** An index below 2^q has bit q (and every higher bit) clear. */
  lemma {:induction false} HighBitClear(i: nat, q: nat)
    requires i < Pow2(q)
    ensures Bit(i, q) == 0
  {
    if q > 0 {
      HighBitClear(i / 2, q - 1);
    }
  }

  lemma {:induction false} BitBelowPow2(i: nat, q: nat, n: nat)
    requires i < Pow2(n) && n <= q
    ensures Bit(i, q) == 0
  {
    if n < q {
      PowMonotone(n, q);
    }
    HighBitClear(i, q);
  }

  lemma {:induction false} PowMonotone(a: nat, b: nat)
    requires a <= b
    ensures Pow2(a) <= Pow2(b)
  {
    if a < b {
      PowMonotone(a, b - 1);
    }
  }

  /** Flipping a bit below n keeps an index below 2^n. */
  lemma {:induction false} FlipBitBound(i: nat, q: nat, n: nat)
    requires i < Pow2(n) && q < n
    ensures FlipBit(i, q) < Pow2(n)
  {
    if q == 0 {
      assert Pow2(n) == 2 * Pow2(n - 1);
    } else {
      FlipBitBound(i / 2, q - 1, n - 1);
    }
  }

  /** Bit j of 2^i is set exactly when j == i. */
  lemma {:induction false} BitOfPow2(i: nat, j: nat)
    ensures Bit(Pow2(i), j) == if i == j then 1 else 0
  {
    if i > 0 && j > 0 {
      BitOfPow2(i - 1, j - 1);
    } else if i > 0 {
      assert Pow2(i) % 2 == 0;
    } else if j > 0 {
      HighBitClear(0, j - 1);
    }
  }

  /** Two different powers of two are different indices. */
  lemma Pow2Injective(i: nat, j: nat)
    requires Pow2(i) == Pow2(j)
    ensures i == j
  {
    BitOfPow2(i, i);
    BitOfPow2(j, i);
  }

  /** OR-ing a bit into a position above the current value adds it. */
  lemma {:induction false} OrHighBit(v: nat, b: nat, k: nat)
    requires v < Pow2(k) && b <= 1
    ensures Or(v, b * Pow2(k)) == v + b * Pow2(k)
  {
    if k == 0 {
      assert v == 0;
      if b == 1 {
        assert Or(0, 1) == 2 * Or(0, 0) + 1;
      }
    } else {
      assert (b * Pow2(k)) / 2 == b * Pow2(k - 1) && (b * Pow2(k)) % 2 == 0;
      if v == 0 && b == 0 {
      } else {
        OrHighBit(v / 2, b, k - 1);
      }
    }
  }

  /** A bit string of length n denotes a value in [0, 2^n). */
  lemma {:induction false} FromBitsBound(bits: seq<int>)
    requires IsBitString(bits)
    ensures 0 <= FromBits(bits) < Pow2(|bits|)
  {
    if bits != [] {
      FromBitsBound(bits[1..]);
    }
  }

  /** Reading back the n low bits of an index below 2^n gives the index. */
  lemma {:induction false} FromToBits(i: nat, n: nat)
    requires i < Pow2(n)
    ensures FromBits(ToBits(i, n)) == i
  {
    if n > 0 {
      FromToBits(i / 2, n - 1);
      assert ToBits(i, n)[1..] == ToBits(i / 2, n - 1);
    }
  }

  /** Distinct indices below 2^n have distinct bit strings. */
  lemma ToBitsInjective(i: nat, j: nat, n: nat)
    requires i < Pow2(n) && j < Pow2(n)
    requires ToBits(i, n) == ToBits(j, n)
    ensures i == j
  {
    FromToBits(i, n);
    FromToBits(j, n);
  }

  lemma {:induction false} FromBitsSnoc(bits: seq<int>, b: int)
    ensures FromBits(bits + [b]) == FromBits(bits) + b * Pow2(|bits|)
  {
    if bits != [] {
      var rest := bits[1..];
      assert (bits + [b])[1..] == rest + [b];
      FromBitsSnoc(rest, b);
      var half := Pow2(|rest|);
      assert Pow2(|bits|) == 2 * half;
      assert 2 * (b * half) == b * (2 * half);
    }
  }

  /** `value |= bits[k] << k` for k = 0 .. |bits| - 1, starting from 0. */
  function OrPack(bits: seq<nat>): nat
  {
    if bits == [] then 0
    else Or(OrPack(bits[..|bits| - 1]), bits[|bits| - 1] * Pow2(|bits| - 1))
  }

  /** On a bit string the OR accumulation is the little-endian value. */
  lemma {:induction false} OrPackBits(bits: seq<nat>)
    requires IsBitString(bits)
    ensures OrPack(bits) == FromBits(bits)
  {
    if bits != [] {
      var init, last := bits[..|bits| - 1], bits[|bits| - 1];
      assert bits == init + [last];
      assert IsBitString(init) by {
        forall j | 0 <= j < |init| ensures 0 <= init[j] <= 1 {
          assert init[j] == bits[j];
        }
      }
      OrPackBits(init);
      FromBitsBound(init);
      OrHighBit(FromBits(init), last, |init|);
      FromBitsSnoc(init, last);
    }
  }

  /** Bit i of the value of a bit string is its i-th entry. */
  lemma {:induction false} BitOfFromBits(bits: seq<int>, i: nat)
    requires IsBitString(bits) && i < |bits|
    ensures var v := FromBits(bits); v >= 0 && Bit(v, i) == bits[i]
  {
    assert IsBitString(bits[1..]) by {
      forall j | 0 <= j < |bits[1..]| ensures 0 <= bits[1..][j] <= 1 {
        assert bits[1..][j] == bits[j + 1];
      }
    }
    FromBitsBound(bits[1..]);
    var v := FromBits(bits);
    assert v == bits[0] + 2 * FromBits(bits[1..]);
    if i > 0 {
      assert v / 2 == FromBits(bits[1..]);
      BitOfFromBits(bits[1..], i - 1);
    }
  }
}
