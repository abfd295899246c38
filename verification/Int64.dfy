/**
 Signed 64-bit machine arithmetic: wrap-around, and the bitwise operators on the
 two's-complement image that the overflow tests of internal/domain/money.go use.
 */
module Int64 {
  const MAX: int := 0x7fff_ffff_ffff_ffff
  const MIN: int := -0x8000_0000_0000_0000
  const WORD: int := 0x1_0000_0000_0000_0000
  const SIGN: int := 0x8000_0000_0000_0000

  predicate Fits(x: int) {
    MIN <= x <= MAX
  }

  /** The value an int64 operation leaves behind when the exact result is `x`. */
  function Wrap(x: int): (r: int)
    ensures Fits(r)
    ensures Fits(x) ==> r == x
    ensures MAX < x <= 2 * MAX ==> r == x - WORD
    ensures 2 * MIN <= x < MIN ==> r == x + WORD
  {
    (x + SIGN) % WORD - SIGN
  }

  /** The unsigned image of an int64. */
  function Bits(x: int): (r: nat)
    requires Fits(x)
    ensures r < WORD
    ensures r >= SIGN <==> x < 0
  {
    if x < 0 then x + WORD else x
  }

  predicate Negative(bits: nat) {
    bits >= SIGN
  }

  function Xor(a: nat, b: nat): nat
    decreases a + b
  {
    if a == 0 && b == 0 then 0
    else (if a % 2 == b % 2 then 0 else 1) + 2 * Xor(a / 2, b / 2)
  }

  function And(a: nat, b: nat): nat
    decreases a + b
  {
    if a == 0 && b == 0 then 0
    else (if a % 2 == 1 && b % 2 == 1 then 1 else 0) + 2 * And(a / 2, b / 2)
  }

  function Pow2(k: nat): (r: nat)
    ensures r > 0
  {
    if k == 0 then 1 else 2 * Pow2(k - 1)
  }

  lemma {:induction false} XorTopBit(a: nat, b: nat, k: nat)
    requires a < Pow2(k + 1) && b < Pow2(k + 1)
    ensures Xor(a, b) < Pow2(k + 1)
    ensures Xor(a, b) >= Pow2(k) <==> (a >= Pow2(k)) != (b >= Pow2(k))
    decreases k
  {
    if k == 0 {
      assert Pow2(1) == 2;
      assert Xor(a / 2, b / 2) == 0;
    } else {
      XorTopBit(a / 2, b / 2, k - 1);
    }
  }

  lemma {:induction false} AndTopBit(a: nat, b: nat, k: nat)
    requires a < Pow2(k + 1) && b < Pow2(k + 1)
    ensures And(a, b) < Pow2(k + 1)
    ensures And(a, b) >= Pow2(k) <==> a >= Pow2(k) && b >= Pow2(k)
    decreases k
  {
    if k == 0 {
      assert Pow2(1) == 2;
      assert And(a / 2, b / 2) == 0;
    } else {
      AndTopBit(a / 2, b / 2, k - 1);
    }
  }

  lemma {:induction false} Pow2Splits(a: nat, b: nat)
    ensures Pow2(a + b) == Pow2(a) * Pow2(b)
  {
    if a > 0 {
      Pow2Splits(a - 1, b);
    }
  }

  lemma SmallPowers()
    ensures Pow2(1) == 2 && Pow2(4) == 16
  {
    assert Pow2(2) == 4;
  }

  lemma WordPowers()
    ensures Pow2(63) == SIGN && Pow2(64) == WORD
  {
    hide Pow2;
    SmallPowers();
    Pow2Splits(4, 4);
    Pow2Splits(8, 8);
    Pow2Splits(16, 16);
    Pow2Splits(32, 32);
    Pow2Splits(1, 63);
  }

  /** The sign of `(p ^ q) & (r ^ s)` is decided by the four operands' signs alone. */
  lemma SignOfXorAndXor(p: int, q: int, r: int, s: int)
    requires Fits(p) && Fits(q) && Fits(r) && Fits(s)
    ensures Negative(And(Xor(Bits(p), Bits(q)), Xor(Bits(r), Bits(s)))) <==>
            (p < 0) != (q < 0) && (r < 0) != (s < 0)
  {
    WordPowers();
    XorTopBit(Bits(p), Bits(q), 63);
    XorTopBit(Bits(r), Bits(s), 63);
    AndTopBit(Xor(Bits(p), Bits(q)), Xor(Bits(r), Bits(s)), 63);
  }
}
