/**
 * The C++ integer conversions the VOQ applies, written out over unbounded
 * integers: unsigned narrowing is reduction modulo 2^n, and signed narrowing
 * picks the two's-complement representative.
 */
module CppInt {

  const TWO_31: int := 0x8000_0000
  const TWO_32: int := 0x1_0000_0000
  const TWO_64: int := 0x1_0000_0000_0000_0000

  /** `(uint32_t) x`: the unique value in [0, 2^32) congruent to x modulo 2^32. */
  function ToUint32(x: int): (r: int)
    ensures 0 <= r < TWO_32
    ensures (x - r) % TWO_32 == 0
    ensures 0 <= x < TWO_32 ==> r == x
  {
    x % TWO_32
  }

  /** `(uint64_t) x`: the unique value in [0, 2^64) congruent to x modulo 2^64. */
  function ToUint64(x: int): (r: int)
    ensures 0 <= r < TWO_64
    ensures (x - r) % TWO_64 == 0
    ensures 0 <= x < TWO_64 ==> r == x
  {
    x % TWO_64
  }

  /** `(int) x` for a 32-bit `int`: the unique value in [-2^31, 2^31) congruent to x modulo 2^32. */
  function ToInt32(x: int): (r: int)
    ensures -TWO_31 <= r < TWO_31
    ensures (x - r) % TWO_32 == 0
    ensures -TWO_31 <= x < TWO_31 ==> r == x
  {
    var m := x % TWO_32;
    if m < TWO_31 then m else m - TWO_32
  }

  /** Narrowing to 32 bits sees only the residue modulo 2^32. */
  lemma ToInt32Congruent(a: int, b: int)
    requires (a - b) % TWO_32 == 0
    ensures ToInt32(a) == ToInt32(b)
  {
    var ra, rb := ToInt32(a), ToInt32(b);
    assert (ra - rb) % TWO_32 == 0 by {
      var ka, kb, k := (a - ra) / TWO_32, (b - rb) / TWO_32, (a - b) / TWO_32;
      assert a - ra == ka * TWO_32;
      assert b - rb == kb * TWO_32;
      assert a - b == k * TWO_32;
      assert ra - rb == (k - ka + kb) * TWO_32;
    }
    assert -TWO_32 < ra - rb < TWO_32;
  }

  /** A value taken modulo 2^64 keeps its residue modulo 2^32. */
  lemma Uint64KeepsLow32(x: int)
    ensures (ToUint64(x) - x) % TWO_32 == 0
  {
    var r := ToUint64(x);
    var k := (x - r) / TWO_64;
    assert x - r == k * TWO_64;
    assert TWO_64 == TWO_32 * TWO_32;
    var m := k * TWO_32;
    assert k * TWO_64 == m * TWO_32;
    MultipleOfTwo32(-m);
    assert r - x == -m * TWO_32;
  }

  lemma MultipleOfTwo32(m: int)
    ensures (m * TWO_32) % TWO_32 == 0
  {
  }
}
