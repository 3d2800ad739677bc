/** Unsigned machine-word arithmetic used by the trainer card's scanline
    generator: values are unbounded ints, and every place where the C code
    relies on `u32` or `u16` wrap-around is written out with these helpers. */
module FixedPoint {

  const TWO8: int := 0x100
  const TWO16: int := 0x1_0000
  const TWO32: int := 0x1_0000_0000

  /** Truncation to an unsigned 32-bit word (the value a `u32` holds). */
  function U32(x: int): (r: nat)
    ensures r < TWO32
  {
    x % TWO32
  }

  /** Truncation to an unsigned 16-bit halfword (a store into a `u16`). */
  function U16(x: int): (r: nat)
    ensures r < TWO16
  {
    x % TWO16
  }

  /** Truncation to an unsigned byte (a store into a `u8`). */
  function U8(x: int): (r: nat)
    ensures r < TWO8
  {
    x % TWO8
  }

  /** Conversion to a signed byte (a store into an `s8`). */
  function S8(x: int): (r: int)
    ensures -128 <= r < 128
  {
    (x + 128) % TWO8 - 128
  }

  /** Logical right shift by 16 of a `u32`: the integer part of a 16.16 value. */
  function Shr16(x: nat): (r: nat)
    requires x < TWO32
    ensures r < TWO16
  {
    x / TWO16
  }

  /** A value that fits a word is its own truncation. */
  lemma U32Small(x: int)
    requires 0 <= x < TWO32
    ensures U32(x) == x
  {
  }

  /** A value that fits a half-word is its own truncation. */
  lemma U16Small(x: int)
    requires 0 <= x < TWO16
    ensures U16(x) == x
  {
  }

  /** Adding a multiple of the word size does not change the word. */
  lemma {:induction false} U32Shift(a: int, q: int)
    ensures U32(a + q * TWO32) == U32(a)
    decreases if q < 0 then -q else q
  {
    if q > 0 {
      U32Shift(a, q - 1);
      assert a + q * TWO32 == (a + (q - 1) * TWO32) + TWO32;
    } else if q < 0 {
      U32Shift(a, q + 1);
      assert a + q * TWO32 == (a + (q + 1) * TWO32) - TWO32;
    }
  }

  /** Truncating an operand before adding it changes nothing modulo 2^32:
      this is what lets a running `u32` accumulator track an exact sum. */
  lemma AddWrapped(a: int, b: int)
    ensures U32(U32(a) + b) == U32(a + b)
  {
    var q := a / TWO32;
    assert a == q * TWO32 + U32(a);
    U32Shift(U32(a) + b, q);
  }

  /** Both operands of a sum may be truncated first. */
  lemma AddBothWrapped(a: int, b: int)
    ensures U32(U32(a) + U32(b)) == U32(a + b)
  {
    AddWrapped(a, U32(b));
    AddWrapped(b, a);
  }

  /** A product of a truncated factor is the truncated product. */
  lemma MulWrapped(a: int, k: int)
    ensures U32(U32(a) * k) == U32(a * k)
  {
    var q := a / TWO32;
    assert a == q * TWO32 + U32(a);
    assert a * k == U32(a) * k + (q * k) * TWO32;
    U32Shift(U32(a) * k, q * k);
  }

  /** Distribution of a product over a sum: an arithmetic step for the
      division bounds and the scanline closed forms. */
  lemma Distrib(a: int, b: int, c: int)
    ensures a * (b + c) == a * b + a * c
  {
  }

  /** Multiplying by a non-negative factor keeps the order: an arithmetic
      step for `DivUpperBound` and the band's velocity bound. */
  lemma MulMonotone(a: int, b: int, c: int)
    requires a <= b && c >= 0
    ensures a * c <= b * c
  {
  }

  /** A positive factor times at least 1 is at least itself: an arithmetic
      step for `DivLowerBound` and `DivUpperBound`. */
  lemma MulAtLeast(d: int, m: int)
    requires d > 0 && m >= 1
    ensures d * m >= d
  {
  }

  /** A lower bound q on a quotient follows from q * d <= x. */
  lemma DivLowerBound(x: int, d: int, q: int)
    requires d > 0 && q * d <= x
    ensures q <= x / d
  {
    var r := x / d;
    assert r * d + x % d == x;
    if r < q {
      Distrib(d, r, q - r);
      MulAtLeast(d, q - r);
      assert false;
    }
  }

  /** An upper bound q on a quotient follows from x < (q + 1) * d. */
  lemma DivUpperBound(x: int, d: int, q: int)
    requires d > 0 && x < (q + 1) * d
    ensures x / d <= q
  {
    var r := x / d;
    assert r * d + x % d == x;
    if r > q {
      Distrib(d, q + 1, r - q - 1);
      MulAtLeast(d, r - q);
      MulMonotone(0, r - q - 1, d);
      assert false;
    }
  }

  /** Quotient and remainder are the unique pair with x == q * d + r. */
  lemma DivModUnique(x: int, d: int, q: int, r: int)
    requires d > 0 && 0 <= r < d && x == q * d + r
    ensures x / d == q && x % d == r
  {
    DivLowerBound(x, d, q);
    Distrib(d, q, 1);
    DivUpperBound(x, d, q);
    assert (x / d) * d + x % d == x;
  }

  /** `Tri(k)` is 0 + 1 + ... + (k - 1), the total of a velocity that changes
      by one unit per row after k rows. */
  function Tri(k: nat): (r: nat)
  {
    if k == 0 then 0 else Tri(k - 1) + (k - 1)
  }

  lemma {:induction false} TriClosedForm(k: nat)
    ensures 2 * Tri(k) == k * (k - 1)
  {
    if k > 0 {
      TriClosedForm(k - 1);
    }
  }
}
