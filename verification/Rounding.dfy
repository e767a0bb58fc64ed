/** `Decimal.quantize` with no rounding argument: round half to even
    (roundTiesToEven, section 4.3.1 of IEEE 754-2008), on exact rationals num/den. */
module Rounding {
  /** The distance condition and the tie rule determine the result (`RoundUnique`). */
  ghost predicate IsRounded(num: int, den: int, r: int) {
    && -den <= 2 * (num - r * den) <= den
    && (2 * (num - r * den) == den || 2 * (num - r * den) == -den ==> r % 2 == 0)
  }

  /** Two whole units at a time keep the parity of the result, so half a unit goes to the even side: to
      zero. No product or quotient of unknowns is needed to say it. */
  function Round(num: int, den: int): int
    requires den > 0
    decreases if num < 0 then -num else num
  {
    if num > den then Round(num - 2 * den, den) + 2
    else if num < -den then Round(num + 2 * den, den) - 2
    else if 2 * num > den then 1 else if 2 * num < -den then -1 else 0
  }

  /** Two units more round to two more. */
  lemma RoundedShift(num: int, den: int, r: int)
    ensures IsRounded(num, den, r) <==> IsRounded(num + 2 * den, den, r + 2)
  {
    MulAdd(r, 2, den);
  }

  lemma {:induction false} RoundIsRounded(num: int, den: int)
    requires den > 0
    ensures IsRounded(num, den, Round(num, den))
    decreases if num < 0 then -num else num
  {
    if num > den {
      RoundIsRounded(num - 2 * den, den);
      RoundedShift(num - 2 * den, den, Round(num - 2 * den, den));
    } else if num < -den {
      RoundIsRounded(num + 2 * den, den);
      RoundedShift(num, den, Round(num + 2 * den, den) - 2);
    }
  }

  // Multiples of a positive denominator: the only non-linear facts the proofs below use.
  lemma MulNonNegative(k: int, den: int)
    requires k >= 0
    requires den >= 0
    ensures k * den >= 0
  {
  }

  lemma MulSub(x: int, y: int, den: int)
    ensures (x - y) * den == x * den - y * den
  {
  }

  lemma MulGap(x: int, y: int, den: int)
    requires den > 0
    ensures x > y ==> x * den >= y * den + den
    ensures x > y + 1 ==> x * den >= y * den + 2 * den
  {
    if x > y + 1 {
      MulNonNegative(x - y - 2, den);
      MulSub(x, y + 2, den);
      MulSub(y + 2, 2, den);
    }
    if x > y {
      MulNonNegative(x - y - 1, den);
      MulSub(x, y + 1, den);
      MulSub(y + 1, 1, den);
    }
  }

  lemma MulAdd(x: int, y: int, den: int)
    ensures (x + y) * den == x * den + y * den
  {
  }

  lemma RoundUnique(num: int, den: int, r: int)
    requires den > 0
    requires IsRounded(num, den, r)
    ensures r == Round(num, den)
  {
    var s := Round(num, den);
    RoundIsRounded(num, den);
    MulGap(r, s, den);
    MulGap(s, r, den);
  }

  lemma RoundExact(k: int, den: int)
    requires den > 0
    ensures Round(k * den, den) == k
  {
    RoundUnique(k * den, den, k);
  }

  lemma RoundMonotone(a: int, b: int, den: int)
    requires den > 0
    requires a <= b
    ensures Round(a, den) <= Round(b, den)
  {
    var r, s := Round(a, den), Round(b, den);
    RoundIsRounded(a, den);
    RoundIsRounded(b, den);
    MulGap(r, s, den);
  }

  /** Rounding moves a step of less than `d` units by at most `d` units, whatever the tie rule. */
  lemma RoundStep(a: int, b: int, d: int, den: int)
    requires den > 0
    requires b < a + d * den
    ensures Round(b, den) - Round(a, den) <= d
  {
    var r, s := Round(a, den), Round(b, den);
    RoundIsRounded(a, den);
    RoundIsRounded(b, den);
    MulGap(s, r + d, den);
    MulAdd(r, d, den);
  }

  lemma RoundNonNegative(num: int, den: int)
    requires den > 0
    requires num >= 0
    ensures Round(num, den) >= 0
  {
    RoundExact(0, den);
    RoundMonotone(0, num, den);
  }
}
