/**
 * Money amounts.  Prices and budgets are Python floats in the source; here they
 * are exact reals, and Python's `round(x, 2)` is the explicit function Round2,
 * which rounds half up to a whole number of cents.
 */
module Money {

  /** The number of whole cents `round(x, 2)` produces. */
  function Cents(x: real): int {
    (x * 100.0 + 0.5).Floor
  }

  /** `round(x, 2)`: the nearest multiple of 0.01 (halves round up). */
  function Round2(x: real): real {
    Cents(x) as real / 100.0
  }

  /** An amount that is already a whole number of cents. */
  predicate IsCents(x: real) {
    Round2(x) == x
  }

  lemma CentsOfWhole(k: int)
    ensures Cents(k as real / 100.0) == k
  {
    assert k as real / 100.0 * 100.0 + 0.5 == k as real + 0.5;
  }

  /** Shifting by a whole number of cents shifts the rounded value by the same amount. */
  lemma CentsShift(x: real, k: int)
    ensures Cents(x + k as real / 100.0) == Cents(x) + k
  {
    assert (x + k as real / 100.0) * 100.0 + 0.5 == (x * 100.0 + 0.5) + k as real;
  }

  /** The rounded value is a whole number of cents (rounding is idempotent). */
  lemma RoundIsCents(x: real)
    ensures IsCents(Round2(x))
  {
    CentsOfWhole(Cents(x));
  }

  /** Rounding never reverses an order. */
  lemma RoundMonotone(x: real, y: real)
    requires x <= y
    ensures Round2(x) <= Round2(y)
  {
    var a, b := x * 100.0 + 0.5, y * 100.0 + 0.5;
    assert a <= b;
    assert b < b.Floor as real + 1.0;
    assert a.Floor as real <= a;
    assert a.Floor <= b.Floor;
  }

  /** Rounding moves an amount by at most half a cent. */
  lemma RoundError(x: real)
    ensures x - 0.005 < Round2(x) <= x + 0.005
  {
  }

  /** A whole number of cents is kept by rounding and is exactly (number of cents) / 100. */
  lemma CentsExact(x: real)
    requires IsCents(x)
    ensures x == Cents(x) as real / 100.0
  {
  }

  /** Differences and sums of whole-cent amounts need no rounding. */
  lemma CentsArith(a: real, b: real)
    requires IsCents(a) && IsCents(b)
    ensures IsCents(a - b) && IsCents(a + b)
    ensures Round2(a - b) == a - b && Round2(a + b) == a + b
  {
    CentsOfWhole(Cents(a) - Cents(b));
    assert a - b == (Cents(a) - Cents(b)) as real / 100.0;
    CentsOfWhole(Cents(a) + Cents(b));
    assert a + b == (Cents(a) + Cents(b)) as real / 100.0;
  }

  /** Rounding `x + c` for a whole-cent `c` is rounding `x` and then adding `c`. */
  lemma RoundShiftCents(x: real, c: real)
    requires IsCents(c)
    ensures Round2(x + c) == Round2(x) + c
  {
    CentsShift(x, Cents(c));
    assert c == Cents(c) as real / 100.0;
  }

  /**
   * Moving all rounding drift onto one of three whole-cent amounts makes them
   * add up to the rounded total (the reconciliation step of the allocation).
   */
  lemma Reconcile(total: real, a: real, b: real, c: real)
    requires IsCents(a) && IsCents(b) && IsCents(c)
    ensures var diff := Round2(total - (a + b + c));
            a + b + (if diff != 0.0 then Round2(c + diff) else c) == Round2(total)
  {
    CentsArith(a, b);
    CentsArith(a + b, c);
    var s := a + b + c;
    CentsArith(0.0, s) by { CentsOfWhole(0); }
    RoundShiftCents(total, 0.0 - s);
    var diff := Round2(total - s);
    assert diff == Round2(total) - s;
    RoundIsCents(total);
    CentsArith(Round2(total), s);
    CentsArith(c, diff);
  }
}
