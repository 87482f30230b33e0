/** The signing address balance: an integer number of wei on the wire, divided
    by 10^18 to give RBNT under Python's default decimal context (28
    significant digits, rounding half to even), and compared with the
    configured whole-RBNT minimum. */
module Balance {

  const WeiPerRbnt: int := 1_000_000_000_000_000_000

  /** Significant digits kept by the default decimal context. */
  const Precision: nat := 28

  function Pow10(k: nat): (r: nat)
    ensures r >= 1
  {
    if k == 0 then 1 else 10 * Pow10(k - 1)
  }

  lemma {:induction false} Pow10Monotone(a: nat, b: nat)
    requires a <= b
    ensures Pow10(a) <= Pow10(b)
  {
    if a < b {
      Pow10Monotone(a, b - 1);
    }
  }

  lemma {:induction false} Pow10Add(a: nat, b: nat)
    ensures Pow10(a + b) == Pow10(a) * Pow10(b)
  {
    if b > 0 {
      Pow10Add(a, b - 1);
      assert Pow10(a + b) == 10 * Pow10(a + b - 1);
    }
  }

  lemma Pow10Precision()
    ensures Pow10(Precision) == 10_000_000_000_000_000_000_000_000_000
    ensures Pow10(Precision + 1) == 100_000_000_000_000_000_000_000_000_000
  {
    assert Pow10(7) == 10_000_000;
    Pow10Add(7, 7);
    Pow10Add(14, 14);
  }

  /** The number of decimal digits of `n` (none for zero). */
  function DigitCount(n: nat): (d: nat)
    ensures n < Pow10(d)
    ensures n > 0 ==> d >= 1 && Pow10(d - 1) <= n
  {
    if n == 0 then 0 else 1 + DigitCount(n / 10)
  }

  /** A number below 10^k has at most k digits. */
  lemma {:induction false} DigitCountAtMost(n: nat, k: nat)
    requires n < Pow10(k)
    ensures DigitCount(n) <= k
  {
    if n > 0 {
      assert k >= 1;
      assert n / 10 < Pow10(k - 1);
      DigitCountAtMost(n / 10, k - 1);
    }
  }

  function Abs(x: int): nat
  {
    if x < 0 then -x else x
  }

  /** The multiple of `q` nearest to `n`, as a multiplier of `q`; a tie goes
      to the even multiplier. */
  function RoundHalfEven(n: nat, q: nat): (k: nat)
    requires q >= 1
    ensures 2 * Abs(n - k * q) <= q
    ensures 2 * Abs(n - k * q) == q ==> k % 2 == 0
  {
    var lo, rem := n / q, n % q;
    DivisionParts(n, q);
    if 2 * rem < q || (2 * rem == q && lo % 2 == 0) then lo
    else
      assert (lo + 1) * q == lo * q + q;
      lo + 1
  }

  lemma DivisionParts(n: nat, q: nat)
    requires q >= 1
    ensures n == (n / q) * q + n % q && 0 <= n % q < q
  {
  }

  /** The magnitude of the quotient's coefficient, in wei: the amount itself
      when it has at most `Precision` digits, otherwise the amount rounded
      half to even at its `Precision`-th significant digit. */
  function RoundedMagnitude(m: nat): (k: nat)
    ensures DigitCount(m) <= Precision ==> k == m
    ensures DigitCount(m) > Precision ==>
      var q := Pow10(DigitCount(m) - Precision);
      k == RoundHalfEven(m, q) * q && 2 * Abs(k - m) <= q
    ensures m > 0 ==> k > 0
  {
    var d := DigitCount(m);
    if d <= Precision then m
    else
      var q := Pow10(d - Precision);
      var k := RoundHalfEven(m, q) * q;
      RoundedPositive(m, d, q, k);
      assert Abs(k - m) == Abs(m - k);
      k
  }

  /** `Decimal(wei) / Decimal(10**18)` under the default context, scaled back
      by 10^18 so that it stays an integer: the sign of the amount with the
      rounded magnitude. */
  function ScaledBalance(wei: int): (r: int)
    ensures Abs(r) == RoundedMagnitude(Abs(wei))
    ensures r < 0 <==> wei < 0
    ensures Abs(r - wei) == Abs(RoundedMagnitude(Abs(wei)) - Abs(wei))
    ensures Abs(wei) < Pow10(Precision) ==> r == wei
  {
    assert Abs(wei) < Pow10(Precision) ==> DigitCount(Abs(wei)) <= Precision by {
      if Abs(wei) < Pow10(Precision) {
        DigitCountAtMost(Abs(wei), Precision);
      }
    }
    var k := RoundedMagnitude(Abs(wei));
    if wei < 0 then -(k as int) else k
  }

  /** Whatever the amount, the conversion's error relative to it is at most
      5 * 10^-28. */
  lemma ScaledBalanceRelativeError(wei: int)
    ensures Pow10(Precision - 1) * (2 * Abs(ScaledBalance(wei) - wei)) <= Abs(wei)
  {
    var m: nat, k: nat := Abs(wei), RoundedMagnitude(Abs(wei));
    var d := DigitCount(m);
    var error: int := k - m;
    assert Abs(ScaledBalance(wei) - wei) == Abs(error);
    if d > Precision {
      var q := Pow10(d - Precision);
      assert 2 * Abs(m - k) <= q by {
        assert Abs(m - k) == Abs(error);
      }
      RoundingError(m, d, q, k);
    }
  }

  /** Rounding an amount of `d` digits at its `Precision`-th significant
      digit is off by at most half a unit in that digit. */
  lemma RoundingError(m: nat, d: nat, q: nat, rounded: nat)
    requires d > Precision && q == Pow10(d - Precision)
    requires m >= 1 && Pow10(d - 1) <= m
    requires 2 * Abs(m - rounded) <= q
    ensures Pow10(Precision - 1) * (2 * Abs(rounded - m)) <= m
  {
    Pow10Add(Precision - 1, d - Precision);
    MulMonotone(Pow10(Precision - 1), 2 * Abs(rounded - m), q);
  }

  /** The amount is at least 10^27 steps of `q`, so rounding it to a multiple
      of `q` cannot reach zero. */
  lemma RoundedPositive(m: nat, d: nat, q: nat, rounded: nat)
    requires d > Precision && q == Pow10(d - Precision)
    requires Pow10(d - 1) <= m
    requires 2 * Abs(m - rounded) <= q
    ensures rounded > 0
  {
    Pow10Add(d - Precision, Precision - 1);
    MulMonotone(q, 1, Pow10(Precision - 1));
  }

  lemma MulMonotone(c: nat, a: nat, b: nat)
    requires a <= b
    ensures c * a <= c * b
  {
  }

  /** The balance rule: the configured minimum (whole RBNT) is greater than
      the converted balance. */
  predicate BelowMinimum(minBalance: int, wei: int)
  {
    minBalance * WeiPerRbnt > ScaledBalance(wei)
  }

  /** Below 10^28 wei the conversion is exact, so the rule is the exact
      comparison and a balance equal to the minimum does not warn. */
  lemma BelowMinimumExact(minBalance: int, wei: int)
    requires Abs(wei) < Pow10(Precision)
    ensures BelowMinimum(minBalance, wei) <==> minBalance * WeiPerRbnt > wei
  {
  }

  /** 10 RBNT exactly meets a minimum of 10; one wei less falls below it. */
  lemma BalanceBoundary()
    ensures !BelowMinimum(10, 10_000_000_000_000_000_000)
    ensures BelowMinimum(10, 9_999_999_999_999_999_999)
  {
    Pow10Precision();
    BelowMinimumExact(10, 10_000_000_000_000_000_000);
    BelowMinimumExact(10, 9_999_999_999_999_999_999);
  }

  /** Past 28 digits the conversion rounds, and can round a balance up to
      the minimum: 10^29 - 1 wei is below a minimum of 10^11 RBNT, yet
      converts to exactly 10^11 and raises no warning. */
  lemma RoundingHidesShortfall()
    ensures 100_000_000_000 * WeiPerRbnt > 99_999_999_999_999_999_999_999_999_999
    ensures ScaledBalance(99_999_999_999_999_999_999_999_999_999) == 100_000_000_000_000_000_000_000_000_000
    ensures !BelowMinimum(100_000_000_000, 99_999_999_999_999_999_999_999_999_999)
  {
    var wei := 99_999_999_999_999_999_999_999_999_999;
    Pow10Precision();
    DigitCountExactly(wei, Precision + 1);
  }

  /** A number of at least 10^(k-1) and below 10^k has exactly k digits. */
  lemma {:induction false} DigitCountExactly(n: nat, k: nat)
    requires k >= 1 && Pow10(k - 1) <= n < Pow10(k)
    ensures DigitCount(n) == k
  {
    if k > 1 {
      assert Pow10(k - 2) <= n / 10 < Pow10(k - 1);
      DigitCountExactly(n / 10, k - 1);
    }
  }
}
