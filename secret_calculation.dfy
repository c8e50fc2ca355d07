/** The body of the `performSecretCalculation` tool: `(a + b) % 10` with
    JavaScript's `%`, whose remainder goes with a quotient truncated toward
    zero (the remainder's sign follows the dividend), unlike Dafny's Euclidean
    `%`. */
module SecretCalculation {

  function Abs(x: int): nat
  {
    if x < 0 then -x else x
  }

  /** The quotient of `x / d` truncated toward zero. */
  function TruncQuot(x: int, d: int): int
    requires d > 0
  {
    if x < 0 then -((-x) / d) else x / d
  }

  /** JavaScript's remainder `x % d` on integers, for a positive divisor. */
  function JsRem(x: int, d: int): (r: int)
    requires d > 0
    ensures x == d * TruncQuot(x, d) + r
    ensures Abs(r) < d
    ensures r == 0 || (r < 0 <==> x < 0)
  {
    if x < 0 then -((-x) % d) else x % d
  }

  lemma {:induction false} PositiveMultipleAtLeastDivisor(d: int, k: int)
    requires d > 0 && k > 0
    ensures d * k >= d
    decreases k
  {
    if k > 1 {
      PositiveMultipleAtLeastDivisor(d, k - 1);
      assert d * k == d * (k - 1) + d;
    }
  }

  lemma MultipleAtLeastDivisor(d: int, k: int)
    requires d > 0 && k != 0
    ensures Abs(d * k) >= d
  {
    if k > 0 {
      PositiveMultipleAtLeastDivisor(d, k);
    } else {
      PositiveMultipleAtLeastDivisor(d, -k);
      assert d * k == -(d * (-k));
    }
  }

  /** A multiple of `d` smaller than `d` in size is zero. */
  lemma SmallMultipleIsZero(d: int, k: int, e: int)
    requires d > 0 && e == d * k && Abs(e) < d
    ensures k == 0
  {
    if k != 0 {
      MultipleAtLeastDivisor(d, k);
    }
  }

  /** A remainder below the divisor in size, agreeing in sign with the
      dividend and differing from it by a multiple of the divisor is the one
      JavaScript computes. */
  lemma JsRemUnique(x: int, d: int, q: int, r: int)
    requires d > 0
    requires x == d * q + r
    requires Abs(r) < d
    requires r == 0 || (r < 0 <==> x < 0)
    ensures r == JsRem(x, d) && q == TruncQuot(x, d)
  {
    var s := JsRem(x, d);
    var q2 := TruncQuot(x, d);
    assert x == d * q2 + s;
    // r and s lie on the same side of zero, so their distance is below d
    assert Abs(s - r) < d;
    assert d * q - d * q2 == d * (q - q2);
    SmallMultipleIsZero(d, q - q2, s - r);
  }

  /** On a non-negative dividend JavaScript's and Dafny's remainders agree. */
  lemma JsRemNonNegative(x: int, d: int)
    requires d > 0 && x >= 0
    ensures JsRem(x, d) == x % d
  {
  }

  /** Negating the dividend negates JavaScript's remainder. */
  lemma JsRemNegate(x: int, d: int)
    requires d > 0
    ensures JsRem(-x, d) == -JsRem(x, d)
  {
  }

  /** The tool's result object `{ result }`. */
  datatype CalculationOutput = CalculationOutput(result: int)

  /** `execute({a, b})`, on integer inputs. */
  function Execute(a: int, b: int): (out: CalculationOutput)
    ensures -10 < out.result < 10
    ensures out.result == 0 || (out.result < 0 <==> a + b < 0)
    ensures a + b == 10 * TruncQuot(a + b, 10) + out.result
    ensures a + b >= 0 ==> out.result == (a + b) % 10
  {
    CalculationOutput(JsRem(a + b, 10))
  }

  /** A negative sum gives a negative result: -3 + -4 yields -7, where
      Dafny's `%` would give 3. */
  lemma {:induction false} ExecuteNegativeSum()
    ensures Execute(-3, -4).result == -7
  {
    JsRemUnique(-7, 10, 0, -7);
  }
}
