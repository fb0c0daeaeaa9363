/** Compound growth over integer ticks.

    An annual interest rate is represented by its real per-tick multiplier `q > 0`, so that
    the exponential `exp(k * t)` of the program becomes the power `Pow(q, t)`.  The order of
    rates is the order of multipliers: 0% is `1.0`, demurrage lies below, and -100% is `0.0`.
 */
module Growth {

  function Pow(q: real, t: nat): real {
    if t == 0 then 1.0 else q * Pow(q, t - 1)
  }

  /** Ticks passed between two moments, counting none when the clock seems to run backwards. */
  function Elapsed(from: int, to: int): nat {
    if to > from then to - from else 0
  }

  lemma MulMonotone(a: real, b: real, c: real)
    requires a <= b && 0.0 <= c
    ensures a * c <= b * c && c * a <= c * b
  {
  }

  lemma MulPositive(a: real, b: real)
    requires 0.0 < a && 0.0 < b
    ensures 0.0 < a * b
  {
  }

  lemma {:induction false} PowPositive(q: real, t: nat)
    requires 0.0 < q
    ensures 0.0 < Pow(q, t)
  {
    if t > 0 {
      PowPositive(q, t - 1);
      MulPositive(q, Pow(q, t - 1));
    }
  }

  /** The semigroup law: growth over a period is the product of the growth over its parts. */
  lemma {:induction false} PowAdd(q: real, s: nat, t: nat)
    ensures Pow(q, s + t) == Pow(q, s) * Pow(q, t)
  {
    if s > 0 {
      PowAdd(q, s - 1, t);
      assert Pow(q, s + t) == q * Pow(q, s - 1 + t);
      assert q * (Pow(q, s - 1) * Pow(q, t)) == (q * Pow(q, s - 1)) * Pow(q, t);
    }
  }

  lemma {:induction false} PowMonotone(p: real, q: real, t: nat)
    requires 0.0 < p <= q
    ensures Pow(p, t) <= Pow(q, t)
  {
    if t > 0 {
      PowMonotone(p, q, t - 1);
      PowPositive(p, t - 1);
      MulMonotone(Pow(p, t - 1), Pow(q, t - 1), p);
      PowPositive(q, t - 1);
      MulMonotone(p, q, Pow(q, t - 1));
    }
  }

  lemma {:induction false} PowOfOne(t: nat)
    ensures Pow(1.0, t) == 1.0
  {
    if t > 0 {
      PowOfOne(t - 1);
    }
  }

  lemma PowAtMostOne(q: real, t: nat)
    requires 0.0 < q <= 1.0
    ensures 0.0 < Pow(q, t) <= 1.0
  {
    PowPositive(q, t);
    PowMonotone(q, 1.0, t);
    PowOfOne(t);
  }

  /** A period moves a balance down, keeps it, or moves it up exactly as the rate says. */
  lemma {:induction false} PowSign(q: real, t: nat)
    requires 0.0 < q && 0 < t
    ensures Pow(q, t) < 1.0 <==> q < 1.0
    ensures Pow(q, t) == 1.0 <==> q == 1.0
  {
    if t == 1 {
      assert Pow(q, 1) == q * Pow(q, 0);
    } else {
      PowSign(q, t - 1);
      var rest := Pow(q, t - 1);
      PowPositive(q, t - 1);
      if q < 1.0 {
        MulMonotone(q, 1.0, rest);
      } else {
        MulMonotone(1.0, q, rest);
        if q > 1.0 {
          assert rest > 1.0;
        }
      }
    }
  }
}
