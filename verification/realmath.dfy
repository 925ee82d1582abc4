/** Real powers and the few facts about them that the projection and the
    scenario loop need. */
module RealMath {

  /** x raised to the natural power k. */
  function Pow(x: real, k: nat): real
  {
    if k == 0 then 1.0 else x * Pow(x, k - 1)
  }

  lemma MulLeft(a: real, x: real, y: real)
    requires a >= 0.0 && x <= y
    ensures a * x <= a * y
  {
    assert a * y - a * x == a * (y - x);
  }

  lemma MulRight(x: real, y: real, a: real)
    requires a >= 0.0 && x <= y
    ensures x * a <= y * a
  {
    assert y * a - x * a == (y - x) * a;
  }

  lemma {:induction false} PowNonNegative(x: real, k: nat)
    requires x >= 0.0
    ensures Pow(x, k) >= 0.0
  {
    if k > 0 {
      PowNonNegative(x, k - 1);
      MulLeft(x, 0.0, Pow(x, k - 1));
    }
  }

  /** A positive base stays positive under every power. */
  lemma {:induction false} PowPositive(x: real, k: nat)
    requires x > 0.0
    ensures Pow(x, k) > 0.0
  {
    if k > 0 {
      PowPositive(x, k - 1);
      assert x * Pow(x, k - 1) > 0.0;
    }
  }

  /** Raising to a power is monotone in a non-negative base. */
  lemma {:induction false} PowMonotoneBase(a: real, b: real, k: nat)
    requires 0.0 <= a <= b
    ensures Pow(a, k) <= Pow(b, k)
  {
    if k > 0 {
      PowMonotoneBase(a, b, k - 1);
      PowNonNegative(a, k - 1);
      MulLeft(a, Pow(a, k - 1), Pow(b, k - 1));
      PowNonNegative(b, k - 1);
      assert a * Pow(b, k - 1) <= b * Pow(b, k - 1) by {
        MulLeft(Pow(b, k - 1), a, b);
      }
    }
  }

  /** A Bernoulli-style bound: for 0 <= f <= 1, f^k <= 1 / (1 + k(1 - f)). */
  lemma {:induction false} PowShrinks(f: real, k: nat)
    requires 0.0 <= f <= 1.0
    ensures Pow(f, k) * (1.0 + (k as real) * (1.0 - f)) <= 1.0
  {
    if k > 0 {
      var u := 1.0 - f;
      var j := (k - 1) as real;
      var p := Pow(f, k - 1);
      PowShrinks(f, k - 1);
      PowNonNegative(f, k - 1);
      assert f * (1.0 + (j + 1.0) * u) <= 1.0 + j * u by {
        assert f * (1.0 + (j + 1.0) * u) == 1.0 + j * u - (j + 1.0) * u * u;
        assert (j + 1.0) * u * u >= 0.0 by { MulLeft(j + 1.0, 0.0, u * u); }
      }
      calc {
        Pow(f, k) * (1.0 + (k as real) * u);
        (f * p) * (1.0 + (j + 1.0) * u);
        p * (f * (1.0 + (j + 1.0) * u));
      <= { MulLeft(p, f * (1.0 + (j + 1.0) * u), 1.0 + j * u); }
        p * (1.0 + j * u);
      <=
        1.0;
      }
    }
  }
}
