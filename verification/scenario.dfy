/** The scenario runway loop `calculate_runway` and its three calls
    (saas_runway_calculator.py lines 43-53). Growth and churn are whole
    percentages, divided by 100 inside the loop. */
module Scenario {
  import opened RealMath

  /** The revenue every scenario starts from, hard-coded at each call. */
  const Seed: real := 100000.0

  /** One loop iteration: grow by the growth rate, then lose the churn rate. */
  function Step(revenue: real, growthRate: real, churnRate: real): real
  {
    revenue * (1.0 + growthRate / 100.0) * (1.0 - churnRate / 100.0)
  }

  /** The per-iteration factor (1 + g/100)(1 - c/100). */
  function Factor(growthRate: real, churnRate: real): real
  {
    (1.0 + growthRate / 100.0) * (1.0 - churnRate / 100.0)
  }

  /** The revenue after k loop iterations. */
  function Iterate(revenue: real, growthRate: real, churnRate: real, k: nat): real
  {
    if k == 0 then revenue else Step(Iterate(revenue, growthRate, churnRate, k - 1), growthRate, churnRate)
  }

  /** The loop stops: some iterate is at most the burn rate. The loop has no
      cap, so this is exactly the condition under which it terminates. */
  ghost predicate Reaches(revenue: real, burnRate: real, growthRate: real, churnRate: real)
  {
    exists k: nat :: Iterate(revenue, growthRate, churnRate, k) <= burnRate
  }

  /** `months` is the loop's answer: after that many multiplications the
      revenue is at most the burn rate, and before each of them it was above. */
  predicate IsRunway(revenue: real, burnRate: real, growthRate: real, churnRate: real, months: nat)
  {
    && Iterate(revenue, growthRate, churnRate, months) <= burnRate
    && forall k: nat :: k < months ==> Iterate(revenue, growthRate, churnRate, k) > burnRate
  }

  /** Some number of iterations after which the revenue is at most the burn
      rate; it bounds the loop below. */
  ghost function Bound(revenue: real, burnRate: real, growthRate: real, churnRate: real): (k: nat)
    requires Reaches(revenue, burnRate, growthRate, churnRate)
    ensures Iterate(revenue, growthRate, churnRate, k) <= burnRate
  {
    var k: nat :| Iterate(revenue, growthRate, churnRate, k) <= burnRate; k
  }

  /** calculate_runway: multiply while the revenue exceeds the burn rate and
      count the multiplications. Callable only when the loop terminates; a
      revenue already at or below the burn rate gives 0, since IsRunway
      forbids any earlier iterate at or below it. */
  method CalculateRunway(revenue: real, burnRate: real, growthRate: real, churnRate: real) returns (months: nat)
    requires Reaches(revenue, burnRate, growthRate, churnRate)
    ensures IsRunway(revenue, burnRate, growthRate, churnRate, months)
  {
    var current := revenue;
    months := 0;
    while current > burnRate
      invariant months <= Bound(revenue, burnRate, growthRate, churnRate)
      invariant current == Iterate(revenue, growthRate, churnRate, months)
      invariant forall k: nat :: k < months ==> Iterate(revenue, growthRate, churnRate, k) > burnRate
      decreases Bound(revenue, burnRate, growthRate, churnRate) - months
    {
      current := Step(current, growthRate, churnRate);
      months := months + 1;
    }
  }

  // ----- Termination -----

  lemma StepScales(revenue: real, growthRate: real, churnRate: real)
    ensures Step(revenue, growthRate, churnRate) == revenue * Factor(growthRate, churnRate)
  {
    var a, b := 1.0 + growthRate / 100.0, 1.0 - churnRate / 100.0;
    assert revenue * a * b == revenue * (a * b);
  }

  /** The k-th iterate is the starting revenue times the factor to the k. */
  lemma {:induction false} IterateClosedForm(revenue: real, growthRate: real, churnRate: real, k: nat)
    ensures Iterate(revenue, growthRate, churnRate, k) == revenue * Pow(Factor(growthRate, churnRate), k)
  {
    if k > 0 {
      var f := Factor(growthRate, churnRate);
      IterateClosedForm(revenue, growthRate, churnRate, k - 1);
      StepScales(Iterate(revenue, growthRate, churnRate, k - 1), growthRate, churnRate);
      assert (revenue * Pow(f, k - 1)) * f == revenue * (f * Pow(f, k - 1));
    }
  }

  /** The loop terminates whenever the burn rate is positive and each
      iteration shrinks the revenue (factor below 1). */
  lemma TerminatesWhenShrinking(revenue: real, burnRate: real, growthRate: real, churnRate: real)
    requires burnRate > 0.0 && Factor(growthRate, churnRate) < 1.0
    ensures Reaches(revenue, burnRate, growthRate, churnRate)
  {
    var f := Factor(growthRate, churnRate);
    if revenue <= burnRate {
      assert Iterate(revenue, growthRate, churnRate, 0) <= burnRate;
    } else if f < 0.0 {
      IterateClosedForm(revenue, growthRate, churnRate, 1);
      assert revenue * f < 0.0;
      assert Iterate(revenue, growthRate, churnRate, 1) <= burnRate;
    } else {
      var k := EnoughIterations(revenue, burnRate, f);
      IterateClosedForm(revenue, growthRate, churnRate, k);
      assert Iterate(revenue, growthRate, churnRate, k) <= burnRate;
    }
  }

  /** A number of multiplications by f in [0, 1) that brings a revenue above
      a positive burn rate down to it. */
  lemma EnoughIterations(revenue: real, burnRate: real, f: real) returns (k: nat)
    requires 0.0 < burnRate < revenue && 0.0 <= f < 1.0
    ensures revenue * Pow(f, k) <= burnRate
  {
    var u := 1.0 - f;
    var c := u * burnRate;
    assert c > 0.0;
    var x := (revenue - burnRate) / c;
    assert x * c == revenue - burnRate;
    assert x > 0.0;
    k := x.Floor + 1;
    var kr := k as real;
    assert kr > x;
    assert kr * c > revenue - burnRate by {
      assert kr * c - x * c == (kr - x) * c;
      assert (kr - x) * c > 0.0;
    }
    assert kr * u * burnRate == kr * c;
    var d := 1.0 + kr * u;
    assert burnRate * d > revenue;
    PowShrinks(f, k);
    PowNonNegative(f, k);
    BelowAfterShrinking(revenue, burnRate, Pow(f, k), d);
  }

  lemma BelowAfterShrinking(revenue: real, burnRate: real, p: real, d: real)
    requires revenue > 0.0 && p >= 0.0 && d > 0.0
    requires p * d <= 1.0 && burnRate * d > revenue
    ensures revenue * p <= burnRate
  {
    MulLeft(revenue, p * d, 1.0);
    assert (revenue * p) * d <= revenue;
    assert (revenue * p - burnRate) * d < 0.0;
  }

  /** Conversely, with a non-negative burn rate, a revenue above it and a
      factor of at least 1, no iterate ever drops to the burn rate: the loop
      never terminates. */
  lemma NeverTerminatesWhenGrowing(revenue: real, burnRate: real, growthRate: real, churnRate: real)
    requires 0.0 <= burnRate < revenue && Factor(growthRate, churnRate) >= 1.0
    ensures !Reaches(revenue, burnRate, growthRate, churnRate)
  {
    forall k: nat
      ensures Iterate(revenue, growthRate, churnRate, k) > burnRate
    {
      IterateNeverShrinks(revenue, growthRate, churnRate, k);
    }
  }

  /** With no positive burn rate, a positive revenue and a positive factor,
      every iterate stays positive, so none reaches the burn rate and the
      loop never terminates, however small the factor. */
  lemma NeverTerminatesWithoutBurn(revenue: real, burnRate: real, growthRate: real, churnRate: real)
    requires burnRate <= 0.0 < revenue && Factor(growthRate, churnRate) > 0.0
    ensures !Reaches(revenue, burnRate, growthRate, churnRate)
  {
    forall k: nat
      ensures Iterate(revenue, growthRate, churnRate, k) > burnRate
    {
      IterateClosedForm(revenue, growthRate, churnRate, k);
      PowPositive(Factor(growthRate, churnRate), k);
      assert revenue * Pow(Factor(growthRate, churnRate), k) > 0.0;
    }
  }

  /** A zero burn rate with no growth and the default 5% churn: the revenue
      shrinks by 5% per iteration but never reaches 0, so the loop hangs. */
  lemma ZeroBurnHangs()
    ensures !Reaches(Seed, 0.0, 0.0, 5.0)
  {
    NeverTerminatesWithoutBurn(Seed, 0.0, 0.0, 5.0);
  }

  lemma {:induction false} IterateNeverShrinks(revenue: real, growthRate: real, churnRate: real, k: nat)
    requires revenue > 0.0 && Factor(growthRate, churnRate) >= 1.0
    ensures Iterate(revenue, growthRate, churnRate, k) >= revenue
  {
    if k > 0 {
      var prev := Iterate(revenue, growthRate, churnRate, k - 1);
      IterateNeverShrinks(revenue, growthRate, churnRate, k - 1);
      StepScales(prev, growthRate, churnRate);
      MulLeft(prev, 1.0, Factor(growthRate, churnRate));
    }
  }

  /** The default scenario inputs (growth 5%, 15%, 25%, churn 5%, burn
      50000 + 10000 + 5000 + 2000): the pessimistic loop terminates, the
      realistic and optimistic loops never do. */
  lemma DefaultScenarios()
    ensures Reaches(Seed, 67000.0, 5.0, 5.0)
    ensures !Reaches(Seed, 67000.0, 15.0, 5.0)
    ensures !Reaches(Seed, 67000.0, 25.0, 5.0)
  {
    TerminatesWhenShrinking(Seed, 67000.0, 5.0, 5.0);
    NeverTerminatesWhenGrowing(Seed, 67000.0, 15.0, 5.0);
    NeverTerminatesWhenGrowing(Seed, 67000.0, 25.0, 5.0);
  }

  // ----- Monotonicity -----

  /** The loop's answer is unique. */
  lemma RunwayUnique(revenue: real, burnRate: real, growthRate: real, churnRate: real, m1: nat, m2: nat)
    requires IsRunway(revenue, burnRate, growthRate, churnRate, m1)
    requires IsRunway(revenue, burnRate, growthRate, churnRate, m2)
    ensures m1 == m2
  {
  }

  /** A higher burn rate never lengthens the runway. */
  lemma RunwayAntitoneInBurn(revenue: real, b1: real, b2: real, growthRate: real, churnRate: real, m1: nat, m2: nat)
    requires b1 <= b2
    requires IsRunway(revenue, b1, growthRate, churnRate, m1)
    requires IsRunway(revenue, b2, growthRate, churnRate, m2)
    ensures m2 <= m1
  {
  }

  /** With a non-negative factor, iterates keep the order of their seeds. */
  lemma {:induction false} IterateMonotoneInSeed(r1: real, r2: real, growthRate: real, churnRate: real, k: nat)
    requires r1 <= r2 && Factor(growthRate, churnRate) >= 0.0
    ensures Iterate(r1, growthRate, churnRate, k) <= Iterate(r2, growthRate, churnRate, k)
  {
    if k > 0 {
      IterateMonotoneInSeed(r1, r2, growthRate, churnRate, k - 1);
      StepMonotone(Iterate(r1, growthRate, churnRate, k - 1), Iterate(r2, growthRate, churnRate, k - 1), growthRate, churnRate);
    }
  }

  lemma StepMonotone(a: real, b: real, growthRate: real, churnRate: real)
    requires a <= b && Factor(growthRate, churnRate) >= 0.0
    ensures Step(a, growthRate, churnRate) <= Step(b, growthRate, churnRate)
  {
    StepScales(a, growthRate, churnRate);
    StepScales(b, growthRate, churnRate);
    MulRight(a, b, Factor(growthRate, churnRate));
  }

  /** With a non-negative factor, a larger starting revenue never shortens
      the runway. */
  lemma RunwayMonotoneInSeed(r1: real, r2: real, burnRate: real, growthRate: real, churnRate: real, m1: nat, m2: nat)
    requires r1 <= r2 && Factor(growthRate, churnRate) >= 0.0
    requires IsRunway(r1, burnRate, growthRate, churnRate, m1)
    requires IsRunway(r2, burnRate, growthRate, churnRate, m2)
    ensures m1 <= m2
  {
    IterateMonotoneInSeed(r1, r2, growthRate, churnRate, m2);
  }

  /** With churn at most 100% and a non-negative seed, a higher growth rate
      never shortens the runway: the scenarios are ordered as their rates. */
  lemma RunwayMonotoneInGrowth(seed: real, burnRate: real, g1: real, g2: real, churnRate: real, m1: nat, m2: nat)
    requires seed >= 0.0 && g1 <= g2 && churnRate <= 100.0 && Factor(g1, churnRate) >= 0.0
    requires IsRunway(seed, burnRate, g1, churnRate, m1)
    requires IsRunway(seed, burnRate, g2, churnRate, m2)
    ensures m1 <= m2
  {
    var f1, f2 := Factor(g1, churnRate), Factor(g2, churnRate);
    assert f1 <= f2 by {
      MulLeft(1.0 - churnRate / 100.0, 1.0 + g1 / 100.0, 1.0 + g2 / 100.0);
    }
    IterateClosedForm(seed, g1, churnRate, m2);
    IterateClosedForm(seed, g2, churnRate, m2);
    PowMonotoneBase(f1, f2, m2);
    MulLeft(seed, Pow(f1, m2), Pow(f2, m2));
  }
}
