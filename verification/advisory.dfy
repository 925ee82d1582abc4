/** The burn-rate total and the LTV/CAC health check
    (saas_runway_calculator.py lines 29-34 and 71-75). */
module Advisory {

  /** A computation that either yields a value or raises ZeroDivisionError,
      which ends the script. */
  datatype Result<T> = Ok(value: T) | ZeroDivisionError

  /** The four named monthly cost components. */
  datatype BurnBreakdown = BurnBreakdown(salaries: real, marketing: real, infrastructure: real, misc: real)

  /** The components in input order. */
  function Components(b: BurnBreakdown): seq<real>
  {
    [b.salaries, b.marketing, b.infrastructure, b.misc]
  }

  /** Sum of a list of amounts. */
  function Sum(xs: seq<real>): real
  {
    if |xs| == 0 then 0.0 else xs[0] + Sum(xs[1..])
  }

  /** Total monthly burn: the sum of the four components. With no negative
      component it is at least each of them. */
  function TotalBurn(b: BurnBreakdown): (total: real)
    ensures total == Sum(Components(b))
    ensures (forall i :: 0 <= i < 4 ==> Components(b)[i] >= 0.0) ==>
              forall i :: 0 <= i < 4 ==> total >= Components(b)[i]
  {
    var xs := Components(b);
    assert Sum(xs[3..]) == b.misc by { assert xs[3..][1..] == []; }
    assert Sum(xs[2..]) == b.infrastructure + b.misc by { assert xs[2..][1..] == xs[3..]; }
    assert Sum(xs[1..]) == b.marketing + b.infrastructure + b.misc by { assert xs[1..][1..] == xs[2..]; }
    b.salaries + b.marketing + b.infrastructure + b.misc
  }

  /** Ratios strictly above this are healthy. */
  const HealthyThreshold: real := 3.0

  /** ltv / cac; Python raises ZeroDivisionError when cac is 0. A successful
      result is the unique value that multiplied by cac gives back ltv. */
  function ProfitabilityRatio(ltv: real, cac: real): (r: Result<real>)
    ensures r.ZeroDivisionError? <==> cac == 0.0
    ensures r.Ok? ==> r.value * cac == ltv
  {
    if cac == 0.0 then ZeroDivisionError else Ok(ltv / cac)
  }

  /** Whether the "healthy position" message shows: the ratio exceeds 3.
      For a positive cac that is ltv > 3 cac; for a negative one the
      inequality flips. */
  function RatioIsHealthy(ltv: real, cac: real): (r: Result<bool>)
    ensures r.ZeroDivisionError? <==> cac == 0.0
    ensures cac > 0.0 ==> r == Ok(ltv > HealthyThreshold * cac)
    ensures cac < 0.0 ==> r == Ok(ltv < HealthyThreshold * cac)
  {
    match ProfitabilityRatio(ltv, cac)
    case ZeroDivisionError => ZeroDivisionError
    case Ok(ratio) =>
      assert ratio * cac == ltv;
      assert cac > 0.0 ==> (ratio > HealthyThreshold <==> ltv > HealthyThreshold * cac) by {
        if cac > 0.0 {
          assert (ratio - HealthyThreshold) * cac == ltv - HealthyThreshold * cac;
        }
      }
      assert cac < 0.0 ==> (ratio > HealthyThreshold <==> ltv < HealthyThreshold * cac) by {
        if cac < 0.0 {
          assert (ratio - HealthyThreshold) * cac == ltv - HealthyThreshold * cac;
        }
      }
      Ok(ratio > HealthyThreshold)
  }

  /** The widget defaults (CAC 200, LTV 1000) give a healthy ratio of 5;
      raising CAC to 500 gives a ratio of 2, which is not healthy. */
  lemma RatioExamples()
    ensures RatioIsHealthy(1000.0, 200.0) == Ok(true)
    ensures RatioIsHealthy(1000.0, 500.0) == Ok(false)
  {
  }
}
