/** The series-scan runway and the advice branch it drives
    (saas_runway_calculator.py lines 115-121). */
module Runway {

  /** Which message the script shows under the runway figure. */
  datatype Advice = ExtendRunway | Secure

  /** Index of the first negative entry at or after position i, or
      `otherwise` when every entry from i on is non-negative. */
  function FirstNegativeFrom(cash: seq<real>, i: nat, otherwise: int): (r: int)
    requires i <= |cash|
    ensures
      || (i <= r < |cash| && cash[r] < 0.0 && forall j :: i <= j < r ==> cash[j] >= 0.0)
      || (r == otherwise && forall j :: i <= j < |cash| ==> cash[j] >= 0.0)
    decreases |cash| - i
  {
    if i == |cash| then otherwise
    else if cash[i] < 0.0 then i
    else FirstNegativeFrom(cash, i + 1, otherwise)
  }

  /** Months of runway: the index of the first negative cash entry, or the
      horizon when there is none. When the series covers exactly the
      horizon, the result lies in 0..months, every entry before it is
      non-negative, and a result short of the horizon is a negative entry. */
  function RunwayMonths(cash: seq<real>, months: int): (r: int)
    ensures |cash| == months ==> 0 <= r <= months
    ensures |cash| == months ==> forall j :: 0 <= j < r ==> cash[j] >= 0.0
    ensures |cash| == months && r < months ==> cash[r] < 0.0
  {
    FirstNegativeFrom(cash, 0, months)
  }

  /** The warning is shown when the runway falls short of the horizon. When
      the series covers exactly the horizon, that is precisely when some
      cash entry is negative, and the success message precisely when none is. */
  function AdviceFor(cash: seq<real>, months: int): (a: Advice)
    ensures |cash| == months ==> (a == ExtendRunway <==> exists j :: 0 <= j < |cash| && cash[j] < 0.0)
    ensures |cash| == months ==> (a == Secure <==> forall j :: 0 <= j < |cash| ==> cash[j] >= 0.0)
  {
    if RunwayMonths(cash, months) < months then ExtendRunway else Secure
  }

  /** Conversely, the first negative entry is the runway, whichever it is. */
  lemma RunwayIsFirstDeficit(cash: seq<real>, months: int, k: nat)
    requires |cash| == months && k < months && cash[k] < 0.0
    requires forall j :: 0 <= j < k ==> cash[j] >= 0.0
    ensures RunwayMonths(cash, months) == k
  {
  }

  /** A series with no negative entry has the whole horizon as runway. */
  lemma SolventSeriesHasFullRunway(cash: seq<real>, months: int)
    requires |cash| == months
    requires forall j :: 0 <= j < |cash| ==> cash[j] >= 0.0
    ensures RunwayMonths(cash, months) == months
  {
  }
}
