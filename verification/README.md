# SaaS runway calculator — a Dafny model

The calculator is a single script. It reads financial assumptions from its
widgets, estimates a runway for three growth scenarios, checks the LTV/CAC
ratio, and projects revenue, expenses and cash month by month. It then reports
the first month whose cash is negative. Here every value the script reads
from a widget becomes an argument, and each computation becomes a Dafny
function, method or lemma over those arguments. All arithmetic is over
`real`.

Modules:

- `Cashflow` (`cashflow.dfy`): the projection. `ProjectTo` is the loop as a
  recursive function returning three index-aligned `seq<real>`.
  `RevenueAt`, `ExpensesAt` and `CashAt` are month-indexed reference
  definitions. The lemmas cover compounding, closed forms, the one-time
  funding injection at loop index 6, and growth monotonicity.
- `Runway` (`runway.dfy`): the first-negative-index scan, and the
  warning/success branch it drives.
- `Scenario` (`scenario.dfy`): `calculate_runway` as a `while` loop. Its
  precondition is the exact termination condition: some iterate falls to
  the burn rate. The loop has no cap and the model adds none. Lemmas give a
  sufficient condition for termination, a condition for non-termination, and
  monotonicity in the burn rate, the seed and the growth rate.
- `Advisory` (`advisory.dfy`): the total burn and the LTV/CAC check.
  `ltv / cac` raises `ZeroDivisionError` when `cac` is 0, modelled as a
  `Result`.
- `Calculator` (`calculator.dfy`): the whole script in source order, from
  one input record to one report.
- `RealMath` (`realmath.dfy`): powers of reals and the bounds the proofs use.

Rate conventions follow the code. The projection takes growth rates as
fractions, because the caller divides the slider value by 100.
`calculate_runway` takes whole percentages and divides by 100 inside the loop.

What the proofs show about the code as written:

- With the default inputs, the realistic and optimistic scenario loops never
  terminate (`Scenario.DefaultScenarios`). The defaults are growth 15% and
  25%, churn 5%, and burn 67000. Each iteration multiplies the revenue by
  1.0925 or 1.1875, starting from 100000, so it never drops to 67000. The
  pessimistic loop (growth 5%) does terminate.
- The warning branch means "some cash entry is negative" only when the series
  has exactly `months` entries, and the time-frame slider guarantees this
  (`months >= 1`). For `months < 1` the lists keep their seed entry. Taken
  alone, lines 115-121 would then choose the success branch even for a
  negative starting balance. The script never gets there, though: the plot
  call at line 102 receives an empty x-axis and a one-entry list, and raises
  an error first.

Other properties of the code that shape the model:

- The scenario loop has no iteration cap and no separate result for a loop
  that never ends. The model
  therefore makes termination a precondition of `Scenario.CalculateRunway`
  rather than inventing a cap. In exact arithmetic, a burn rate of 0 or less
  with a positive factor also makes the loop hang, even when every iteration
  shrinks the revenue (`Scenario.NeverTerminatesWithoutBurn`).
- `ltv / cac` is unguarded. A CAC of 0 raises `ZeroDivisionError`, which ends
  the script, and the model returns that error.
- The scenario loop has a single update rule: the revenue, seeded with
  100000, is multiplied by the factor and compared against the burn rate.
- A larger seed never shortens the scenario runway only when the factor is
  non-negative. With burn -100 and factor -2, seed 10 gives 5 iterations
  (10, -20, 40, -80, 160, -320) while seed 100 gives 1 (100, -200).

## Model

| member | source | states |
|---|---|---|
| Cashflow.ProjectTo | saas_runway_calculator.py:78-97 | after n-1 loop iterations each list has n entries, and entry t equals the month-t reference value for revenue, expenses and cash |
| Cashflow.Project | saas_runway_calculator.py:78-97 | the three projected lists are index-aligned, with exactly `months` entries for months >= 1 and exactly the single seed entry for months < 1 (the loop range is empty); index 0 holds the starting revenue, expenses and cash |
| Cashflow.Recurrence | saas_runway_calculator.py:84-97 | for every t >= 1, revenue and expenses are the previous entry times (1 + rate), and cash is the previous cash plus the new revenue minus the new expenses, plus the injection only at t == 6; nothing is clamped |
| Cashflow.RevenueClosedForm | saas_runway_calculator.py:84 | compounding off the previous value gives revenue[t] = starting revenue * (1 + rate)^t |
| Cashflow.ExpensesClosedForm | saas_runway_calculator.py:85 | expenses[t] = starting expenses * (1 + rate)^t |
| Cashflow.CashClosedForm | saas_runway_calculator.py:88-97 | cash[t] = starting cash + sum over months 1..t of (revenue - expenses) + the injection once t >= 6 |
| Cashflow.PrefixStable | saas_runway_calculator.py:82-93 | a longer horizon only appends entries; the first m entries are unchanged |
| Cashflow.FundingOnlyShiftsCash | saas_runway_calculator.py:84-97 | revenue and expenses never depend on the injection; changing it shifts cash[t] by exactly the change in funding received by month t |
| Cashflow.InjectionCarriedForward | saas_runway_calculator.py:96-97 | each cash entry with index >= 6 equals the no-injection entry plus exactly the injection, earlier entries equal the no-injection entry, and revenue and expenses are unaffected |
| Cashflow.EarlyCashIgnoresInjection | saas_runway_calculator.py:96-97 | cash entries before index 6 are the same for every injection amount |
| Cashflow.ShortHorizonIgnoresInjection | saas_runway_calculator.py:82-97 | with months <= 6 the whole projection is the same for every injection amount |
| Cashflow.CompoundingStaysNonNegative | saas_runway_calculator.py:84-85 | non-negative rates keep non-negative starting revenue and expenses non-negative in every month |
| Cashflow.GrowthNeverShrinks | saas_runway_calculator.py:84-85 | with non-negative rates and starting values, revenue and expenses are non-decreasing along the series |
| Cashflow.ExampleMonthOne | saas_runway_calculator.py:84-88 | cash 100000, revenue 20000 at 5%, expenses 15000 at 3%: month 1 cash is 105550 |
| Runway.FirstNegativeFrom | saas_runway_calculator.py:115 | the result is either the first index at or after i holding a negative value, with every earlier index non-negative, or the default value when no such index exists |
| Runway.RunwayMonths | saas_runway_calculator.py:115 | when the series has `months` entries, 0 <= r <= months, every entry before r is >= 0, and r < months implies cash[r] < 0 |
| Runway.RunwayIsFirstDeficit | saas_runway_calculator.py:115 | conversely, the first negative entry's index is the runway |
| Runway.SolventSeriesHasFullRunway | saas_runway_calculator.py:115 | a series with no negative entry has runway equal to the horizon |
| Runway.AdviceFor | saas_runway_calculator.py:118-121 | the warning branch is taken iff some cash entry is negative, and the success branch iff all entries are >= 0 |
| Scenario.CalculateRunway | saas_runway_calculator.py:43-48 | if the loop terminates, the result is the number of multiplications applied: the final iterate is <= burn_rate, and every earlier iterate was > burn_rate (so a revenue already at or below burn_rate gives 0) |
| Scenario.StepScales | saas_runway_calculator.py:46 | one iteration multiplies the revenue by the factor (1 + g/100)(1 - c/100) |
| Scenario.IterateClosedForm | saas_runway_calculator.py:46-47 | after k iterations the revenue is the seed times the factor to the power k |
| Scenario.TerminatesWhenShrinking | saas_runway_calculator.py:45-47 | the loop terminates when burn_rate > 0 and the factor is below 1 (this covers the factor range [0, 1)) |
| Scenario.NeverTerminatesWhenGrowing | saas_runway_calculator.py:45-47 | with 0 <= burn_rate < revenue and a factor >= 1, no iterate ever reaches burn_rate, so the loop never terminates |
| Scenario.NeverTerminatesWithoutBurn | saas_runway_calculator.py:45-47 | with burn_rate <= 0 < revenue and a positive factor, every iterate stays positive, so none reaches burn_rate and the loop never terminates |
| Scenario.ZeroBurnHangs | saas_runway_calculator.py:45-47 | burn 0, growth 0 and churn 5% from seed 100000: the loop never terminates |
| Scenario.DefaultScenarios | saas_runway_calculator.py:51-53 | with the default inputs, the pessimistic call terminates and the realistic and optimistic calls never do |
| Scenario.RunwayUnique | saas_runway_calculator.py:43-48 | the loop's answer is determined by its inputs |
| Scenario.RunwayAntitoneInBurn | saas_runway_calculator.py:43-48 | a larger burn rate never gives a larger result |
| Scenario.RunwayMonotoneInSeed | saas_runway_calculator.py:43-48 | with a non-negative factor, a larger starting revenue never gives a smaller result |
| Scenario.RunwayMonotoneInGrowth | saas_runway_calculator.py:51-53 | with churn <= 100%, a non-negative seed and a non-negative factor at the lower growth rate (growth >= -100% whenever churn < 100%), a higher growth rate never gives a smaller result, so ordered scenario rates give ordered runways |
| Advisory.TotalBurn | saas_runway_calculator.py:34 | the total burn is the sum of the four components, and with no negative component it is at least each of them |
| Advisory.ProfitabilityRatio | saas_runway_calculator.py:71 | the division fails exactly when cac == 0; otherwise the ratio times cac gives back ltv |
| Advisory.RatioIsHealthy | saas_runway_calculator.py:71-75 | fails exactly when cac == 0; for cac > 0 the healthy branch is taken iff ltv > 3 cac, and for cac < 0 iff ltv < 3 cac |
| Advisory.RatioExamples | saas_runway_calculator.py:71-75 | CAC 200 with LTV 1000 is healthy; CAC 500 with LTV 1000 is not |
| Calculator.RunScript | saas_runway_calculator.py:34-121 | one run stops with ZeroDivisionError exactly when cac == 0; otherwise each of the three scenario runways is the loop's answer for seed 100000 against the total burn, the series has `months` entries, the runway is the first month with negative cash (or the horizon), and the warning shows iff some cash entry is negative |

## Left out

- Widgets and output calls (saas_runway_calculator.py:1-12, 15-33, 35-41,
  55-58, and the display side of 116-121): these are I/O. Their values become parameters,
  and only the branch condition of the advice is modelled.
- Plotting with matplotlib and numpy (saas_runway_calculator.py:99-112):
  they only draw the three lists, and nothing they produce is read by the
  rest of the script.
- Cost-cutting suggestions (saas_runway_calculator.py:63-68): each is a bare
  `> 0` test that only chooses a message.
- IEEE floating point: all arithmetic is exact `real`, so rounding and
  overflow to infinity are not modelled.
- Scenario.NeverTerminatesWithoutBurn: holds for exact reals only. In
  doubles, with a burn of exactly 0, the iterate can round to 0.0 and end
  the loop (growth 0, churn 50). It can also stick at a positive subnormal
  and hang (growth 0, churn 5; growth 50, churn 67). Which happens depends
  on how each of the two products at line 46 rounds, not on the factor
  alone. With a negative burn the loop hangs in doubles too.
- The slider's percent-to-fraction division (saas_runway_calculator.py:13-14)
  is not modelled. The projection receives fractions.
  `Cashflow.SliderRanges` states the widget ranges: rates 0 to 0.2, months 1
  to 36.
- Calculator.RunScript: requires `Cashflow.SliderRanges`, which the sidebar
  widgets guarantee. It also requires that all three scenario loops
  terminate. A run that hangs in `calculate_runway` has no report to
  describe.
- Scenario.RunwayMonotoneInSeed: proved only for a non-negative factor; with
  a negative factor the iterates alternate in sign and the claim fails (the
  burn -100, factor -2 example above).
- Scenario.CalculateRunway: callable only when the loop terminates, which is
  exactly `Scenario.Reaches`. Inputs for which the code loops forever have no
  result. `Scenario.NeverTerminatesWhenGrowing` and
  `Scenario.NeverTerminatesWithoutBurn` give sufficient conditions for the
  loop to hang, but not every hanging input meets one of them. For example,
  revenue 100 with burn -1 and factor -0.5 hangs too.
- Runway.RunwayMonths: its bounds are stated only when the series has
  exactly `months` entries. That is always true for `months >= 1`, the only
  values the slider allows.
- Runway.AdviceFor: the iff is stated only when the series has exactly
  `months` entries. For `months < 1` the branch alone would show success
  despite a negative entry, but the script stops at the plot call before
  reaching it, as described above.
