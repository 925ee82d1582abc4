/** The month-by-month projection of revenue, expenses and cash on hand
    (saas_runway_calculator.py lines 78-97), as a pure function of the
    sidebar inputs. */
module Cashflow {
  import opened RealMath

  /** Loop index at which the one-time funding injection is added. */
  const InjectionMonth: nat := 6

  /** The sidebar inputs the projection reads. Growth rates are fractions
      per month: the sidebar slider's percentage is divided by 100 before
      it reaches the projection. */
  datatype Inputs = Inputs(
    monthlyRevenue: real,
    monthlyExpenses: real,
    currentCash: real,
    revenueGrowthRate: real,
    expenseGrowthRate: real,
    months: int,
    fundingInjection: real)

  /** Three index-aligned lists: entry t describes month t. */
  datatype Series = Series(revenues: seq<real>, expenses: seq<real>, cash: seq<real>)

  /** What the sidebar widgets can deliver: both growth sliders run from 0%
      to 20% and the time-frame slider from 1 to 36 months. */
  predicate SliderRanges(p: Inputs)
  {
    && 0.0 <= p.revenueGrowthRate <= 0.2
    && 0.0 <= p.expenseGrowthRate <= 0.2
    && 1 <= p.months <= 36
  }

  /** Number of entries the projection produces: the loop runs over
      range(1, months), so a horizon below 1 still leaves the seed entry. */
  function Horizon(p: Inputs): (n: nat)
    ensures n >= 1
    ensures p.months >= 1 ==> n == p.months
    ensures p.months < 1 ==> n == 1
  {
    if p.months >= 1 then p.months else 1
  }

  /** Amount added to the cash entry of loop index `month`. */
  function Injection(p: Inputs, month: int): real
  {
    if month == InjectionMonth then p.fundingInjection else 0.0
  }

  /** One month of compounding: the previous value times (1 + rate). */
  function Grow(previous: real, rate: real): real
  {
    previous * (1.0 + rate)
  }

  // ----- Month-indexed reference definitions -----

  /** Revenue of month t: each month the previous month's revenue grows
      by the revenue growth rate. */
  function RevenueAt(p: Inputs, t: nat): real
  {
    if t == 0 then p.monthlyRevenue else Grow(RevenueAt(p, t - 1), p.revenueGrowthRate)
  }

  /** Expenses of month t, compounding the same way. */
  function ExpensesAt(p: Inputs, t: nat): real
  {
    if t == 0 then p.monthlyExpenses else Grow(ExpensesAt(p, t - 1), p.expenseGrowthRate)
  }

  /** Cash of month t: the previous month's cash plus this month's revenue
      minus this month's expenses, plus the injection at month 6. */
  function CashAt(p: Inputs, t: nat): real
  {
    if t == 0 then p.currentCash
    else CashAt(p, t - 1) + RevenueAt(p, t) - ExpensesAt(p, t) + Injection(p, t)
  }

  /** Revenue minus expenses, summed over months 1..t. */
  function NetGain(p: Inputs, t: nat): real
  {
    if t == 0 then 0.0 else NetGain(p, t - 1) + RevenueAt(p, t) - ExpensesAt(p, t)
  }

  /** Funding received by month t: the injection once month 6 is reached. */
  function FundedBy(p: Inputs, t: nat): real
  {
    if t >= InjectionMonth then p.fundingInjection else 0.0
  }

  /** Cash never clamps: month t holds the starting cash plus every month's
      net gain so far plus the injection once month 6 is reached. */
  lemma {:induction false} CashClosedForm(p: Inputs, t: nat)
    ensures CashAt(p, t) == p.currentCash + NetGain(p, t) + FundedBy(p, t)
  {
    if t > 0 {
      CashClosedForm(p, t - 1);
    }
  }

  /** Compounding off the previous month is compounding off the base:
      month t's revenue is the starting revenue times (1 + rate)^t. */
  lemma {:induction false} RevenueClosedForm(p: Inputs, t: nat)
    ensures RevenueAt(p, t) == p.monthlyRevenue * Pow(1.0 + p.revenueGrowthRate, t)
  {
    if t > 0 {
      var x := 1.0 + p.revenueGrowthRate;
      RevenueClosedForm(p, t - 1);
      assert (p.monthlyRevenue * Pow(x, t - 1)) * x == p.monthlyRevenue * (x * Pow(x, t - 1));
    }
  }

  /** The same closed form for expenses. */
  lemma {:induction false} ExpensesClosedForm(p: Inputs, t: nat)
    ensures ExpensesAt(p, t) == p.monthlyExpenses * Pow(1.0 + p.expenseGrowthRate, t)
  {
    if t > 0 {
      var y := 1.0 + p.expenseGrowthRate;
      ExpensesClosedForm(p, t - 1);
      assert (p.monthlyExpenses * Pow(y, t - 1)) * y == p.monthlyExpenses * (y * Pow(y, t - 1));
    }
  }

  // ----- The projection -----

  /** The first n entries of the projection; entry n-1 is appended by the
      loop iteration month == n-1, off the previous entry. Every entry
      equals its reference value. */
  function ProjectTo(p: Inputs, n: nat): (s: Series)
    requires n >= 1
    ensures |s.revenues| == n && |s.expenses| == n && |s.cash| == n
    ensures forall t :: 0 <= t < n ==> s.revenues[t] == RevenueAt(p, t)
    ensures forall t :: 0 <= t < n ==> s.expenses[t] == ExpensesAt(p, t)
    ensures forall t :: 0 <= t < n ==> s.cash[t] == CashAt(p, t)
  {
    if n == 1 then
      Series([p.monthlyRevenue], [p.monthlyExpenses], [p.currentCash])
    else
      var prev := ProjectTo(p, n - 1);
      var month := n - 1;
      var newRevenue := Grow(prev.revenues[month - 1], p.revenueGrowthRate);
      var newExpenses := Grow(prev.expenses[month - 1], p.expenseGrowthRate);
      var cashLeft := prev.cash[month - 1] + newRevenue - newExpenses;
      var cashAfter := if month == InjectionMonth then cashLeft + p.fundingInjection else cashLeft;
      assert newRevenue == RevenueAt(p, month) by {
        assert prev.revenues[month - 1] == RevenueAt(p, month - 1);
      }
      assert newExpenses == ExpensesAt(p, month) by {
        assert prev.expenses[month - 1] == ExpensesAt(p, month - 1);
      }
      assert cashAfter == CashAt(p, month) by {
        assert prev.cash[month - 1] == CashAt(p, month - 1);
      }
      Series(prev.revenues + [newRevenue], prev.expenses + [newExpenses], prev.cash + [cashAfter])
  }

  /** The projection the script plots and scans: exactly `months` entries
      (one when months < 1), seeded with the sidebar's starting values. */
  function Project(p: Inputs): (s: Series)
    ensures |s.revenues| == Horizon(p) && |s.expenses| == Horizon(p) && |s.cash| == Horizon(p)
    ensures p.months >= 1 ==> |s.revenues| == p.months && |s.expenses| == p.months && |s.cash| == p.months
    ensures p.months < 1 ==> |s.revenues| == 1 && |s.expenses| == 1 && |s.cash| == 1
    ensures s.revenues[0] == p.monthlyRevenue && s.expenses[0] == p.monthlyExpenses && s.cash[0] == p.currentCash
  {
    ProjectTo(p, Horizon(p))
  }

  /** Each month compounds off the previous month, not off the base, and
      cash moves by that month's revenue minus expenses, plus the injection
      at month 6 only; nothing is clamped. */
  lemma Recurrence(p: Inputs, t: nat)
    requires 1 <= t < Horizon(p)
    ensures Project(p).revenues[t] == Grow(Project(p).revenues[t - 1], p.revenueGrowthRate)
    ensures Project(p).expenses[t] == Grow(Project(p).expenses[t - 1], p.expenseGrowthRate)
    ensures Project(p).cash[t] == Project(p).cash[t - 1] + Project(p).revenues[t] - Project(p).expenses[t] + Injection(p, t)
  {
    var s := Project(p);
    assert s.revenues[t - 1] == RevenueAt(p, t - 1) && s.revenues[t] == RevenueAt(p, t);
    assert s.expenses[t - 1] == ExpensesAt(p, t - 1) && s.expenses[t] == ExpensesAt(p, t);
    assert s.cash[t - 1] == CashAt(p, t - 1) && s.cash[t] == CashAt(p, t);
  }

  /** Extending the horizon never changes the entries already computed. */
  lemma PrefixStable(p: Inputs, m: nat, n: nat)
    requires 1 <= m <= n
    ensures ProjectTo(p, m).revenues == ProjectTo(p, n).revenues[..m]
    ensures ProjectTo(p, m).expenses == ProjectTo(p, n).expenses[..m]
    ensures ProjectTo(p, m).cash == ProjectTo(p, n).cash[..m]
  {
  }

  // ----- The funding injection -----

  /** The same inputs with no funding injection. */
  function WithoutFunding(p: Inputs): Inputs
  {
    p.(fundingInjection := 0.0)
  }

  /** Revenue and expenses never read the injection, and changing it
      shifts each cash entry by the change in funding received so far. */
  lemma {:induction false} FundingOnlyShiftsCash(p: Inputs, amount: real, t: nat)
    ensures RevenueAt(p.(fundingInjection := amount), t) == RevenueAt(p, t)
    ensures ExpensesAt(p.(fundingInjection := amount), t) == ExpensesAt(p, t)
    ensures CashAt(p.(fundingInjection := amount), t)
            == CashAt(p, t) - FundedBy(p, t) + FundedBy(p.(fundingInjection := amount), t)
  {
    if t > 0 {
      FundingOnlyShiftsCash(p, amount, t - 1);
    }
  }

  /** The injection is carried forward exactly once: revenue and expenses
      never depend on it, and every cash entry from month 6 on is the
      unfunded entry plus exactly the injection, every earlier one is the
      unfunded entry itself. */
  lemma InjectionCarriedForward(p: Inputs, t: nat)
    requires t < Horizon(p)
    ensures Project(p).revenues[t] == Project(WithoutFunding(p)).revenues[t]
    ensures Project(p).expenses[t] == Project(WithoutFunding(p)).expenses[t]
    ensures Project(p).cash[t] == Project(WithoutFunding(p)).cash[t] + (if t >= InjectionMonth then p.fundingInjection else 0.0)
  {
    var q := WithoutFunding(p);
    FundingOnlyShiftsCash(p, 0.0, t);
    assert Horizon(q) == Horizon(p);
    assert Project(p).cash[t] == CashAt(p, t);
    assert Project(q).cash[t] == CashAt(q, t);
  }

  /** Entries before month 6 are the same whatever the injection. */
  lemma EarlyCashIgnoresInjection(p: Inputs, amount: real, t: nat)
    requires t < Horizon(p) && t < InjectionMonth
    ensures Project(p).cash[t] == Project(p.(fundingInjection := amount)).cash[t]
  {
    var q := p.(fundingInjection := amount);
    FundingOnlyShiftsCash(p, amount, t);
    assert Horizon(q) == Horizon(p);
    assert Project(p).cash[t] == CashAt(p, t);
    assert Project(q).cash[t] == CashAt(q, t);
  }

  /** With a horizon of at most 6 months the loop never reaches month 6,
      so the whole projection is independent of the injection. */
  lemma ShortHorizonIgnoresInjection(p: Inputs, amount: real)
    requires p.months <= InjectionMonth
    ensures Project(p) == Project(p.(fundingInjection := amount))
  {
    var q := p.(fundingInjection := amount);
    var s, r := Project(p), Project(q);
    assert Horizon(q) == Horizon(p);
    forall t | 0 <= t < Horizon(p)
      ensures s.revenues[t] == r.revenues[t] && s.expenses[t] == r.expenses[t] && s.cash[t] == r.cash[t]
    {
      FundingOnlyShiftsCash(p, amount, t);
      EarlyCashIgnoresInjection(p, amount, t);
    }
    assert s.revenues == r.revenues;
    assert s.expenses == r.expenses;
    assert s.cash == r.cash;
  }

  // ----- Growth -----

  /** Non-negative growth keeps non-negative starting values non-negative. */
  lemma {:induction false} CompoundingStaysNonNegative(p: Inputs, t: nat)
    requires p.revenueGrowthRate >= 0.0 && p.expenseGrowthRate >= 0.0
    requires p.monthlyRevenue >= 0.0 && p.monthlyExpenses >= 0.0
    ensures RevenueAt(p, t) >= 0.0 && ExpensesAt(p, t) >= 0.0
  {
    if t > 0 {
      CompoundingStaysNonNegative(p, t - 1);
      MulLeft(RevenueAt(p, t - 1), 0.0, 1.0 + p.revenueGrowthRate);
      MulLeft(ExpensesAt(p, t - 1), 0.0, 1.0 + p.expenseGrowthRate);
    }
  }

  /** With non-negative growth rates and non-negative starting values
      (the sliders' range), revenue and expenses never shrink. */
  lemma {:induction false} GrowthNeverShrinks(p: Inputs, i: nat, j: nat)
    requires p.revenueGrowthRate >= 0.0 && p.expenseGrowthRate >= 0.0
    requires p.monthlyRevenue >= 0.0 && p.monthlyExpenses >= 0.0
    requires i <= j < Horizon(p)
    ensures Project(p).revenues[i] <= Project(p).revenues[j]
    ensures Project(p).expenses[i] <= Project(p).expenses[j]
  {
    var s := Project(p);
    if i < j {
      GrowthNeverShrinks(p, i, j - 1);
      CompoundingStaysNonNegative(p, j - 1);
      assert s.revenues[j - 1] == RevenueAt(p, j - 1) && s.revenues[j] == RevenueAt(p, j);
      assert s.expenses[j - 1] == ExpensesAt(p, j - 1) && s.expenses[j] == ExpensesAt(p, j);
      MulLeft(RevenueAt(p, j - 1), 1.0, 1.0 + p.revenueGrowthRate);
      MulLeft(ExpensesAt(p, j - 1), 1.0, 1.0 + p.expenseGrowthRate);
    }
  }

  /** With the sidebar defaults (revenue 20000 growing 5%, expenses 15000
      growing 3%, cash 100000, 12 months, no injection), month 1 ends with
      105550. */
  lemma ExampleMonthOne()
    ensures Project(Inputs(20000.0, 15000.0, 100000.0, 0.05, 0.03, 12, 0.0)).cash[1] == 105550.0
  {
    Recurrence(Inputs(20000.0, 15000.0, 100000.0, 0.05, 0.03, 12, 0.0), 1);
  }
}
