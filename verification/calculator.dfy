/** The script's computations in source order, with the widget values as
    one explicit input record (saas_runway_calculator.py lines 34-121). */
module Calculator {
  import Cashflow
  import Runway
  import Scenario
  import opened Advisory

  /** Every value the script reads from its widgets. */
  datatype ScriptInputs = ScriptInputs(
    sidebar: Cashflow.Inputs,
    pessimisticGrowth: real,
    realisticGrowth: real,
    optimisticGrowth: real,
    churnRate: real,
    burn: BurnBreakdown,
    cac: real,
    ltv: real)

  /** Every value the script displays or plots. */
  datatype Report = Report(
    totalBurn: real,
    pessimisticRunway: nat,
    realisticRunway: nat,
    optimisticRunway: nat,
    healthy: bool,
    series: Cashflow.Series,
    runway: int,
    advice: Runway.Advice)

  /** All three scenario loops terminate; otherwise the script hangs at
      the first one that does not, before anything below it runs. */
  ghost predicate ScenariosTerminate(inp: ScriptInputs)
  {
    var burn := TotalBurn(inp.burn);
    && Scenario.Reaches(Scenario.Seed, burn, inp.pessimisticGrowth, inp.churnRate)
    && Scenario.Reaches(Scenario.Seed, burn, inp.realisticGrowth, inp.churnRate)
    && Scenario.Reaches(Scenario.Seed, burn, inp.optimisticGrowth, inp.churnRate)
  }

  /** One run of the script. It stops with ZeroDivisionError exactly when
      cac is 0; otherwise the three scenario runways are the loop's answers
      for the seed revenue against the total burn, the series has one entry
      per month, the runway is its first deficit month (or the horizon), and
      the warning shows exactly when some month ends with negative cash. */
  method RunScript(inp: ScriptInputs) returns (out: Result<Report>)
    requires Cashflow.SliderRanges(inp.sidebar)
    requires ScenariosTerminate(inp)
    ensures out.ZeroDivisionError? <==> inp.cac == 0.0
    ensures out.Ok? ==>
      var r := out.value;
      var months := inp.sidebar.months;
      && r.totalBurn == Sum(Components(inp.burn))
      && Scenario.IsRunway(Scenario.Seed, r.totalBurn, inp.pessimisticGrowth, inp.churnRate, r.pessimisticRunway)
      && Scenario.IsRunway(Scenario.Seed, r.totalBurn, inp.realisticGrowth, inp.churnRate, r.realisticRunway)
      && Scenario.IsRunway(Scenario.Seed, r.totalBurn, inp.optimisticGrowth, inp.churnRate, r.optimisticRunway)
      && (inp.cac > 0.0 ==> (r.healthy <==> inp.ltv > HealthyThreshold * inp.cac))
      && (inp.cac < 0.0 ==> (r.healthy <==> inp.ltv < HealthyThreshold * inp.cac))
      && r.series == Cashflow.Project(inp.sidebar)
      && |r.series.cash| == months
      && 0 <= r.runway <= months
      && (forall j :: 0 <= j < r.runway ==> r.series.cash[j] >= 0.0)
      && (r.runway < months ==> r.series.cash[r.runway] < 0.0)
      && (r.advice == Runway.ExtendRunway <==> exists j :: 0 <= j < months && r.series.cash[j] < 0.0)
  {
    var totalBurn := TotalBurn(inp.burn);
    var pessimistic := Scenario.CalculateRunway(Scenario.Seed, totalBurn, inp.pessimisticGrowth, inp.churnRate);
    var realistic := Scenario.CalculateRunway(Scenario.Seed, totalBurn, inp.realisticGrowth, inp.churnRate);
    var optimistic := Scenario.CalculateRunway(Scenario.Seed, totalBurn, inp.optimisticGrowth, inp.churnRate);
    var healthy := RatioIsHealthy(inp.ltv, inp.cac);
    if healthy.ZeroDivisionError? {
      return ZeroDivisionError;
    }
    var series := Cashflow.Project(inp.sidebar);
    var runway := Runway.RunwayMonths(series.cash, inp.sidebar.months);
    var advice := Runway.AdviceFor(series.cash, inp.sidebar.months);
    out := Ok(Report(totalBurn, pessimistic, realistic, optimistic, healthy.value, series, runway, advice));
  }
}
