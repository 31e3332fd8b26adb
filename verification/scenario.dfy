/** The multi-scenario projection of `scenario.py`: the same monthly loop as
    the cash-flow forecast, run once per named scenario from a shared
    opening cash balance. */
module Scenario {
  import opened Projection
  import CashFlow

  /** One row of a scenario's table. */
  datatype ScenarioRow = ScenarioRow(month: int, cashBalance: real, revenue: real, netCashFlow: real)

  /** The loop of one scenario from month `m` on, with the balance and the
      revenue it has reached: record the month, then grow revenue. */
  function Run(d: Drivers, m: int, months: int, cash: real, revenue: real): (rows: seq<ScenarioRow>)
    ensures |rows| == if m <= months then months - m + 1 else 0
    ensures forall i :: 0 <= i < |rows| ==> rows[i].month == m + i
    decreases months - m
  {
    if m > months then []
    else
      var cost := CostOf(d, revenue);
      var netCf := revenue - cost;
      var cash' := cash + netCf;
      [ScenarioRow(m, cash', revenue, netCf)] + Run(d, m + 1, months, cash', Grow(d, revenue))
  }

  /** The table of one scenario over `months` months: the loop started at
      month 1 from the shared opening cash and the scenario's own opening
      revenue, one row per month. */
  function Series(initialCash: real, d: Drivers, months: int): (rows: seq<ScenarioRow>)
    ensures |rows| == RowCount(months)
    ensures forall k :: 0 <= k < |rows| ==> rows[k].month == k + 1
    ensures |rows| > 0 ==> rows[0].revenue == d.revenue && rows[0].cashBalance == initialCash + rows[0].netCashFlow
  {
    Run(d, 1, months, initialCash, d.revenue)
  }

  /** Every scenario's table, keyed by scenario name. */
  function ScenarioAnalysis(initialCash: real, scenarios: map<string, Drivers>, months: int): (r: map<string, seq<ScenarioRow>>)
    ensures r.Keys == scenarios.Keys
  {
    map name | name in scenarios :: Series(initialCash, scenarios[name], months)
  }

  /** The row a scenario's table holds for month `k + 1`, in closed form. */
  function ExpectedRow(initialCash: real, d: Drivers, k: nat): ScenarioRow {
    ScenarioRow(k + 1, initialCash + CumNet(d, k + 1), RevenueAt(d, k), NetAt(d, k))
  }

  /** From month `m` with the balance and revenue of the closed form, the loop
      continues the closed form. */
  lemma {:induction false} RunClosedForm(initialCash: real, d: Drivers, m: int, months: int, cash: real, revenue: real)
    requires m >= 1
    requires cash == initialCash + CumNet(d, m - 1)
    requires revenue == RevenueAt(d, m - 1)
    ensures forall i :: 0 <= i < |Run(d, m, months, cash, revenue)| ==>
      Run(d, m, months, cash, revenue)[i] == ExpectedRow(initialCash, d, m - 1 + i)
    decreases months - m
  {
    if m <= months {
      var cost := CostOf(d, revenue);
      var cash' := cash + (revenue - cost);
      var revenue' := Grow(d, revenue);
      var rows := Run(d, m, months, cash, revenue);
      var rest := Run(d, m + 1, months, cash', revenue');
      RunStep(d, m, months, cash, revenue);
      assert cash' == initialCash + CumNet(d, m);
      RunClosedForm(initialCash, d, m + 1, months, cash', revenue');
      forall i | 0 <= i < |rows|
        ensures rows[i] == ExpectedRow(initialCash, d, m - 1 + i)
      {
        if i > 0 {
          assert rows[i] == rest[i - 1];
        }
      }
    }
  }

  /** One iteration of the loop. */
  lemma RunStep(d: Drivers, m: int, months: int, cash: real, revenue: real)
    requires m <= months
    ensures var cost := CostOf(d, revenue);
      var cash' := cash + (revenue - cost);
      Run(d, m, months, cash, revenue)
      == [ScenarioRow(m, cash', revenue, revenue - cost)] + Run(d, m + 1, months, cash', Grow(d, revenue))
  {
  }

  /** A scenario's table has one row per month, each equal to its closed form. */
  lemma SeriesClosedForm(initialCash: real, d: Drivers, months: int)
    ensures |Series(initialCash, d, months)| == RowCount(months)
    ensures forall k :: 0 <= k < |Series(initialCash, d, months)| ==>
      Series(initialCash, d, months)[k] == ExpectedRow(initialCash, d, k)
  {
    RunClosedForm(initialCash, d, 1, months, initialCash, d.revenue);
  }

  /** The net-flow column of a table. */
  function NetFlows(rows: seq<ScenarioRow>): seq<real> {
    Column(rows, (row: ScenarioRow) => row.netCashFlow)
  }

  /** What a scenario's table promises: `max(months, 0)` rows numbered 1..,
      the first at the scenario's opening revenue and starting from the
      shared opening cash, revenue compounding by `1 + growth` from one row
      to the next, and net flow equal to revenue less fixed and variable
      cost. */
  lemma SeriesProperties(initialCash: real, d: Drivers, months: int)
    ensures var rows := Series(initialCash, d, months);
      && |rows| == RowCount(months)
      && (forall k :: 0 <= k < |rows| ==> rows[k].month == k + 1)
      && (|rows| > 0 ==>
            rows[0].revenue == d.revenue && rows[0].cashBalance == initialCash + rows[0].netCashFlow)
      && (forall k :: 0 <= k < |rows| - 1 ==> rows[k + 1].revenue == rows[k].revenue * (1.0 + d.growth))
      && (forall k :: 0 <= k < |rows| ==>
            rows[k].netCashFlow == rows[k].revenue - (d.fixedCost + rows[k].revenue * d.varRatio))
  {
    SeriesClosedForm(initialCash, d, months);
  }

  /** A scenario's cash balance is the opening cash plus the net flows up to
      and including that row. */
  lemma SeriesCashIsPrefixSum(initialCash: real, d: Drivers, months: int)
    ensures var rows := Series(initialCash, d, months);
      forall k :: 0 <= k < |rows| ==> rows[k].cashBalance == initialCash + Sum(NetFlows(rows)[..k + 1])
  {
    var rows := Series(initialCash, d, months);
    SeriesClosedForm(initialCash, d, months);
    forall k | 0 <= k < |rows|
      ensures rows[k].cashBalance == initialCash + Sum(NetFlows(rows)[..k + 1])
    {
      CumNetIsSum(d, NetFlows(rows)[..k + 1]);
    }
  }

  /** Every entry of the analysis is its scenario's table, run from the shared
      opening cash on that scenario's own drivers alone. */
  lemma AnalysisEntries(initialCash: real, scenarios: map<string, Drivers>, months: int, name: string)
    requires name in scenarios
    ensures ScenarioAnalysis(initialCash, scenarios, months)[name] == Run(scenarios[name], 1, months, initialCash, scenarios[name].revenue)
  {
  }

  /** Scenarios do not interact: replacing one scenario's drivers, or adding
      a new one, leaves every other scenario's table unchanged. */
  lemma ScenariosIndependent(initialCash: real, scenarios: map<string, Drivers>, months: int, name: string, d: Drivers, other: string)
    requires other in scenarios && other != name
    ensures ScenarioAnalysis(initialCash, scenarios[name := d], months)[other]
         == ScenarioAnalysis(initialCash, scenarios, months)[other]
  {
  }

  /** For the same drivers, every scenario table matches the single-scenario
      forecast row by row in month, revenue, net flow and cash balance. */
  lemma ScenarioMatchesForecast(
    initialCash: real, scenarios: map<string, Drivers>, months: int, name: string,
    forecast: seq<CashFlow.ForecastRow>)
    requires name in scenarios
    requires CashFlow.IsForecast(forecast, initialCash, scenarios[name], months)
    ensures var rows := ScenarioAnalysis(initialCash, scenarios, months)[name];
      |rows| == |forecast| &&
      forall k :: 0 <= k < |rows| ==>
        && rows[k].month == forecast[k].month
        && rows[k].revenue == forecast[k].revenue
        && rows[k].netCashFlow == forecast[k].netCashFlow
        && rows[k].cashBalance == forecast[k].cashBalance
  {
    AnalysisEntries(initialCash, scenarios, months, name);
    SeriesClosedForm(initialCash, scenarios[name], months);
  }
}
