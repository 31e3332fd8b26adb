/** The single-scenario cash-flow forecast and runway of
    `modules/cashflow.py`. */
module CashFlow {
  import opened ExtReal
  import opened Projection

  /** One row of the forecast table. */
  datatype ForecastRow = ForecastRow(
    month: int,
    revenue: real,
    totalCost: real,
    netCashFlow: real,
    cashBalance: real)

  /** The row the forecast holds for month `k + 1`, in closed form. */
  function ExpectedRow(initialCash: real, d: Drivers, k: nat): ForecastRow {
    ForecastRow(k + 1, RevenueAt(d, k), CostOf(d, RevenueAt(d, k)), NetAt(d, k), initialCash + CumNet(d, k + 1))
  }

  /** `rows` is the forecast over `months` months: one row per month,
      each equal to its closed form. */
  predicate IsForecast(rows: seq<ForecastRow>, initialCash: real, d: Drivers, months: int) {
    |rows| == RowCount(months) &&
    forall k :: 0 <= k < |rows| ==> rows[k] == ExpectedRow(initialCash, d, k)
  }

  /** The forecast loop: each month records revenue, cost, net flow and the
      updated balance, and only then grows revenue. */
  method CashFlowForecast(
    initialCash: real,
    monthlyRevenue: real,
    monthlyGrowth: real,
    fixedCost: real,
    variableCostRatio: real,
    months: int
  ) returns (rows: seq<ForecastRow>)
    ensures IsForecast(rows, initialCash, Drivers(monthlyRevenue, monthlyGrowth, fixedCost, variableCostRatio), months)
  {
    ghost var d := Drivers(monthlyRevenue, monthlyGrowth, fixedCost, variableCostRatio);
    rows := [];
    var cash := initialCash;
    var revenue := monthlyRevenue;
    var m := 1;
    while m <= months
      invariant 1 <= m <= RowCount(months) + 1
      invariant |rows| == m - 1
      invariant cash == initialCash + CumNet(d, m - 1)
      invariant revenue == RevenueAt(d, m - 1)
      invariant forall k :: 0 <= k < |rows| ==> rows[k] == ExpectedRow(initialCash, d, k)
    {
      var variableCost := revenue * variableCostRatio;
      var totalCost := fixedCost + variableCost;
      var netCashFlow := revenue - totalCost;
      cash := cash + netCashFlow;
      rows := rows + [ForecastRow(m, revenue, totalCost, netCashFlow, cash)];
      revenue := revenue * (1.0 + monthlyGrowth);
      m := m + 1;
    }
  }

  /** The net-flow column of a table. */
  function NetFlows(rows: seq<ForecastRow>): seq<real> {
    Column(rows, (row: ForecastRow) => row.netCashFlow)
  }

  /** What the forecast promises row by row: months numbered 1.., the first
      month at the opening revenue, revenue compounding by `1 + growth` from
      one row to the next, and cost and net flow derived from the row's own
      revenue. */
  lemma ForecastProperties(rows: seq<ForecastRow>, initialCash: real, d: Drivers, months: int)
    requires IsForecast(rows, initialCash, d, months)
    ensures forall k :: 0 <= k < |rows| ==> rows[k].month == k + 1
    ensures |rows| > 0 ==> rows[0].revenue == d.revenue
    ensures forall k :: 0 <= k < |rows| - 1 ==> rows[k + 1].revenue == rows[k].revenue * (1.0 + d.growth)
    ensures forall k :: 0 <= k < |rows| ==>
      rows[k].totalCost == d.fixedCost + rows[k].revenue * d.varRatio &&
      rows[k].netCashFlow == rows[k].revenue - rows[k].totalCost
  {
    forall k | 0 <= k < |rows| - 1
      ensures rows[k + 1].revenue == rows[k].revenue * (1.0 + d.growth)
    {
      assert rows[k + 1] == ExpectedRow(initialCash, d, k + 1);
      assert rows[k] == ExpectedRow(initialCash, d, k);
      assert RevenueAt(d, k + 1) == Grow(d, RevenueAt(d, k));
    }
    forall k | 0 <= k < |rows|
      ensures rows[k].totalCost == d.fixedCost + rows[k].revenue * d.varRatio
      ensures rows[k].netCashFlow == rows[k].revenue - rows[k].totalCost
    {
      assert rows[k] == ExpectedRow(initialCash, d, k);
    }
  }

  /** The balance of every row is the opening cash plus the net flows up to
      and including that row. */
  lemma ForecastCashIsPrefixSum(rows: seq<ForecastRow>, initialCash: real, d: Drivers, months: int)
    requires IsForecast(rows, initialCash, d, months)
    ensures forall k :: 0 <= k < |rows| ==> rows[k].cashBalance == initialCash + Sum(NetFlows(rows)[..k + 1])
  {
    forall k | 0 <= k < |rows|
      ensures rows[k].cashBalance == initialCash + Sum(NetFlows(rows)[..k + 1])
    {
      CumNetIsSum(d, NetFlows(rows)[..k + 1]);
    }
  }

  /** The absolute value, as Python's `abs`. */
  function Abs(x: real): real {
    if x < 0.0 then -x else x
  }

  /** Months of cash left at the average monthly net flow `burnRate`:
      unlimited unless cash is flowing out, otherwise the months the opening
      cash lasts. */
  function CalculateRunway(initialCash: real, burnRate: real): (r: Ext)
    ensures r == PosInf <==> burnRate >= 0.0
    ensures burnRate < 0.0 ==> r.value * -burnRate == initialCash
  {
    if burnRate >= 0.0 then PosInf
    else Fin(initialCash / Abs(burnRate))
  }

  /** Two runway examples: 12000 at a burn of -2000 lasts 6 months;
      a positive net flow of 500 lasts indefinitely. */
  lemma RunwayExamples()
    ensures CalculateRunway(12000.0, -2000.0) == Fin(6.0)
    ensures CalculateRunway(12000.0, 500.0) == PosInf
  {
  }

  /** A forecast example: 10000 opening cash, 5000 opening revenue,
      5% growth, 2000 fixed cost, 30% variable cost, three months. */
  lemma ForecastExample(rows: seq<ForecastRow>)
    requires IsForecast(rows, 10000.0, Drivers(5000.0, 0.05, 2000.0, 0.3), 3)
    ensures rows == [
      ForecastRow(1, 5000.0, 3500.0, 1500.0, 11500.0),
      ForecastRow(2, 5250.0, 3575.0, 1675.0, 13175.0),
      ForecastRow(3, 5512.5, 3653.75, 1858.75, 15033.75)]
  {
    var d := Drivers(5000.0, 0.05, 2000.0, 0.3);
    assert NetAt(d, 0) == 1500.0;
    assert NetAt(d, 1) == 1675.0;
    assert NetAt(d, 2) == 1858.75;
    assert CumNet(d, 1) == 1500.0;
    assert CumNet(d, 2) == 3175.0;
    assert CumNet(d, 3) == 5033.75;
    assert rows[0] == ExpectedRow(10000.0, d, 0);
    assert rows[1] == ExpectedRow(10000.0, d, 1);
    assert rows[2] == ExpectedRow(10000.0, d, 2);
  }
}
