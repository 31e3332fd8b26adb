/** The month-by-month projection shared by the cash-flow forecast and the
    scenario comparison, stated in closed form: revenue in month `k + 1` is
    the opening revenue grown `k` times, and the cash balance after month
    `k` is the opening cash plus the net flows of the first `k` months. */
module Projection {

  /** The four drivers of one projection. */
  datatype Drivers = Drivers(revenue: real, growth: real, fixedCost: real, varRatio: real)

  function Pow(x: real, n: nat): real {
    if n == 0 then 1.0 else Pow(x, n - 1) * x
  }

  /** Number of rows a projection over `months` produces: `range(1, months + 1)`
      is empty for `months <= 0`. */
  function RowCount(months: int): nat {
    if months > 0 then months else 0
  }

  /** One month's growth of revenue. */
  function Grow(d: Drivers, revenue: real): real {
    revenue * (1.0 + d.growth)
  }

  /** Revenue in month `k + 1`: the opening revenue grown once per earlier
      month, since growth is applied only after a month's row. */
  function RevenueAt(d: Drivers, k: nat): real {
    if k == 0 then d.revenue else Grow(d, RevenueAt(d, k - 1))
  }

  /** Fixed cost plus the variable share of the month's revenue. */
  function CostOf(d: Drivers, revenue: real): real {
    d.fixedCost + revenue * d.varRatio
  }

  /** Net cash flow of month `k + 1`. */
  function NetAt(d: Drivers, k: nat): real {
    RevenueAt(d, k) - CostOf(d, RevenueAt(d, k))
  }

  /** Net cash flow accumulated over the first `k` months. */
  function CumNet(d: Drivers, k: nat): real {
    if k == 0 then 0.0 else CumNet(d, k - 1) + NetAt(d, k - 1)
  }

  /** One figure of every row, as a column. */
  function Column<R>(rows: seq<R>, figure: R -> real): (xs: seq<real>)
    ensures |xs| == |rows|
    ensures forall k :: 0 <= k < |rows| ==> xs[k] == figure(rows[k])
  {
    seq(|rows|, k requires 0 <= k < |rows| => figure(rows[k]))
  }

  /** Sum of a column of figures. */
  function Sum(xs: seq<real>): real {
    if |xs| == 0 then 0.0 else Sum(xs[..|xs| - 1]) + xs[|xs| - 1]
  }

  /** Revenue is geometric: month `k + 1` earns the opening revenue times
      `(1 + growth)^k`. */
  lemma {:induction false} RevenueIsGeometric(d: Drivers, k: nat)
    ensures RevenueAt(d, k) == d.revenue * Pow(1.0 + d.growth, k)
  {
    if k > 0 {
      RevenueIsGeometric(d, k - 1);
      var x := 1.0 + d.growth;
      assert d.revenue * (Pow(x, k - 1) * x) == (d.revenue * Pow(x, k - 1)) * x;
    }
  }

  /** A column holding month by month the projected net flows sums to the
      accumulated net flow. */
  lemma {:induction false} CumNetIsSum(d: Drivers, xs: seq<real>)
    requires forall j :: 0 <= j < |xs| ==> xs[j] == NetAt(d, j)
    ensures Sum(xs) == CumNet(d, |xs|)
  {
    if |xs| > 0 {
      CumNetIsSum(d, xs[..|xs| - 1]);
    }
  }
}
