/** The ratio engine and health scorer of `finance.py`: break-even volume,
    thirteen zero-guarded financial ratios, and a four-category, two-tier
    threshold score. */
module Finance {
  import opened ExtReal

  datatype Option<T> = None | Some(value: T)

  // ---------------------------------------------------------------------------
  // Break-even
  // ---------------------------------------------------------------------------

  /** Units to sell before the contribution margin covers the fixed cost;
      `None` when each unit contributes nothing (or loses money). */
  function BreakEvenPoint(fixedCost: real, price: real, variableCost: real): (r: Option<real>)
    ensures r.None? <==> price - variableCost <= 0.0
    ensures r.Some? ==> r.value * (price - variableCost) == fixedCost
  {
    var contributionMargin := price - variableCost;
    if contributionMargin <= 0.0 then None else Some(fixedCost / contributionMargin)
  }

  /** For a non-negative fixed cost, a higher price (or a lower variable cost)
      never raises the break-even volume. */
  lemma BreakEvenMonotone(fixedCost: real, price1: real, variableCost1: real, price2: real, variableCost2: real)
    requires fixedCost >= 0.0
    requires 0.0 < price1 - variableCost1 <= price2 - variableCost2
    ensures BreakEvenPoint(fixedCost, price2, variableCost2).Some?
    ensures BreakEvenPoint(fixedCost, price2, variableCost2).value
         <= BreakEvenPoint(fixedCost, price1, variableCost1).value
  {
    var m1 := price1 - variableCost1;
    var m2 := price2 - variableCost2;
    var b1 := BreakEvenPoint(fixedCost, price1, variableCost1).value;
    var b2 := BreakEvenPoint(fixedCost, price2, variableCost2).value;
    assert b1 * m1 == fixedCost && b2 * m2 == fixedCost;
    assert b2 >= 0.0;
    assert b2 * m1 <= b2 * m2;
  }

  // ---------------------------------------------------------------------------
  // Ratios
  // ---------------------------------------------------------------------------

  /** The raw financial-statement figures the ratio engine reads. */
  datatype Statement = Statement(
    revenue: real,
    cogs: real,
    operatingCost: real,
    totalCost: real,
    netProfit: real,
    totalAssets: real,
    equity: real,
    currentAssets: real,
    currentLiabilities: real,
    cash: real,
    totalDebt: real)

  /** The keys of the ratio dictionary. */
  datatype RatioName =
    | GrossMargin | OperatingMargin | NetProfitMargin
    | ROA | ROE
    | AssetTurnover | CostToRevenue | OperatingCostRatio
    | CurrentRatio | CashRatio
    | DebtToEquity | DebtRatio | EquityRatio

  const AllRatioNames: set<RatioName> := {
    GrossMargin, OperatingMargin, NetProfitMargin, ROA, ROE,
    AssetTurnover, CostToRevenue, OperatingCostRatio, CurrentRatio, CashRatio,
    DebtToEquity, DebtRatio, EquityRatio }

  /** Only the coverage ratios report an infinite value for a zero denominator;
      every other ratio reports zero. */
  predicate InfiniteWhenUndefined(k: RatioName) {
    k == CurrentRatio || k == CashRatio || k == DebtToEquity
  }

  /** The numerator of each ratio, as `extended_financial_ratios` computes it
      (finance.py:34-62). */
  function Numerator(s: Statement, k: RatioName): real {
    match k
    case GrossMargin => s.revenue - s.cogs
    case OperatingMargin => s.revenue - s.cogs - s.operatingCost
    case NetProfitMargin => s.netProfit
    case ROA => s.netProfit
    case ROE => s.netProfit
    case AssetTurnover => s.revenue
    case CostToRevenue => s.totalCost
    case OperatingCostRatio => s.operatingCost
    case CurrentRatio => s.currentAssets
    case CashRatio => s.cash
    case DebtToEquity => s.totalDebt
    case DebtRatio => s.totalDebt
    case EquityRatio => s.equity
  }

  /** The denominator of each ratio, as `extended_financial_ratios` computes it
      (finance.py:34-62). */
  function Denominator(s: Statement, k: RatioName): real {
    match k
    case GrossMargin | OperatingMargin | NetProfitMargin | CostToRevenue | OperatingCostRatio => s.revenue
    case ROA | AssetTurnover | DebtRatio | EquityRatio => s.totalAssets
    case ROE | DebtToEquity => s.equity
    case CurrentRatio | CashRatio => s.currentLiabilities
  }

  /** One ratio of the statement: numerator over denominator when the
      denominator is non-zero, otherwise the ratio's sentinel. */
  function Ratio(s: Statement, k: RatioName): (x: Ext)
    ensures x == PosInf <==> InfiniteWhenUndefined(k) && Denominator(s, k) == 0.0
    ensures Denominator(s, k) == 0.0 && !InfiniteWhenUndefined(k) ==> x == Fin(0.0)
    ensures Denominator(s, k) != 0.0 ==> x.Fin? && x.value * Denominator(s, k) == Numerator(s, k)
  {
    if InfiniteWhenUndefined(k) then DivOrInf(Numerator(s, k), Denominator(s, k))
    else Fin(DivOrZero(Numerator(s, k), Denominator(s, k)))
  }

  /** The ratio dictionary: every one of the thirteen ratios, keyed by name. */
  function ExtendedFinancialRatios(s: Statement): (r: map<RatioName, Ext>)
    ensures r.Keys == AllRatioNames
    ensures forall k :: k in r ==> r[k] == Ratio(s, k)
  {
    map k | k in AllRatioNames :: Ratio(s, k)
  }

  /** The zero-denominator sentinels, ratio by ratio: a ratio over revenue or
      total assets is 0 when its denominator is 0; Current and Cash Ratio are
      infinite when there are no current liabilities; with zero equity
      Debt-to-Equity is infinite while ROE is 0. */
  lemma ZeroDenominatorSentinels(s: Statement)
    ensures var r := ExtendedFinancialRatios(s);
      s.revenue == 0.0 ==>
        r[GrossMargin] == r[OperatingMargin] == r[NetProfitMargin]
        == r[CostToRevenue] == r[OperatingCostRatio] == Fin(0.0)
    ensures var r := ExtendedFinancialRatios(s);
      s.totalAssets == 0.0 ==>
        r[ROA] == r[AssetTurnover] == r[DebtRatio] == r[EquityRatio] == Fin(0.0)
    ensures var r := ExtendedFinancialRatios(s);
      s.equity == 0.0 ==> r[ROE] == Fin(0.0) && r[DebtToEquity] == PosInf
    ensures var r := ExtendedFinancialRatios(s);
      s.currentLiabilities == 0.0 ==> r[CurrentRatio] == PosInf && r[CashRatio] == PosInf
  {
    var r := ExtendedFinancialRatios(s);
    assert GrossMargin in r && OperatingMargin in r && NetProfitMargin in r;
    assert CostToRevenue in r && OperatingCostRatio in r && ROA in r && AssetTurnover in r;
    assert DebtRatio in r && EquityRatio in r && ROE in r && DebtToEquity in r;
    assert CurrentRatio in r && CashRatio in r;
  }

  /** With revenue, Gross Margin minus Operating Margin is the Operating Cost
      Ratio: the two margins differ exactly by operating cost over revenue. */
  lemma MarginsDifferByOperatingCost(s: Statement)
    requires s.revenue != 0.0
    ensures var r := ExtendedFinancialRatios(s);
      r[GrossMargin].value - r[OperatingMargin].value == r[OperatingCostRatio].value
  {
    var gm := Ratio(s, GrossMargin).value;
    var om := Ratio(s, OperatingMargin).value;
    var ocr := Ratio(s, OperatingCostRatio).value;
    assert gm * s.revenue == s.revenue - s.cogs;
    assert om * s.revenue == s.revenue - s.cogs - s.operatingCost;
    assert ocr * s.revenue == s.operatingCost;
    Distributes(gm, om, s.revenue);
    MultiplicationCancels(gm - om, ocr, s.revenue);
  }

  lemma Distributes(x: real, y: real, d: real)
    ensures (x - y) * d == x * d - y * d
  {
  }

  lemma MultiplicationCancels(x: real, y: real, d: real)
    requires d != 0.0
    requires x * d == y * d
    ensures x == y
  {
    assert (x - y) * d == 0.0;
  }

  // ---------------------------------------------------------------------------
  // Health assessment
  // ---------------------------------------------------------------------------

  datatype Category = Profitability | Liquidity | LeverageRisk | ReturnOnCapital

  const AllCategories: set<Category> := { Profitability, Liquidity, LeverageRisk, ReturnOnCapital }

  datatype Label = Strong | Acceptable | Weak

  function Points(l: Label): int {
    match l
    case Strong => 2
    case Acceptable => 1
    case Weak => 0
  }

  /** A ratio read with a default, as `dict.get(key, default)` does. */
  function Lookup(ratios: map<RatioName, Ext>, k: RatioName, default: real): Ext {
    if k in ratios then ratios[k] else Fin(default)
  }

  // The figures each category reads, with the defaults used for missing keys.
  function Gm(ratios: map<RatioName, Ext>): Ext { Lookup(ratios, GrossMargin, 0.0) }
  function Ctr(ratios: map<RatioName, Ext>): Ext { Lookup(ratios, CostToRevenue, 1.0) }
  function Cr(ratios: map<RatioName, Ext>): Ext { Lookup(ratios, CurrentRatio, 0.0) }
  function CashR(ratios: map<RatioName, Ext>): Ext { Lookup(ratios, CashRatio, 0.0) }
  function De(ratios: map<RatioName, Ext>): Ext { Lookup(ratios, DebtToEquity, 0.0) }
  function Dr(ratios: map<RatioName, Ext>): Ext { Lookup(ratios, DebtRatio, 0.0) }
  function Roe(ratios: map<RatioName, Ext>): Ext { Lookup(ratios, ROE, 0.0) }
  function Roa(ratios: map<RatioName, Ext>): Ext { Lookup(ratios, ROA, 0.0) }

  /** The two cut-off levels of each category: the Strong test and the
      Acceptable test. */
  predicate StrongIn(c: Category, ratios: map<RatioName, Ext>) {
    match c
    case Profitability => AtLeast(Gm(ratios), 0.4) && AtMost(Ctr(ratios), 0.7)
    case Liquidity => AtLeast(Cr(ratios), 1.5) && AtLeast(CashR(ratios), 0.5)
    case LeverageRisk => AtMost(De(ratios), 1.0) && AtMost(Dr(ratios), 0.5)
    case ReturnOnCapital => AtLeast(Roe(ratios), 0.15) && AtLeast(Roa(ratios), 0.05)
  }

  predicate AcceptableIn(c: Category, ratios: map<RatioName, Ext>) {
    match c
    case Profitability => AtLeast(Gm(ratios), 0.25) && AtMost(Ctr(ratios), 0.9)
    case Liquidity => AtLeast(Cr(ratios), 1.0) && AtLeast(CashR(ratios), 0.25)
    case LeverageRisk => AtMost(De(ratios), 2.0) && AtMost(Dr(ratios), 0.7)
    case ReturnOnCapital => AtLeast(Roe(ratios), 0.05) && AtLeast(Roa(ratios), 0.02)
  }

  /** The label of one category: the first test that passes, Strong before
      Acceptable, otherwise Weak. */
  function Grade(c: Category, ratios: map<RatioName, Ext>): (l: Label)
    ensures l == Strong <==> StrongIn(c, ratios)
    ensures l == Weak <==> !AcceptableIn(c, ratios)
    ensures Points(l) >= 1 <==> AcceptableIn(c, ratios)
  {
    if StrongIn(c, ratios) then Strong
    else if AcceptableIn(c, ratios) then Acceptable
    else Weak
  }

  /** The assessment and its score. Every category is present, and the score
      is the sum of the category points, so it lies between 0 and 8. */
  function FinancialHealthAssessment(ratios: map<RatioName, Ext>): (r: (map<Category, Label>, int))
    ensures r.0.Keys == AllCategories
    ensures forall c :: c in r.0 ==>
      (r.0[c] == Strong <==> StrongIn(c, ratios)) &&
      (r.0[c] == Acceptable <==> !StrongIn(c, ratios) && AcceptableIn(c, ratios))
    ensures r.1 == Points(r.0[Profitability]) + Points(r.0[Liquidity])
                 + Points(r.0[LeverageRisk]) + Points(r.0[ReturnOnCapital])
    ensures 0 <= r.1 <= 8
  {
    var assessment := map[
      Profitability := Grade(Profitability, ratios),
      Liquidity := Grade(Liquidity, ratios),
      LeverageRisk := Grade(LeverageRisk, ratios),
      ReturnOnCapital := Grade(ReturnOnCapital, ratios)
    ];
    var score := Points(assessment[Profitability]) + Points(assessment[Liquidity])
               + Points(assessment[LeverageRisk]) + Points(assessment[ReturnOnCapital]);
    (assessment, score)
  }

  /** The tiers are nested: passing a category's Strong test means passing
      its Acceptable test too. */
  lemma StrongImpliesAcceptable(c: Category, ratios: map<RatioName, Ext>)
    ensures StrongIn(c, ratios) ==> AcceptableIn(c, ratios)
  {
  }

  /** `b` is at least as healthy as `a` on every figure the scorer reads:
      higher margins, liquidity and returns, lower cost and leverage. */
  predicate Dominates(b: map<RatioName, Ext>, a: map<RatioName, Ext>) {
    && Le(Gm(a), Gm(b)) && Le(Ctr(b), Ctr(a))
    && Le(Cr(a), Cr(b)) && Le(CashR(a), CashR(b))
    && Le(De(b), De(a)) && Le(Dr(b), Dr(a))
    && Le(Roe(a), Roe(b)) && Le(Roa(a), Roa(b))
  }

  /** Improving any figure never lowers a category's label or the score;
      in particular, raising Gross Margin alone never lowers Profitability. */
  lemma AssessmentMonotone(a: map<RatioName, Ext>, b: map<RatioName, Ext>)
    requires Dominates(b, a)
    ensures forall c :: c in AllCategories ==>
      Points(FinancialHealthAssessment(a).0[c]) <= Points(FinancialHealthAssessment(b).0[c])
    ensures FinancialHealthAssessment(a).1 <= FinancialHealthAssessment(b).1
  {
    forall c | c in AllCategories
      ensures Points(Grade(c, a)) <= Points(Grade(c, b))
    {
      GradeMonotone(c, a, b);
    }
  }

  lemma GradeMonotone(c: Category, a: map<RatioName, Ext>, b: map<RatioName, Ext>)
    requires Dominates(b, a)
    ensures Points(Grade(c, a)) <= Points(Grade(c, b))
  {
  }

  /** Raising Gross Margin alone never lowers the Profitability label. */
  lemma RaisingGrossMarginHelps(ratios: map<RatioName, Ext>, gm: real)
    requires GrossMargin in ratios && ratios[GrossMargin].Fin? && ratios[GrossMargin].value <= gm
    ensures Points(FinancialHealthAssessment(ratios).0[Profitability])
         <= Points(FinancialHealthAssessment(ratios[GrossMargin := Fin(gm)]).0[Profitability])
  {
    var raised := ratios[GrossMargin := Fin(gm)];
    assert Dominates(raised, ratios);
    GradeMonotone(Profitability, ratios, raised);
  }

  /** The score is 8 exactly when every category is Strong, and 8 is
      attained; a score of 10 is never reached. */
  lemma ScoreEightIffAllStrong(ratios: map<RatioName, Ext>)
    ensures FinancialHealthAssessment(ratios).1 == 8 <==>
      forall c :: c in AllCategories ==> StrongIn(c, ratios)
    ensures FinancialHealthAssessment(ratios).1 != 10
  {
  }

  /** Each figure the scorer reads is the stored ratio when present, and
      its default when missing: Cost-to-Revenue as 1, every other ratio as 0. */
  lemma MissingRatiosReadAsDefaults(ratios: map<RatioName, Ext>)
    ensures forall k :: k in ratios ==>
      && (k == GrossMargin ==> Gm(ratios) == ratios[k])
      && (k == CostToRevenue ==> Ctr(ratios) == ratios[k])
      && (k == CurrentRatio ==> Cr(ratios) == ratios[k])
      && (k == CashRatio ==> CashR(ratios) == ratios[k])
      && (k == DebtToEquity ==> De(ratios) == ratios[k])
      && (k == DebtRatio ==> Dr(ratios) == ratios[k])
      && (k == ROE ==> Roe(ratios) == ratios[k])
      && (k == ROA ==> Roa(ratios) == ratios[k])
    ensures GrossMargin !in ratios ==> Gm(ratios) == Fin(0.0)
    ensures CostToRevenue !in ratios ==> Ctr(ratios) == Fin(1.0)
    ensures CurrentRatio !in ratios ==> Cr(ratios) == Fin(0.0)
    ensures CashRatio !in ratios ==> CashR(ratios) == Fin(0.0)
    ensures DebtToEquity !in ratios ==> De(ratios) == Fin(0.0)
    ensures DebtRatio !in ratios ==> Dr(ratios) == Fin(0.0)
    ensures ROE !in ratios ==> Roe(ratios) == Fin(0.0)
    ensures ROA !in ratios ==> Roa(ratios) == Fin(0.0)
  {
  }

  /** Without a Cost-to-Revenue entry the cost ratio is read as 1, above both
      cut-offs, so Profitability is Weak however high Gross Margin is. */
  lemma MissingCostToRevenueMeansWeakProfitability(ratios: map<RatioName, Ext>)
    requires CostToRevenue !in ratios
    ensures FinancialHealthAssessment(ratios).0[Profitability] == Weak
  {
  }

  /** An empty ratio dictionary reads every figure as its default: zero debt
      makes Leverage / Risk Strong, everything else is Weak, and the score
      is 2. */
  lemma EmptyRatiosScoreTwo()
    ensures var (assessment, score) := FinancialHealthAssessment(map[]);
      && assessment[LeverageRisk] == Strong
      && assessment[Profitability] == Weak
      && assessment[Liquidity] == Weak
      && assessment[ReturnOnCapital] == Weak
      && score == 2
  {
  }

  // ---------------------------------------------------------------------------
  // How the sentinels reach the scorer
  // ---------------------------------------------------------------------------

  /** Without current liabilities both liquidity ratios are infinite, so
      Liquidity is always Strong. */
  lemma NoLiabilitiesMeansStrongLiquidity(s: Statement)
    requires s.currentLiabilities == 0.0
    ensures FinancialHealthAssessment(ExtendedFinancialRatios(s)).0[Liquidity] == Strong
  {
  }

  /** With zero equity Debt-to-Equity is infinite, so Leverage is Weak. */
  lemma NoEquityMeansWeakLeverage(s: Statement)
    requires s.equity == 0.0
    ensures FinancialHealthAssessment(ExtendedFinancialRatios(s)).0[LeverageRisk] == Weak
  {
  }

  /** Without revenue Gross Margin is 0, so Profitability is Weak; without
      assets ROA is 0, so Return on Capital is Weak. */
  lemma ZeroDenominatorsMeanWeak(s: Statement)
    ensures s.revenue == 0.0 ==>
      FinancialHealthAssessment(ExtendedFinancialRatios(s)).0[Profitability] == Weak
    ensures s.totalAssets == 0.0 ==>
      FinancialHealthAssessment(ExtendedFinancialRatios(s)).0[ReturnOnCapital] == Weak
  {
    var ratios := ExtendedFinancialRatios(s);
    if s.revenue == 0.0 {
      assert Gm(ratios) == Ratio(s, GrossMargin) == Fin(0.0);
      assert Grade(Profitability, ratios) == Weak;
    }
    if s.totalAssets == 0.0 {
      assert Roa(ratios) == Ratio(s, ROA) == Fin(0.0);
      assert Grade(ReturnOnCapital, ratios) == Weak;
    }
  }

  /** An example of a fully healthy business: every category Strong,
      score 8. */
  lemma HealthyExample()
    ensures var ratios := map[
        GrossMargin := Fin(0.45), CostToRevenue := Fin(0.6),
        CurrentRatio := Fin(2.0), CashRatio := Fin(0.6),
        DebtToEquity := Fin(0.8), DebtRatio := Fin(0.4),
        ROE := Fin(0.2), ROA := Fin(0.08)];
      var (assessment, score) := FinancialHealthAssessment(ratios);
      score == 8 && forall c :: c in assessment ==> assessment[c] == Strong
  {
  }
}
