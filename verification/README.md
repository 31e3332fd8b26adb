# Startup planner calculation core, modelled in Dafny

The startup planner is a dashboard for small businesses. Underneath its pages
sits a small calculation core, and this project models that core over exact
`real` arithmetic:

- **Ratio engine and health scorer** (`finance.py`), in `finance.dfy`. It covers
  the break-even volume, which is optional. It covers thirteen financial ratios,
  each guarded against a zero denominator: the guard gives 0 for some ratios and
  +∞ for others. It also covers a health score over four categories, where each
  category earns 2, 1 or 0 points.
- **Unit-economics engine** (`modules/business.py`), in `business.dfy`. It covers
  LTV, LTV/CAC, CAC payback and net unit profit. It also covers the three-tier
  viability verdict and the five recommendations.
- **Cash-flow projector** (`modules/cashflow.py`, `scenario.py`), in
  `projection.dfy`, `cashflow.dfy` and `scenario.dfy`. Both files run the same
  monthly loop. Each month the loop records revenue, cost, net cash flow and the
  new balance, and only then grows revenue. The forecast runs the loop once and
  the scenario comparison runs it once per named scenario. Runway is modelled
  too.

Python's `float("inf")` sentinel is the `PosInf` case of the extended reals
`ExtReal.Ext = Fin(value) | PosInf`. `PosInf` sits above every finite value, so
`inf >= c` holds and `inf <= c` does not, as in Python. Python's truthiness
guards (`x / d if d else …`) are tests for `d != 0.0`. The ratio dictionary
is a `map<RatioName, Ext>`. A projection's DataFrame is a `seq` of row records.

The projection has a closed form in `Projection`, which serves as the reference
for both loops. Month `k + 1` earns the opening revenue grown `k` times. Its
balance is the opening cash plus the net flows accumulated so far. The loop in
`CashFlow.CashFlowForecast` is proved to produce exactly the closed form, with
loop invariants. So is the recursive function `Scenario.Run`, by induction. It
follows that the two files agree row by row (`Scenario.ScenarioMatchesForecast`).

Where the program's own text and its code differ, the model follows the code:

- The health score is at most 8, because the code has four categories of at
  most 2 points each. The docstring of `financial_health_assessment`
  (finance.py:70) says the maximum is 10, and the financial-planning page shows
  the score as `f"{score} / 10"`. `Finance.ScoreEightIffAllStrong` proves that
  8 is the maximum and that 10 is never reached.

The projections loop over `range(1, months + 1)` (modules/cashflow.py:20,
scenario.py:20), so a month count of 0 or less yields an empty table rather
than an error.

## Model

| member | source | states |
|---|---|---|
| ExtReal.DivOrZero | finance.py:34 | a guarded ratio `n / d if d else 0` is 0 when `d` is 0, and otherwise it times `d` gives `n` |
| ExtReal.DivOrInf | finance.py:54 | a guarded ratio `n / d if d else inf` is +∞ exactly when `d` is 0, and otherwise it is finite and times `d` gives `n` |
| ExtReal.LeIsTotalOrder | finance.py:96 | the order of the extended reals is a total order with +∞ as its top |
| ExtReal.ComparisonsAgreeWithReals | finance.py:96-99 | threshold tests agree with real comparison on finite values; +∞ passes every `>=` and `>` test and fails every `<=` and `<` test |
| Finance.BreakEvenPoint | finance.py:8-12 | the result is None exactly when `price - variable_cost <= 0`; otherwise the result times that margin equals the fixed cost |
| Finance.BreakEvenMonotone | finance.py:8-12 | with a non-negative fixed cost, a larger contribution margin never raises the break-even volume |
| Finance.Ratio | finance.py:34-62 | each ratio is numerator over denominator when the denominator is non-zero; with a zero denominator it is +∞ for Current Ratio, Cash Ratio and Debt-to-Equity and 0 for every other ratio |
| Finance.ExtendedFinancialRatios | finance.py:16-64 | the dictionary has exactly the thirteen ratio keys, and each entry is that ratio of the statement |
| Finance.ZeroDenominatorSentinels | finance.py:34-62 | no revenue makes all five revenue ratios 0; no assets makes ROA, Asset Turnover, Debt Ratio and Equity Ratio 0; no equity makes Debt-to-Equity +∞ but ROE 0; no current liabilities makes Current and Cash Ratio +∞ |
| Finance.MarginsDifferByOperatingCost | finance.py:34-49 | with non-zero revenue, Gross Margin minus Operating Margin equals the Operating Cost Ratio |
| Finance.MissingRatiosReadAsDefaults | finance.py:78-124 | `Lookup` and the readers `Gm`…`Roa` are `ratios.get(key, default)`: a present key gives its stored value; a missing Cost-to-Revenue is read as 1, and a missing Gross Margin, Current Ratio, Cash Ratio, Debt-to-Equity, Debt Ratio, ROE or ROA is read as 0 |
| Finance.Grade | finance.py:81-133 | a category is Strong exactly when its Strong test passes, Weak exactly when its Acceptable test fails, and earns at least 1 point exactly when its Acceptable test passes |
| Finance.FinancialHealthAssessment | finance.py:67-135 | all four categories are present; each is Strong exactly when its Strong test passes and Acceptable exactly when only its Acceptable test passes; the score is the sum of the category points and lies in 0..8 |
| Finance.StrongImpliesAcceptable | finance.py:81-129 | in every category, passing the Strong test implies passing the Acceptable test |
| Finance.AssessmentMonotone | finance.py:78-135 | improving any ratio the scorer reads, including from a finite value to +∞, never lowers a category's points or the total score |
| Finance.GradeMonotone | finance.py:81-133 | improving the ratios never lowers the points of any single category |
| Finance.RaisingGrossMarginHelps | finance.py:78-88 | raising Gross Margin with everything else fixed never lowers the Profitability label |
| Finance.ScoreEightIffAllStrong | finance.py:70-135 | the score is 8 exactly when all four categories are Strong, and it is never 10 |
| Finance.MissingCostToRevenueMeansWeakProfitability | finance.py:78-88 | without a Cost-to-Revenue entry, Profitability is Weak whatever the Gross Margin |
| Finance.EmptyRatiosScoreTwo | finance.py:72-135 | an empty ratio dictionary gives Leverage / Risk Strong, the other three categories Weak, and a score of 2 |
| Finance.NoLiabilitiesMeansStrongLiquidity | finance.py:54-99 | with zero current liabilities, Liquidity is always Strong |
| Finance.NoEquityMeansWeakLeverage | finance.py:60-118 | with zero equity, Leverage / Risk is always Weak |
| Finance.ZeroDenominatorsMeanWeak | finance.py:34-133 | with zero revenue Profitability is Weak; with zero total assets Return on Capital is Weak |
| Finance.HealthyExample | finance.py:67-135 | an example: the ratios Gross Margin 0.45, Cost-to-Revenue 0.6, Current Ratio 2.0, Cash Ratio 0.6, Debt-to-Equity 0.8, Debt Ratio 0.4, ROE 0.2 and ROA 0.08 is Strong everywhere and scores 8 |
| Business.UnitEconomics | modules/business.py:7-25 | zero churn gives LTV 0, not +∞, and otherwise LTV times churn equals ARPU times gross margin; LTV/CAC is +∞ exactly when CAC is 0, and otherwise it times CAC equals LTV; payback is +∞ exactly when ARPU times gross margin is 0, and otherwise it times that product equals CAC; net unit profit equals LTV minus CAC; churn and gross margin pass through unchanged |
| Business.ReadoutOfEngine | modules/business.py:11-65 | `ReadoutOf` reads the engine's entries for the verdict (lines 29-32) and the advice (lines 61-65); what they read of the engine's output: churn and margin as given, LTV/CAC +∞ exactly when CAC is 0, payback +∞ exactly when ARPU times margin is 0, net unit profit equal to LTV less CAC |
| Business.AssessUnitEconomics | modules/business.py:28-56 | the result is exactly one of the pairs (highly viable, success), (early stage, warning) or (high risk, error); it is highly viable exactly when the tier-1 thresholds hold, and early stage exactly when only the tier-2 thresholds hold |
| Business.TiersNested | modules/business.py:34-49 | a readout that meets every tier-1 threshold also meets every tier-2 threshold |
| Business.VerdictMonotone | modules/business.py:34-56 | improving any metric the verdict reads never lowers the verdict |
| Business.UnitEconomicsRecommendations | modules/business.py:58-105 | there are always exactly 5 messages, one per metric, in the order LTV/CAC, payback, churn, margin, net profit; each message is critical or positive exactly when its metric crosses that metric's cut-off; the first is critical exactly when LTV/CAC < 1; the last is the negative one exactly when net unit profit < 0 |
| Business.VerdictAgreesWithAdvice | modules/business.py:28-105 | a highly viable readout gets no critical message on LTV/CAC, payback, churn or margin; a critical LTV/CAC message always comes with the high-risk verdict |
| Business.ZeroChurnIsJudgedHighRisk | modules/business.py:11-69 | zero churn with non-zero CAC gives LTV/CAC 0, which always means the high-risk verdict and a critical first message |
| Projection.RevenueIsGeometric | modules/cashflow.py:18-34 | revenue in month k + 1 is the opening revenue times `(1 + growth)^k` |
| Projection.CumNetIsSum | modules/cashflow.py:17-24 | any column that holds the projected net flows month by month sums to the accumulated net flow |
| CashFlow.CashFlowForecast | modules/cashflow.py:8-36 | the loop yields `max(months, 0)` rows, and row k is month k + 1 of the closed form: revenue grown k times, fixed plus variable cost, revenue minus cost, and the opening cash plus the first k + 1 net flows |
| CashFlow.ForecastProperties | modules/cashflow.py:20-34 | months are numbered 1..months; row 1 has the opening revenue; each row's revenue is the previous row's times `(1 + growth)`; Total Cost equals fixed cost plus revenue times the variable ratio; Net Cash Flow equals revenue minus Total Cost |
| CashFlow.ForecastCashIsPrefixSum | modules/cashflow.py:17-31 | each row's Cash Balance equals the opening cash plus the sum of the Net Cash Flow column up to and including that row |
| CashFlow.CalculateRunway | modules/cashflow.py:39-42 | runway is +∞ exactly when the burn rate is >= 0; otherwise runway times the absolute burn rate equals the opening cash |
| CashFlow.RunwayExamples | modules/cashflow.py:39-42 | 12000 at a burn rate of -2000 lasts 6 months; at +500 it lasts indefinitely |
| CashFlow.ForecastExample | modules/cashflow.py:8-36 | a three-month example (cash 10000, revenue 5000, growth 5%, fixed cost 2000, variable 30%) gives the balances 11500, 13175 and 15033.75 |
| Scenario.Run | scenario.py:20-32 | from month m, the loop yields `max(months - m + 1, 0)` rows numbered m, m + 1, … |
| Scenario.Series | scenario.py:12-34 | a scenario's table has `max(months, 0)` rows numbered 1..months; the first row carries the scenario's opening revenue and starts from the shared opening cash |
| Scenario.ScenarioAnalysis | scenario.py:8-36 | the result has exactly the input's scenario names as keys |
| Scenario.RunClosedForm | scenario.py:20-32 | a loop entered at month m with the closed-form balance and revenue keeps producing closed-form rows |
| Scenario.SeriesClosedForm | scenario.py:11-34 | each scenario's table has `max(months, 0)` rows, each equal to its closed form |
| Scenario.SeriesProperties | scenario.py:11-32 | rows are numbered 1..months; the first row has the scenario's opening revenue and starts from the shared opening cash; revenue grows by `(1 + growth)` after each row; Net Cash Flow equals revenue minus fixed cost and revenue times the variable ratio |
| Scenario.SeriesCashIsPrefixSum | scenario.py:12-23 | each row's Cash Balance equals the opening cash plus the sum of the Net Cash Flow column up to and including that row |
| Scenario.ScenariosIndependent | scenario.py:11-34 | changing or adding one scenario leaves every other scenario's table unchanged |
| Scenario.ScenarioMatchesForecast | scenario.py:20-32 | with the same drivers, a scenario's Month, Revenue, Net Cash Flow and Cash Balance equal the single forecast's, row by row |

## Left out

- Business.UnitEconomics: the `round()` calls on the returned figures are not modelled. They are display rounding on binary floats. The engine is modelled at full precision, and the verdict and the recommendations take the figures they read (`Business.Readout`) as direct inputs.
- Business.ZeroChurnIsJudgedHighRisk: it chains the engine into the verdict without rounding. The figures it relies on, 0 and +∞, are unchanged by rounding.
- Business.UnitEconomicsRecommendations: the Vietnamese message texts are represented by `Advice(topic, tone)`, one pair per distinct message. The verdict texts and colour names are the enumerations `Verdict` and `Color`.
- CashFlow.CashFlowForecast: the pandas DataFrame becomes a `seq` of `ForecastRow` records. The default `months=24` is a Python default argument, so the month count is always an explicit input here.
- Scenario.ScenarioAnalysis: the default `months=24` of `scenario_analysis` (scenario.py:8) is not modelled either; the month count is always an explicit input. Each DataFrame becomes a `seq` of `ScenarioRow` records.
- Scenario.ScenarioAnalysis and Business.ReadoutOf: the `params` dictionaries of `scenario_analysis` (scenario.py:13-16) become `Projection.Drivers` records, and the `ue[...]` reads (modules/business.py:29-32, 61-65) become the `Business.Readout` record, so the `KeyError` of a missing key is not modelled; the pages always supply every key.
- Finance.FinancialHealthAssessment and Scenario.ScenarioAnalysis: the insertion order of the returned Python dictionaries is lost, since a Dafny `map` is unordered. The pages iterate `assessment.items()` and `results.items()` in that order for display and chart columns only.
- IEEE floating point: overflow, NaN, and rounding inside the additions and products. The model computes over exact `real`. Negative infinity is never produced, so it is not represented.
- The Monte Carlo simulation (`modules/monte_carlo.py`): its point is random sampling from normal distributions, which has no meaningful Dafny model.
- The pages, Home.py, chart and PDF generation, and file uploads: user interface and I/O. Computing the average burn rate from the forecast's Net Cash Flow column is also page code and is left out.
