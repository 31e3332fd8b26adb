/** The unit-economics engine of `modules/business.py`: LTV, LTV/CAC and
    CAC payback with their zero-denominator sentinels, a three-tier
    viability verdict, and one piece of advice per metric. */
module Business {
  import opened ExtReal

  /** The engine's figures, at full precision. */
  datatype UnitMetrics = UnitMetrics(
    arpu: real,
    cac: real,
    ltv: real,
    ltvCac: Ext,
    payback: Ext,
    netUnitProfit: real,
    churn: real,
    grossMargin: real)

  /** LTV is margin-adjusted revenue over churn, and 0 (not infinite) without
      churn; LTV/CAC is infinite exactly when CAC is 0; payback is infinite
      exactly when the per-customer margin `arpu * grossMargin` is 0; net unit
      profit is LTV minus CAC; churn and gross margin pass through. */
  function UnitEconomics(arpu: real, cac: real, churn: real, grossMargin: real): (ue: UnitMetrics)
    ensures ue.arpu == arpu && ue.cac == cac
    ensures ue.churn == churn && ue.grossMargin == grossMargin
    ensures churn == 0.0 ==> ue.ltv == 0.0
    ensures churn != 0.0 ==> ue.ltv * churn == arpu * grossMargin
    ensures ue.ltvCac == PosInf <==> cac == 0.0
    ensures cac != 0.0 ==> ue.ltvCac.value * cac == ue.ltv
    ensures ue.payback == PosInf <==> arpu * grossMargin == 0.0
    ensures arpu * grossMargin != 0.0 ==> ue.payback.value * (arpu * grossMargin) == cac
    ensures ue.netUnitProfit == ue.ltv - cac
  {
    var ltv := DivOrZero(arpu * grossMargin, churn);
    var ltvCac := DivOrInf(ltv, cac);
    var payback := DivOrInf(cac, arpu * grossMargin);
    UnitMetrics(arpu, cac, ltv, ltvCac, payback, ltv - cac, churn, grossMargin)
  }

  /** The entries of the metrics dictionary that the verdict and the advice
      read. */
  datatype Readout = Readout(ltvCac: Ext, payback: Ext, churn: real, grossMargin: real, netUnitProfit: real)

  /** The readout of the engine's figures, without display rounding: the
      entries "LTV/CAC", "Payback (tháng)", "Churn", "Gross Margin" and
      "Net Unit Profit" of the metrics dictionary. */
  function ReadoutOf(ue: UnitMetrics): Readout {
    Readout(ue.ltvCac, ue.payback, ue.churn, ue.grossMargin, ue.netUnitProfit)
  }

  /** What the verdict and the advice see of the engine's output: the input
      churn and margin unchanged, an infinite LTV/CAC exactly without CAC, an
      infinite payback exactly without per-customer margin, and a net unit
      profit that is LTV less CAC. */
  lemma ReadoutOfEngine(arpu: real, cac: real, churn: real, grossMargin: real)
    ensures var ue := UnitEconomics(arpu, cac, churn, grossMargin);
      var x := ReadoutOf(ue);
      && x.churn == churn && x.grossMargin == grossMargin
      && (x.ltvCac == PosInf <==> cac == 0.0)
      && (x.payback == PosInf <==> arpu * grossMargin == 0.0)
      && x.netUnitProfit == ue.ltv - cac
  {
  }

  // ---------------------------------------------------------------------------
  // Viability verdict
  // ---------------------------------------------------------------------------

  datatype Verdict = HighlyViable | AcceptableEarlyStage | HighRisk

  /** The display colour paired with a verdict. */
  datatype Color = Success | Warning | Error

  predicate HighlyViableTier(x: Readout) {
    AtLeast(x.ltvCac, 3.0) && AtMost(x.payback, 12.0) && x.grossMargin >= 0.5 && x.churn <= 0.08
  }

  predicate EarlyStageTier(x: Readout) {
    AtLeast(x.ltvCac, 2.0) && AtMost(x.payback, 18.0) && x.grossMargin >= 0.3 && x.churn <= 0.15
  }

  /** The first tier whose thresholds all hold, with its colour. */
  function AssessUnitEconomics(x: Readout): (r: (Verdict, Color))
    ensures r == (HighlyViable, Success) || r == (AcceptableEarlyStage, Warning) || r == (HighRisk, Error)
    ensures r.0 == HighlyViable <==> HighlyViableTier(x)
    ensures r.0 == AcceptableEarlyStage <==> !HighlyViableTier(x) && EarlyStageTier(x)
    ensures r.1 != Error <==> EarlyStageTier(x)
  {
    if HighlyViableTier(x) then (HighlyViable, Success)
    else if EarlyStageTier(x) then (AcceptableEarlyStage, Warning)
    else (HighRisk, Error)
  }

  /** The tiers are nested: a highly viable readout meets every threshold of
      the early-stage tier as well. */
  lemma TiersNested(x: Readout)
    ensures HighlyViableTier(x) ==> EarlyStageTier(x)
  {
  }

  function Rank(v: Verdict): int {
    match v
    case HighlyViable => 2
    case AcceptableEarlyStage => 1
    case HighRisk => 0
  }

  /** `b` is at least as good as `a` on every metric the verdict reads. */
  predicate Better(b: Readout, a: Readout) {
    Le(a.ltvCac, b.ltvCac) && Le(b.payback, a.payback) && a.grossMargin <= b.grossMargin && b.churn <= a.churn
  }

  /** Improving any metric never lowers the verdict. */
  lemma VerdictMonotone(a: Readout, b: Readout)
    requires Better(b, a)
    ensures Rank(AssessUnitEconomics(a).0) <= Rank(AssessUnitEconomics(b).0)
  {
  }

  // ---------------------------------------------------------------------------
  // Recommendations
  // ---------------------------------------------------------------------------

  /** The metric a piece of advice is about. */
  datatype Topic = LtvCacTopic | PaybackTopic | ChurnTopic | MarginTopic | NetProfitTopic

  /** How the metric fares: each advice message is the critical, the
      cautionary or the positive message of its topic. */
  datatype Tone = Critical | Caution | Positive

  datatype Advice = Advice(topic: Topic, tone: Tone)

  const TopicOrder: seq<Topic> := [LtvCacTopic, PaybackTopic, ChurnTopic, MarginTopic, NetProfitTopic]

  /** Exactly one message per metric, in the fixed order LTV/CAC, payback,
      churn, margin, net profit; each message's tone is decided by that
      metric's two cut-offs alone. */
  function UnitEconomicsRecommendations(x: Readout): (r: seq<Advice>)
    ensures |r| == |TopicOrder| == 5
    ensures forall i :: 0 <= i < |r| ==> r[i].topic == TopicOrder[i]
    ensures r[0].tone == Critical <==> Below(x.ltvCac, 1.0)
    ensures r[0].tone == Positive <==> AtLeast(x.ltvCac, 3.0)
    ensures r[1].tone == Critical <==> Above(x.payback, 12.0)
    ensures r[1].tone == Positive <==> AtMost(x.payback, 6.0)
    ensures r[2].tone == Critical <==> x.churn > 0.1
    ensures r[2].tone == Positive <==> x.churn <= 0.05
    ensures r[3].tone == Critical <==> x.grossMargin < 0.4
    ensures r[3].tone == Positive <==> x.grossMargin >= 0.6
    ensures r[4].tone == Critical <==> x.netUnitProfit < 0.0
    ensures r[4].tone != Caution
  {
    var ltvCac :=
      if Below(x.ltvCac, 1.0) then Critical
      else if Below(x.ltvCac, 3.0) then Caution
      else Positive;
    var payback :=
      if Above(x.payback, 12.0) then Critical
      else if Above(x.payback, 6.0) then Caution
      else Positive;
    var churn :=
      if x.churn > 0.1 then Critical
      else if x.churn > 0.05 then Caution
      else Positive;
    var margin :=
      if x.grossMargin < 0.4 then Critical
      else if x.grossMargin < 0.6 then Caution
      else Positive;
    var netProfit := if x.netUnitProfit < 0.0 then Critical else Positive;
    [ Advice(LtvCacTopic, ltvCac), Advice(PaybackTopic, payback), Advice(ChurnTopic, churn),
      Advice(MarginTopic, margin), Advice(NetProfitTopic, netProfit) ]
  }

  /** The verdict and the advice agree: a highly viable readout draws no
      critical advice on the four metrics the verdict reads, and a critical
      LTV/CAC message always comes with the high-risk verdict. */
  lemma VerdictAgreesWithAdvice(x: Readout)
    ensures AssessUnitEconomics(x).0 == HighlyViable ==>
      forall i :: 0 <= i < 4 ==> UnitEconomicsRecommendations(x)[i].tone != Critical
    ensures UnitEconomicsRecommendations(x)[0].tone == Critical ==> AssessUnitEconomics(x) == (HighRisk, Error)
  {
  }

  /** Without churn LTV is reported as 0, so with any non-zero CAC the LTV/CAC
      ratio is 0: the engine then judges the business high risk and opens
      with the critical message, however good the other figures are. */
  lemma ZeroChurnIsJudgedHighRisk(arpu: real, cac: real, grossMargin: real)
    requires cac != 0.0
    ensures var x := ReadoutOf(UnitEconomics(arpu, cac, 0.0, grossMargin));
      AssessUnitEconomics(x) == (HighRisk, Error) &&
      UnitEconomicsRecommendations(x)[0].tone == Critical
  {
    var ue := UnitEconomics(arpu, cac, 0.0, grossMargin);
    assert ue.ltvCac.value * cac == 0.0;
  }
}
