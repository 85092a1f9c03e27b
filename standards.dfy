/** The industry thresholds the dashboard passes to the narrative. */
module Standards {
  import opened Wrappers
  import opened JsValues
  import opened Narratives

  /** `STANDARDS`: gross margin 40/20 percent, volatility 8 percent, current ratio 1.5/1.0, debt to equity 1.0/2.0, net income 0. */
  const STANDARDS: Narratives.Standards := Narratives.Standards(
    Some(40.0), Some(20.0), Some(8.0), Some(1.5), Some(1.0), Some(1.0), Some(2.0), Some(0.0))

  /** The tiers are ordered: high above low, healthy above warning, safe below risky. */
  lemma StandardsOrdered()
    ensures STANDARDS.grossMarginHigh.value > STANDARDS.grossMarginLow.value
    ensures STANDARDS.currentRatioHealthy.value > STANDARDS.currentRatioWarning.value
    ensures STANDARDS.debtToEquitySafe.value < STANDARDS.debtToEquityRisky.value
  {
  }

  /** Every configured value equals the narrative's own default, so passing `STANDARDS` is passing `{}`. */
  lemma StandardsAreDefaults(m: Metrics)
    ensures GenerateNarrative(m, STANDARDS) == GenerateNarrative(m, NoStandards)
  {
    var gm := m.avgGrossMargin.GetOr(NaN);
    var vol := m.revenueVolatility.GetOr(NaN);
    var cr := m.currentRatio.GetOr(NaN);
    var de := m.debtToEquity.GetOr(NaN);
    var ni := m.netIncomeAvg.GetOr(NaN);
    assert GrossMarginSentence(gm, STANDARDS) == GrossMarginSentence(gm, NoStandards);
    assert RevenueSentence(vol, m.revenueTrend, STANDARDS) == RevenueSentence(vol, m.revenueTrend, NoStandards);
    assert LiquiditySentence(cr, STANDARDS) == LiquiditySentence(cr, NoStandards);
    assert LeverageSentence(de, STANDARDS) == LeverageSentence(de, NoStandards);
    assert NetIncomeSentence(ni, STANDARDS) == NetIncomeSentence(ni, NoStandards);
    assert Sentences(m, STANDARDS) == Sentences(m, NoStandards);
  }

  /** The current-ratio warning level is never read: changing it changes no narrative. */
  lemma WarningNeverRead(m: Metrics, s: Narratives.Standards, w: Option<real>)
    ensures GenerateNarrative(m, s.(currentRatioWarning := w)) == GenerateNarrative(m, s)
  {
    assert Sentences(m, s.(currentRatioWarning := w)) == Sentences(m, s);
  }
}
