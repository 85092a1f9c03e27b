/**
 * The rule-based narrative: at most one templated sentence per metric, chosen
 * by comparing the metric with a threshold, and the sentences laid out as one
 * or two paragraphs.
 */
module Narratives {
  import opened Wrappers
  import opened JsValues
  import opened JsText

  /**
   * The metrics the narrative reads. `None` is a value that is not a number
   * (`typeof` other than 'number'); a number may be NaN or infinite.
   */
  datatype Metrics = Metrics(
    avgGrossMargin: Option<JsNum>, revenueVolatility: Option<JsNum>, revenueTrend: Option<JsNum>,
    currentRatio: Option<JsNum>, debtToEquity: Option<JsNum>, netIncomeAvg: Option<JsNum>)

  /** The thresholds a caller may configure; `None` is a threshold left out. */
  datatype Standards = Standards(
    grossMarginHigh: Option<real>, grossMarginLow: Option<real>, revenueVolatilityPct: Option<real>,
    currentRatioHealthy: Option<real>, currentRatioWarning: Option<real>,
    debtToEquitySafe: Option<real>, debtToEquityRisky: Option<real>, netIncomeBaseline: Option<real>)

  /** The empty standards record `{}`. */
  const NoStandards := Standards(None, None, None, None, None, None, None, None)

  /** `configured || default`: a missing or zero threshold is replaced by the default. */
  function Threshold(configured: Option<real>, default: real): (t: real)
    ensures configured.Some? && configured.value != 0.0 ==> t == configured.value
    ensures configured.None? || configured.value == 0.0 ==> t == default
  {
    if configured.Some? && configured.value != 0.0 then configured.value else default
  }

  /** The templated sentences, one constructor per template. */
  datatype Sentence =
    | GrossMarginHigh | GrossMarginMedium | GrossMarginLow
    | RevenueStable | RevenueVolatile | RevenueDeclining
    | LiquidityHealthy | LiquidityWarning
    | LeverageSafe | LeverageRisky
    | NetIncomePositive | NetIncomeNegative

  const GrossMarginHighText := "Gross margins are high, indicating strong pricing power or low cost of goods sold."
  const GrossMarginMediumText := "Gross margins are moderate, suggesting reasonable pricing and some room for efficiency improvements."
  const GrossMarginLowText := "Gross margins are low, which may indicate pricing pressure or elevated production costs."
  const RevenueStableText := "Revenue growth is stable month-over-month, indicating consistent demand."
  const RevenueVolatileText := "Revenue shows higher volatility month-over-month, suggesting irregular demand or seasonality."
  const RevenueDecliningText := "Revenue is trending downward month-over-month, which may signal weakening demand."
  const LiquidityHealthyText := "Liquidity appears healthy, with adequate short-term assets to cover liabilities."
  const LiquidityWarningText := "Liquidity is tight; monitor short-term obligations and working capital closely."
  const LeverageSafeText := "Leverage is within conservative bounds, reducing solvency risk."
  const LeverageRiskyText := "Leverage is elevated relative to equity; this increases financial vulnerability during downturns."
  const NetIncomePositiveText := "Net income is positive and consistent, reflecting operational profitability."
  const NetIncomeNegativeText := "Net income is negative, which could indicate persistent losses or one-off charges."

  /** The text of each template. */
  function Template(k: Sentence): string {
    match k
    case GrossMarginHigh => GrossMarginHighText
    case GrossMarginMedium => GrossMarginMediumText
    case GrossMarginLow => GrossMarginLowText
    case RevenueStable => RevenueStableText
    case RevenueVolatile => RevenueVolatileText
    case RevenueDeclining => RevenueDecliningText
    case LiquidityHealthy => LiquidityHealthyText
    case LiquidityWarning => LiquidityWarningText
    case LeverageSafe => LeverageSafeText
    case LeverageRisky => LeverageRiskyText
    case NetIncomePositive => NetIncomePositiveText
    case NetIncomeNegative => NetIncomeNegativeText
  }

  /** No template is empty. */
  lemma TemplateNonEmpty(k: Sentence)
    ensures |Template(k)| > 0
  {
    match k
    case GrossMarginHigh => assert |GrossMarginHighText| > 0;
    case GrossMarginMedium => assert |GrossMarginMediumText| > 0;
    case GrossMarginLow => assert |GrossMarginLowText| > 0;
    case RevenueStable => assert |RevenueStableText| > 0;
    case RevenueVolatile => assert |RevenueVolatileText| > 0;
    case RevenueDeclining => assert |RevenueDecliningText| > 0;
    case LiquidityHealthy => assert |LiquidityHealthyText| > 0;
    case LiquidityWarning => assert |LiquidityWarningText| > 0;
    case LeverageSafe => assert |LeverageSafeText| > 0;
    case LeverageRisky => assert |LeverageRiskyText| > 0;
    case NetIncomePositive => assert |NetIncomePositiveText| > 0;
    case NetIncomeNegative => assert |NetIncomeNegativeText| > 0;
  }

  const NoNarrative := "No narrative available for the loaded dataset."

  /** High at or above the high threshold (default 40), else low at or below the low one (default 20), else moderate. */
  function GrossMarginSentence(gm: JsNum, s: Standards): (r: Sentence)
    ensures r == GrossMarginHigh <==> Ge(gm, Threshold(s.grossMarginHigh, 40.0))
    ensures r == GrossMarginLow <==> !Ge(gm, Threshold(s.grossMarginHigh, 40.0)) && Le(gm, Threshold(s.grossMarginLow, 20.0))
    ensures r == GrossMarginMedium <==> !Ge(gm, Threshold(s.grossMarginHigh, 40.0)) && !Le(gm, Threshold(s.grossMarginLow, 20.0))
  {
    if Ge(gm, Threshold(s.grossMarginHigh, 40.0)) then GrossMarginHigh
    else if Le(gm, Threshold(s.grossMarginLow, 20.0)) then GrossMarginLow
    else GrossMarginMedium
  }

  /** `trend && trend < -0.5`: a truthy trend below -0.5. */
  predicate Declining(trend: Option<JsNum>) {
    trend.Some? && NumTruthy(trend.value) && Lt(trend.value, -0.5)
  }

  /** Declining takes precedence; otherwise volatile above the volatility threshold (default 8); otherwise stable. */
  function RevenueSentence(vol: JsNum, trend: Option<JsNum>, s: Standards): (r: Sentence)
    ensures r == RevenueDeclining <==> Declining(trend)
    ensures r == RevenueVolatile <==> !Declining(trend) && Gt(vol, Threshold(s.revenueVolatilityPct, 8.0))
    ensures r == RevenueStable <==> !Declining(trend) && !Gt(vol, Threshold(s.revenueVolatilityPct, 8.0))
  {
    if Declining(trend) then RevenueDeclining
    else if Gt(vol, Threshold(s.revenueVolatilityPct, 8.0)) then RevenueVolatile
    else RevenueStable
  }

  /** Healthy exactly when the current ratio reaches the healthy threshold (default 1.5). */
  function LiquiditySentence(cr: JsNum, s: Standards): (r: Sentence)
    ensures r == LiquidityHealthy <==> Ge(cr, Threshold(s.currentRatioHealthy, 1.5))
    ensures r == LiquidityWarning <==> !Ge(cr, Threshold(s.currentRatioHealthy, 1.5))
  {
    if Ge(cr, Threshold(s.currentRatioHealthy, 1.5)) then LiquidityHealthy else LiquidityWarning
  }

  /** Risky only above the safe threshold (default 1) and at or above the risky one (default 2); safe otherwise, in between too. */
  function LeverageSentence(de: JsNum, s: Standards): (r: Sentence)
    ensures r == LeverageRisky <==> !Le(de, Threshold(s.debtToEquitySafe, 1.0)) && Ge(de, Threshold(s.debtToEquityRisky, 2.0))
    ensures r == LeverageSafe <==> Le(de, Threshold(s.debtToEquitySafe, 1.0)) || !Ge(de, Threshold(s.debtToEquityRisky, 2.0))
  {
    if Le(de, Threshold(s.debtToEquitySafe, 1.0)) then LeverageSafe
    else if Ge(de, Threshold(s.debtToEquityRisky, 2.0)) then LeverageRisky
    else LeverageSafe
  }

  /** Positive exactly when the average reaches the baseline (default 0). */
  function NetIncomeSentence(ni: JsNum, s: Standards): (r: Sentence)
    ensures r == NetIncomePositive <==> Ge(ni, Threshold(s.netIncomeBaseline, 0.0))
    ensures r == NetIncomeNegative <==> !Ge(ni, Threshold(s.netIncomeBaseline, 0.0))
  {
    if Ge(ni, Threshold(s.netIncomeBaseline, 0.0)) then NetIncomePositive else NetIncomeNegative
  }

  /** One sentence for a metric that is a number, none otherwise. */
  function Optional(present: bool, sentence: Sentence): (r: seq<Sentence>)
    ensures present ==> r == [sentence]
    ensures !present ==> r == []
  {
    if present then [sentence] else []
  }

  /** The number of the five metrics that are numbers. */
  function Present(m: Metrics): nat {
    (if m.avgGrossMargin.Some? then 1 else 0) + (if m.revenueVolatility.Some? then 1 else 0)
    + (if m.currentRatio.Some? then 1 else 0) + (if m.debtToEquity.Some? then 1 else 0)
    + (if m.netIncomeAvg.Some? then 1 else 0)
  }

  /**
   * The sentences `parts` collects: gross margin, revenue, liquidity, leverage
   * and net income, in that order, each only when its metric is a number.
   */
  function Sentences(m: Metrics, s: Standards): (parts: seq<Sentence>)
    ensures |parts| == Present(m)
  {
    Optional(m.avgGrossMargin.Some?, GrossMarginSentence(m.avgGrossMargin.GetOr(NaN), s))
    + Optional(m.revenueVolatility.Some?, RevenueSentence(m.revenueVolatility.GetOr(NaN), m.revenueTrend, s))
    + Optional(m.currentRatio.Some?, LiquiditySentence(m.currentRatio.GetOr(NaN), s))
    + Optional(m.debtToEquity.Some?, LeverageSentence(m.debtToEquity.GetOr(NaN), s))
    + Optional(m.netIncomeAvg.Some?, NetIncomeSentence(m.netIncomeAvg.GetOr(NaN), s))
  }

  /** With all five metrics present, the sentences are one per metric in the fixed order. */
  lemma SentencesInOrder(m: Metrics, s: Standards)
    requires m.avgGrossMargin.Some? && m.revenueVolatility.Some? && m.currentRatio.Some?
    requires m.debtToEquity.Some? && m.netIncomeAvg.Some?
    ensures Sentences(m, s) == [
      GrossMarginSentence(m.avgGrossMargin.value, s),
      RevenueSentence(m.revenueVolatility.value, m.revenueTrend, s),
      LiquiditySentence(m.currentRatio.value, s),
      LeverageSentence(m.debtToEquity.value, s),
      NetIncomeSentence(m.netIncomeAvg.value, s)]
  {
  }

  /**
   * The reading of each of the five metrics, in the order the narrative
   * visits them: the sentence its value selects, or `None` when it is not a
   * number.
   */
  function Readings(m: Metrics, s: Standards): (c: seq<Option<Sentence>>)
    ensures |c| == 5
  {
    [ if m.avgGrossMargin.Some? then Some(GrossMarginSentence(m.avgGrossMargin.value, s)) else None,
      if m.revenueVolatility.Some? then Some(RevenueSentence(m.revenueVolatility.value, m.revenueTrend, s)) else None,
      if m.currentRatio.Some? then Some(LiquiditySentence(m.currentRatio.value, s)) else None,
      if m.debtToEquity.Some? then Some(LeverageSentence(m.debtToEquity.value, s)) else None,
      if m.netIncomeAvg.Some? then Some(NetIncomeSentence(m.netIncomeAvg.value, s)) else None ]
  }

  /** The values of the present entries, in order. */
  function Somes<T>(c: seq<Option<T>>): seq<T> {
    if c == [] then []
    else Somes(c[..|c| - 1]) + (if c[|c| - 1].Some? then [c[|c| - 1].value] else [])
  }

  /**
   * A present entry lands in the filtered list at the position given by the
   * number of present entries before it.
   */
  lemma {:induction false} SomesPlaced<T>(c: seq<Option<T>>, k: int)
    requires 0 <= k < |c| && c[k].Some?
    ensures |Somes(c[..k])| < |Somes(c)| && Somes(c)[|Somes(c[..k])|] == c[k].value
  {
    var init := c[..|c| - 1];
    if k == |c| - 1 {
      assert c[..k] == init;
    } else {
      assert init[..k] == c[..k];
      SomesPlaced(init, k);
    }
  }

  /** A later present entry has more present entries before it. */
  lemma {:induction false} SomesMonotone<T>(c: seq<Option<T>>, j: int, k: int)
    requires 0 <= j < k <= |c| && c[j].Some?
    ensures |Somes(c[..j])| < |Somes(c[..k])|
  {
    if k == j + 1 {
      assert c[..k][..j] == c[..j];
    } else {
      SomesMonotone(c, j, k - 1);
      assert c[..k][..k - 1] == c[..k - 1];
    }
  }

  /** The sentences are the present readings, in the order of the metrics. */
  lemma SentencesAreReadings(m: Metrics, s: Standards)
    ensures Sentences(m, s) == Somes(Readings(m, s))
  {
    var c := Readings(m, s);
    assert c[..1][..0] == [];
    assert Somes(c[..1]) == Optional(m.avgGrossMargin.Some?, GrossMarginSentence(m.avgGrossMargin.GetOr(NaN), s));
    assert c[..2][..1] == c[..1];
    assert Somes(c[..2]) == Somes(c[..1])
      + Optional(m.revenueVolatility.Some?, RevenueSentence(m.revenueVolatility.GetOr(NaN), m.revenueTrend, s));
    assert c[..3][..2] == c[..2];
    assert Somes(c[..3]) == Somes(c[..2]) + Optional(m.currentRatio.Some?, LiquiditySentence(m.currentRatio.GetOr(NaN), s));
    assert c[..4][..3] == c[..3];
    assert Somes(c[..4]) == Somes(c[..3]) + Optional(m.debtToEquity.Some?, LeverageSentence(m.debtToEquity.GetOr(NaN), s));
    assert c[..4] == c[..|c| - 1];
  }

  /**
   * For any set of present metrics: metric k has a sentence exactly when it
   * is a number; that sentence is the one its value selects, and it sits
   * after the sentences of the present metrics before it and before those of
   * the present metrics after it. There are as many sentences as present
   * metrics.
   */
  lemma SentencePlacement(m: Metrics, s: Standards, j: int, k: int)
    requires 0 <= j < k < 5
    ensures var c := Readings(m, s); var parts := Sentences(m, s);
      |parts| == Present(m) == |Somes(c)|
      && (c[k].Some? ==> |Somes(c[..k])| < |parts| && parts[|Somes(c[..k])|] == c[k].value)
      && (c[j].Some? ==> |Somes(c[..j])| < |Somes(c[..k])|)
  {
    var c := Readings(m, s);
    SentencesAreReadings(m, s);
    if c[k].Some? {
      SomesPlaced(c, k);
    }
    if c[j].Some? {
      SomesMonotone(c, j, k);
    }
  }

  /** The gross-margin sentence comes first exactly when that margin is a number. */
  lemma GrossMarginFirst(m: Metrics, s: Standards)
    ensures m.avgGrossMargin.Some? <==>
      Sentences(m, s) != [] && Sentences(m, s)[0] == GrossMarginSentence(m.avgGrossMargin.GetOr(NaN), s)
  {
  }

  /** The texts of a list of sentences. */
  function Texts(parts: seq<Sentence>): (r: seq<string>)
    ensures |r| == |parts|
    ensures forall k :: 0 <= k < |parts| ==> r[k] == Template(parts[k])
  {
    seq(|parts|, k requires 0 <= k < |parts| => Template(parts[k]))
  }

  /**
   * `generateNarrative(metrics, standards)`: the fallback sentence when there is
   * nothing to say, else the first half (rounded up) of the sentences and, when
   * the second half is not empty, a space and the second half.
   */
  function GenerateNarrative(m: Metrics, s: Standards): (r: string)
    ensures Present(m) == 0 ==> r == NoNarrative
    ensures Present(m) > 0 ==> r == Join(Texts(Sentences(m, s)), ' ')
  {
    var parts := Texts(Sentences(m, s));
    assert forall k :: 0 <= k < |parts| ==> |parts[k]| > 0 by {
      forall k | 0 <= k < |parts| { TemplateNonEmpty(Sentences(m, s)[k]); }
    }
    if |parts| == 0 then NoNarrative
    else
      var half := (|parts| + 1) / 2;
      var para1 := Join(parts[..half], ' ');
      var para2 := Join(parts[half..], ' ');
      ParagraphsAreJoin(parts);
      if para2 != "" then para1 + " " + para2 else para1
  }

  /** Splitting the sentences into two paragraphs adds nothing to joining them all with single spaces. */
  lemma ParagraphsAreJoin(parts: seq<string>)
    requires parts != [] && forall k :: 0 <= k < |parts| ==> parts[k] != ""
    ensures var half := (|parts| + 1) / 2;
      var para1 := Join(parts[..half], ' ');
      var para2 := Join(parts[half..], ' ');
      (if para2 != "" then para1 + " " + para2 else para1) == Join(parts, ' ')
  {
    var half := (|parts| + 1) / 2;
    var a, b := parts[..half], parts[half..];
    assert a + b == parts;
    JoinEmpty(b, ' ');
    if b != [] {
      JoinAppend(a, b, ' ');
    } else {
      assert a == parts;
    }
  }

  /** A threshold configured as 0 is the same as one left out. */
  lemma ZeroThresholdIsDefault(m: Metrics, s: Standards)
    requires s.grossMarginHigh == Some(0.0) && s.debtToEquityRisky == Some(0.0)
    ensures GenerateNarrative(m, s) == GenerateNarrative(m, s.(grossMarginHigh := None, debtToEquityRisky := None))
  {
  }
}
