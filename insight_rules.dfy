/**
 * The two rule sets that sort fixed text fragments into five buckets:
 * the live one of `analyze_stock` (with fallbacks) and the older one of
 * `generate_key_insights` (no fallbacks, signals spread across buckets).
 * A fragment is a tag carrying the number it cites; its text rendering is
 * not modelled. Each rule set is given here as a guarded concatenation per
 * bucket; the class methods that append step by step are proved equal to it.
 */
module InsightRules {
  import opened Wrappers
  import opened Numbers
  import opened StockTable
  import opened MetricDeriver

  datatype Fragment =
    // analyze_stock
    | StrongYearlyGrowth(yearly: Num)          // also generate_key_insights
    | SignificantDecline(yearly: Num)
    | RobustMonthlyPerformance(monthly: Num)
    | ModerateGrowth(yearly: Num)              // growth fallback
    | NearHighOvervaluation
    | NearLowUndervaluation
    | TradingAtRangePercent(position: Num)     // valuation fallback
    | StronglyOverbought
    | StronglyOversold
    | HighTradingActivity(valueCr: Num)        // also generate_key_insights
    | NeutralTechnical                         // technical fallback
    | MonitorSector(industry: Cell)            // "Monitor {industry} sector trends"
    | HighDailyVolatility(daily: Num)
    | ProfitBooking
    | GradualAccumulation
    | HoldWithStopLoss
    // generate_key_insights only
    | SignificantYearlyDecline(yearly: Num)
    | RobustMonthlyGains(monthly: Num)
    | NotableMonthlyDecline(monthly: Num)
    | NearYearHigh
    | NearYearLow
    | OvervaluationRisk
    | ConsiderAccumulation
    | OverboughtPullbackRisk
    | OversoldWatchReversal
    | BookPartialProfits
    | ValueInvestorOpportunity
    | HighVolatilityToday(daily: Num)
    | UseStopLoss
    | MonitorSectorCompetition(sector: string)

  /** The five buckets, each in insertion order. */
  datatype Insights = Insights(
    growth: seq<Fragment>,
    valuation: seq<Fragment>,
    technical: seq<Fragment>,
    market: seq<Fragment>,
    strategy: seq<Fragment>)

  /** The fragment of a rule whose guard holds, nothing otherwise. */
  function When(fires: bool, f: Fragment): seq<Fragment> {
    if fires then [f] else []
  }

  /** A fragment that appears nowhere else in a bucket is in it exactly when its rule fired. */
  lemma FiresIffMember(head: seq<Fragment>, fires: bool, f: Fragment, next: seq<Fragment>, last: seq<Fragment>)
    requires f !in head && f !in next && f !in last
    ensures f in head + When(fires, f) + next + last <==> fires
  {
  }

  /** How many fragments a guarded append contributes. */
  function Fired(fires: bool): nat {
    if fires then 1 else 0
  }

  /** The empty-bucket check: the fallback only when no rule fired. */
  function OrElse(bucket: seq<Fragment>, fallback: Fragment): seq<Fragment> {
    if bucket == [] then [fallback] else bucket
  }

  // The live rule set of `analyze_stock`, one bucket at a time

  /** Yearly >20 or else <-20, then monthly >10; "moderate growth" when none fired. */
  function LiveGrowth(yearly: Num, monthly: Num): seq<Fragment> {
    OrElse(
      When(Above(yearly, 20.0), StrongYearlyGrowth(yearly))
      + When(Below(yearly, -20.0), SignificantDecline(yearly))
      + When(Above(monthly, 10.0), RobustMonthlyPerformance(monthly)),
      ModerateGrowth(yearly))
  }

  /** Position >80, else <20, else the range percentage. */
  function LiveValuation(position: Num): seq<Fragment> {
    OrElse(
      When(Above(position, 80.0), NearHighOvervaluation)
      + When(Below(position, 20.0), NearLowUndervaluation),
      TradingAtRangePercent(position))
  }

  /** Position >90 or else <10, then value >1000 crore; "neutral" when none fired. */
  function LiveTechnical(position: Num, valueCr: Num): seq<Fragment> {
    OrElse(
      When(Above(position, 90.0), StronglyOverbought)
      + When(Below(position, 10.0), StronglyOversold)
      + When(Above(valueCr, 1000.0), HighTradingActivity(valueCr)),
      NeutralTechnical)
  }

  /** The industry fragment, then volatility when |daily| > 3. */
  function LiveMarket(daily: Num, industry: Cell): seq<Fragment> {
    [MonitorSector(industry)] + When(Above(Abs(daily), 3.0), HighDailyVolatility(daily))
  }

  /** Position >80, else <20, else hold. */
  function LiveStrategy(position: Num): seq<Fragment> {
    OrElse(
      When(Above(position, 80.0), ProfitBooking)
      + When(Below(position, 20.0), GradualAccumulation),
      HoldWithStopLoss)
  }

  /** The rule set of `analyze_stock`; `industry` is the value the market fragment cites. */
  function LiveInsights(m: Metrics, industry: Cell): Insights {
    Insights(
      LiveGrowth(m.yearly, m.monthly),
      LiveValuation(m.position),
      LiveTechnical(m.position, m.valueCr),
      LiveMarket(m.daily, industry),
      LiveStrategy(m.position))
  }

  // The older rule set of `generate_key_insights`, one bucket at a time

  function LegacyGrowth(yearly: Num, monthly: Num): seq<Fragment> {
    When(Above(yearly, 20.0), StrongYearlyGrowth(yearly))
    + When(Below(yearly, -20.0), SignificantYearlyDecline(yearly))
    + When(Above(monthly, 10.0), RobustMonthlyGains(monthly))
    + When(Below(monthly, -10.0), NotableMonthlyDecline(monthly))
  }

  function LegacyValuation(position: Num): seq<Fragment> {
    When(Above(position, 80.0), OvervaluationRisk)
  }

  function LegacyTechnical(position: Num, valueCr: Num, daily: Num): seq<Fragment> {
    When(Above(position, 80.0), NearYearHigh)
    + When(Below(position, 20.0), NearYearLow)
    + When(Above(valueCr, 1000.0), HighTradingActivity(valueCr))
    + When(Above(Abs(daily), 3.0), HighVolatilityToday(daily))
  }

  function LegacyMarket(position: Num, industry: Option<string>): seq<Fragment> {
    When(Above(position, 90.0), OverboughtPullbackRisk)
    + When(Below(position, 10.0), OversoldWatchReversal)
    + (if industry.Some? then [MonitorSectorCompetition(industry.value)] else [])
  }

  function LegacyStrategy(position: Num, daily: Num): seq<Fragment> {
    When(Below(position, 20.0), ConsiderAccumulation)
    + When(Above(position, 90.0), BookPartialProfits)
    + When(Below(position, 10.0), ValueInvestorOpportunity)
    + When(Above(Abs(daily), 3.0), UseStopLoss)
  }

  /** The rule set of `generate_key_insights`; `industry` is None when absent or NaN. */
  function LegacyInsights(m: Metrics, industry: Option<string>): Insights {
    Insights(
      LegacyGrowth(m.yearly, m.monthly),
      LegacyValuation(m.position),
      LegacyTechnical(m.position, m.valueCr, m.daily),
      LegacyMarket(m.position, industry),
      LegacyStrategy(m.position, m.daily))
  }

  // ---------------------------------------------------------------------
  // What the live rule set promises, bucket by bucket

  /**
   * Growth is never empty; strong growth and decline exclude each other;
   * the monthly fragment is an independent extra; the moderate-growth
   * fallback appears exactly when none of the three fired, and then alone.
   */
  lemma LiveGrowthBucket(yearly: Num, monthly: Num)
    ensures var g := LiveGrowth(yearly, monthly);
      && 1 <= |g| <= 2
      && (StrongYearlyGrowth(yearly) in g <==> Above(yearly, 20.0))
      && (SignificantDecline(yearly) in g <==> Below(yearly, -20.0))
      && !(StrongYearlyGrowth(yearly) in g && SignificantDecline(yearly) in g)
      && (RobustMonthlyPerformance(monthly) in g <==> Above(monthly, 10.0))
      && (ModerateGrowth(yearly) in g <==>
            !Above(yearly, 20.0) && !Below(yearly, -20.0) && !Above(monthly, 10.0))
      && (ModerateGrowth(yearly) in g ==> g == [ModerateGrowth(yearly)])
      && (forall f :: f in g ==>
            f in [StrongYearlyGrowth(yearly), SignificantDecline(yearly),
                  RobustMonthlyPerformance(monthly), ModerateGrowth(yearly)])
      && |g| == var fired := Fired(Above(yearly, 20.0)) + Fired(Below(yearly, -20.0)) + Fired(Above(monthly, 10.0));
                if fired == 0 then 1 else fired
  {
  }

  /** Valuation holds exactly one fragment: >80, else <20, else the range percentage. */
  lemma LiveValuationBucket(position: Num)
    ensures var v := LiveValuation(position);
      && |v| == 1
      && (v[0] == NearHighOvervaluation <==> Above(position, 80.0))
      && (v[0] == NearLowUndervaluation <==> Below(position, 20.0))
      && (v[0] == TradingAtRangePercent(position) <==> !Above(position, 80.0) && !Below(position, 20.0))
  {
  }

  /**
   * Technical: at most one of overbought and oversold; high activity exactly
   * above 1000 crore; the neutral fallback exactly when neither fired, alone.
   */
  lemma LiveTechnicalBucket(position: Num, valueCr: Num)
    ensures var t := LiveTechnical(position, valueCr);
      && 1 <= |t| <= 2
      && !(StronglyOverbought in t && StronglyOversold in t)
      && (StronglyOverbought in t <==> Above(position, 90.0))
      && (StronglyOversold in t <==> Below(position, 10.0))
      && (HighTradingActivity(valueCr) in t <==> Above(valueCr, 1000.0))
      && (NeutralTechnical in t <==>
            !Above(position, 90.0) && !Below(position, 10.0) && !Above(valueCr, 1000.0))
      && (NeutralTechnical in t ==> t == [NeutralTechnical])
      && (forall f :: f in t ==>
            f in [StronglyOverbought, StronglyOversold, HighTradingActivity(valueCr), NeutralTechnical])
      && |t| == var fired := Fired(Above(position, 90.0)) + Fired(Below(position, 10.0)) + Fired(Above(valueCr, 1000.0));
                if fired == 0 then 1 else fired
  {
  }

  /** Market starts with the industry fragment; a volatility fragment follows exactly when |daily| > 3. */
  lemma LiveMarketBucket(daily: Num, industry: Cell)
    ensures var k := LiveMarket(daily, industry);
      && 1 <= |k| <= 2
      && k[0] == MonitorSector(industry)
      && (|k| == 2 <==> Above(Abs(daily), 3.0))
      && (|k| == 2 ==> k[1] == HighDailyVolatility(daily))
  {
  }

  /** Strategy holds exactly one fragment: profit booking, accumulation or hold. */
  lemma LiveStrategyBucket(position: Num)
    ensures var s := LiveStrategy(position);
      && |s| == 1
      && (s[0] == ProfitBooking <==> Above(position, 80.0))
      && (s[0] == GradualAccumulation <==> Below(position, 20.0))
      && (s[0] == HoldWithStopLoss <==> !Above(position, 80.0) && !Below(position, 20.0))
  {
  }

  /**
   * Valuation and strategy take the same branch, and above 90 (below 10)
   * the valuation, technical and strategy signals fire together.
   */
  lemma LiveSignalsAgree(m: Metrics, industry: Cell)
    ensures var ins := LiveInsights(m, industry);
      && (ins.valuation == [NearHighOvervaluation] <==> ins.strategy == [ProfitBooking])
      && (ins.valuation == [NearLowUndervaluation] <==> ins.strategy == [GradualAccumulation])
      && (Above(m.position, 90.0) ==>
            ins.valuation == [NearHighOvervaluation] && StronglyOverbought in ins.technical
            && ins.strategy == [ProfitBooking])
      && (Below(m.position, 10.0) ==>
            ins.valuation == [NearLowUndervaluation] && StronglyOversold in ins.technical
            && ins.strategy == [GradualAccumulation])
  {
    LiveValuationBucket(m.position);
    LiveStrategyBucket(m.position);
    LiveTechnicalBucket(m.position, m.valueCr);
  }

  // ---------------------------------------------------------------------
  // What the older rule set of generate_key_insights promises

  /** Growth: up to one yearly and one monthly fragment, in either direction; empty when none fired. */
  lemma LegacyGrowthBucket(yearly: Num, monthly: Num)
    ensures var g := LegacyGrowth(yearly, monthly);
      && |g| <= 2
      && (StrongYearlyGrowth(yearly) in g <==> Above(yearly, 20.0))
      && (SignificantYearlyDecline(yearly) in g <==> Below(yearly, -20.0))
      && (RobustMonthlyGains(monthly) in g <==> Above(monthly, 10.0))
      && (NotableMonthlyDecline(monthly) in g <==> Below(monthly, -10.0))
      && (g == [] <==>
            !Above(yearly, 20.0) && !Below(yearly, -20.0) && !Above(monthly, 10.0) && !Below(monthly, -10.0))
      && (forall f :: f in g ==>
            f in [StrongYearlyGrowth(yearly), SignificantYearlyDecline(yearly),
                  RobustMonthlyGains(monthly), NotableMonthlyDecline(monthly)])
      && |g| == Fired(Above(yearly, 20.0)) + Fired(Below(yearly, -20.0))
                + Fired(Above(monthly, 10.0)) + Fired(Below(monthly, -10.0))
  {
    var yearlyPart := When(Above(yearly, 20.0), StrongYearlyGrowth(yearly))
                      + When(Below(yearly, -20.0), SignificantYearlyDecline(yearly));
    var monthlyPart := When(Above(monthly, 10.0), RobustMonthlyGains(monthly))
                       + When(Below(monthly, -10.0), NotableMonthlyDecline(monthly));
    assert LegacyGrowth(yearly, monthly) == yearlyPart + monthlyPart;
    assert |yearlyPart| <= 1 && |monthlyPart| <= 1;
  }

  /**
   * Technical holds only its four guarded fragments, one per guard that
   * fired, and is empty exactly when none fired: there is no fallback.
   */
  lemma LegacyTechnicalExact(position: Num, valueCr: Num, daily: Num)
    ensures var t := LegacyTechnical(position, valueCr, daily);
      && (forall f :: f in t ==>
            f in [NearYearHigh, NearYearLow, HighTradingActivity(valueCr), HighVolatilityToday(daily)])
      && |t| == Fired(Above(position, 80.0)) + Fired(Below(position, 20.0))
                + Fired(Above(valueCr, 1000.0)) + Fired(Above(Abs(daily), 3.0))
      && (t == [] <==>
            !Above(position, 80.0) && !Below(position, 20.0) && !Above(valueCr, 1000.0) && !Above(Abs(daily), 3.0))
  {
  }

  /** Market holds only the two extreme-position fragments and the sector fragment; no fallback. */
  lemma LegacyMarketExact(position: Num, industry: Option<string>)
    ensures var k := LegacyMarket(position, industry);
      && (forall f :: f in k ==>
            f == OverboughtPullbackRisk || f == OversoldWatchReversal
            || (industry.Some? && f == MonitorSectorCompetition(industry.value)))
      && |k| == Fired(Above(position, 90.0)) + Fired(Below(position, 10.0)) + Fired(industry.Some?)
      && (k == [] <==> !Above(position, 90.0) && !Below(position, 10.0) && industry.None?)
  {
  }

  /** Strategy holds only its four guarded fragments, one per guard that fired; no fallback. */
  lemma LegacyStrategyExact(position: Num, daily: Num)
    ensures var s := LegacyStrategy(position, daily);
      && (forall f :: f in s ==>
            f in [ConsiderAccumulation, BookPartialProfits, ValueInvestorOpportunity, UseStopLoss])
      && |s| == Fired(Below(position, 20.0)) + Fired(Above(position, 90.0))
                + Fired(Below(position, 10.0)) + Fired(Above(Abs(daily), 3.0))
      && (s == [] <==>
            !Below(position, 20.0) && !Above(position, 90.0) && !Below(position, 10.0) && !Above(Abs(daily), 3.0))
  {
  }

  /**
   * Above 80 the technical and valuation buckets both get a fragment;
   * valuation gets nothing else, ever.
   */
  lemma LegacyHighPosition(position: Num, valueCr: Num, daily: Num)
    ensures var t := LegacyTechnical(position, valueCr, daily);
      && (NearYearHigh in t <==> Above(position, 80.0))
      && (LegacyValuation(position) == [OvervaluationRisk] <==> Above(position, 80.0))
      && (LegacyValuation(position) == [] <==> !Above(position, 80.0))
  {
    var tail := When(Below(position, 20.0), NearYearLow)
                + When(Above(valueCr, 1000.0), HighTradingActivity(valueCr))
                + When(Above(Abs(daily), 3.0), HighVolatilityToday(daily));
    assert LegacyTechnical(position, valueCr, daily) == When(Above(position, 80.0), NearYearHigh) + tail;
    assert NearYearHigh !in tail;
  }

  /** Below 20 the technical and strategy buckets both get a fragment. */
  lemma LegacyLowPosition(position: Num, valueCr: Num, daily: Num)
    ensures NearYearLow in LegacyTechnical(position, valueCr, daily) <==> Below(position, 20.0)
    ensures ConsiderAccumulation in LegacyStrategy(position, daily) <==> Below(position, 20.0)
  {
    FiresIffMember(When(Above(position, 80.0), NearYearHigh), Below(position, 20.0), NearYearLow,
      When(Above(valueCr, 1000.0), HighTradingActivity(valueCr)), When(Above(Abs(daily), 3.0), HighVolatilityToday(daily)));
    FiresIffMember([], Below(position, 20.0), ConsiderAccumulation,
      When(Above(position, 90.0), BookPartialProfits), When(Below(position, 10.0), ValueInvestorOpportunity));
    assert [] + When(Below(position, 20.0), ConsiderAccumulation) == When(Below(position, 20.0), ConsiderAccumulation);
  }

  /** Beyond 90 and below 10 the market and strategy buckets both get a fragment. */
  lemma LegacyExtremePosition(position: Num, daily: Num, industry: Option<string>)
    ensures var k := LegacyMarket(position, industry); var s := LegacyStrategy(position, daily);
      && (OverboughtPullbackRisk in k <==> Above(position, 90.0))
      && (BookPartialProfits in s <==> Above(position, 90.0))
      && (OversoldWatchReversal in k <==> Below(position, 10.0))
      && (ValueInvestorOpportunity in s <==> Below(position, 10.0))
  {
    var sector := if industry.Some? then [MonitorSectorCompetition(industry.value)] else [];
    assert OverboughtPullbackRisk !in sector && OversoldWatchReversal !in sector;
    var accumulate := When(Below(position, 20.0), ConsiderAccumulation);
    var stop := When(Above(Abs(daily), 3.0), UseStopLoss);
    assert LegacyStrategy(position, daily) ==
      accumulate + (When(Above(position, 90.0), BookPartialProfits)
      + When(Below(position, 10.0), ValueInvestorOpportunity)) + stop;
    assert BookPartialProfits !in accumulate && BookPartialProfits !in stop;
    assert ValueInvestorOpportunity !in accumulate && ValueInvestorOpportunity !in stop;
  }

  /**
   * The position thresholds overlap rather than exclude: above 90 all four
   * high-side signals fire, below 10 all four low-side ones.
   */
  lemma LegacySignalsOverlap(m: Metrics, industry: Option<string>)
    ensures var ins := LegacyInsights(m, industry);
      && (Above(m.position, 90.0) ==>
            NearYearHigh in ins.technical && ins.valuation == [OvervaluationRisk]
            && OverboughtPullbackRisk in ins.market && BookPartialProfits in ins.strategy)
      && (Below(m.position, 10.0) ==>
            NearYearLow in ins.technical && ConsiderAccumulation in ins.strategy
            && OversoldWatchReversal in ins.market && ValueInvestorOpportunity in ins.strategy)
  {
    LegacyHighPosition(m.position, m.valueCr, m.daily);
    LegacyLowPosition(m.position, m.valueCr, m.daily);
    LegacyExtremePosition(m.position, m.daily, industry);
  }

  /** A daily move beyond 3% adds to both technical and strategy; high activity to technical. */
  lemma LegacyActivitySignals(position: Num, valueCr: Num, daily: Num)
    ensures HighVolatilityToday(daily) in LegacyTechnical(position, valueCr, daily) <==> Above(Abs(daily), 3.0)
    ensures UseStopLoss in LegacyStrategy(position, daily) <==> Above(Abs(daily), 3.0)
    ensures HighTradingActivity(valueCr) in LegacyTechnical(position, valueCr, daily) <==> Above(valueCr, 1000.0)
  {
    var head := When(Above(position, 80.0), NearYearHigh) + When(Below(position, 20.0), NearYearLow);
    assert LegacyTechnical(position, valueCr, daily) ==
      head + When(Above(valueCr, 1000.0), HighTradingActivity(valueCr))
      + When(Above(Abs(daily), 3.0), HighVolatilityToday(daily));
    assert HighTradingActivity(valueCr) !in head && HighVolatilityToday(daily) !in head;
    assert HighTradingActivity(valueCr) != HighVolatilityToday(daily);
    var signals := When(Below(position, 20.0), ConsiderAccumulation)
                   + When(Above(position, 90.0), BookPartialProfits)
                   + When(Below(position, 10.0), ValueInvestorOpportunity);
    assert LegacyStrategy(position, daily) == signals + When(Above(Abs(daily), 3.0), UseStopLoss);
    assert UseStopLoss !in signals;
  }

  /** The sector fragment appears exactly when the industry is known, and cites it. */
  lemma LegacyIndustrySignal(position: Num, industry: Option<string>, name: string)
    ensures MonitorSectorCompetition(name) in LegacyMarket(position, industry) <==> industry == Some(name)
  {
    var signals := When(Above(position, 90.0), OverboughtPullbackRisk)
                   + When(Below(position, 10.0), OversoldWatchReversal);
    assert MonitorSectorCompetition(name) !in signals;
  }

  /**
   * Without fallbacks every bucket can be empty: a quiet quote in mid-range
   * with no industry gets nothing, where the live rules fill four buckets
   * with their fallbacks and the market bucket with the industry fragment.
   */
  lemma LegacyHasNoFallbacks()
    ensures var m := Metrics(Some(5.0), Some(5.0), Some(1.0), Some(150.0), Some(200.0), Some(100.0),
                             Some(50.0), Some(500.0));
      && LegacyInsights(m, None) == Insights([], [], [], [], [])
      && LiveInsights(m, None) == Insights([ModerateGrowth(Some(5.0))], [TradingAtRangePercent(Some(50.0))],
                                           [NeutralTechnical], [MonitorSector(None)], [HoldWithStopLoss])
  {
  }
}
