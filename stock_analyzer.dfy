/**
 * The analyzer object: it holds the loaded stock table, derives the metrics
 * of one quote, sorts the insight fragments into buckets, asks the text
 * generator for a narrative, and wraps everything into a result record or
 * into an error record. The generator is a parameter: any function from a
 * prompt to a text, or to `None` when it raises.
 */
module StockAnalyzer {
  import opened Wrappers
  import opened Numbers
  import opened StockTable
  import opened MetricDeriver
  import opened InsightRules

  /** What the prompt embeds; its text rendering is not modelled. */
  datatype Prompt = Prompt(symbol: string, companyName: Cell, industry: Cell, metrics: Metrics, insights: Insights)

  datatype BasicInfo = BasicInfo(symbol: string, company: Cell, industry: Cell)
  datatype PriceData = PriceData(currentPrice: Num, dayLow: Num, dayHigh: Num, yearLow: Num, yearHigh: Num)
  datatype Performance = Performance(dailyChange: Num, monthlyChange: Num, yearlyChange: Num)
  datatype TradingInfo = TradingInfo(volume: int, valueCr: Num)

  /** The result record of a successful analysis. */
  datatype AnalysisResult = AnalysisResult(
    basicInfo: BasicInfo,
    priceData: PriceData,
    performance: Performance,
    tradingInfo: TradingInfo,
    insights: Insights,
    aiAnalysis: string)

  /** The industry the live rules cite: the cell (maybe NaN) when the column exists, "N/A" otherwise. */
  function LiveIndustry(s: Series): Cell {
    if Industry in s.labels then s.row.industry else Some(NotAvailable)
  }

  /** The industry the older rules cite: absent column and NaN cell both count as unknown. */
  function LegacyIndustry(s: Series): Option<string> {
    if Industry in s.labels then s.row.industry else None
  }

  /** `int(x)`: NaN raises ValueError. */
  function ToInteger(x: Num): (r: Result<int, Error>)
    ensures r.Err? <==> x.None?
    ensures r.Err? ==> r.error == NaNToInteger
    ensures r.Ok? ==> -1.0 < x.value - r.value as real < 1.0
    ensures r.Ok? ==> r.value == Truncate(x.value)
  {
    match x
    case None => Err(NaNToInteger)
    case Some(v) => Ok(Truncate(v))
  }

  /** What `generate_key_insights` returns, or the exception it raises. */
  function LegacyAnalysis(s: Series): Result<Insights, Error> {
    var m :- DeriveMetrics(s);
    Ok(LegacyInsights(m, LegacyIndustry(s)))
  }

  /** The values the prompt embeds for the selected quote. */
  function PromptFor(symbol: string, stock: Series, m: Metrics): Prompt {
    var industry := LiveIndustry(stock);
    Prompt(symbol, stock.row.companyName, industry, m, LiveInsights(m, industry))
  }

  /** What `analyze_stock` returns for the table `data` (None: nothing loaded). */
  function Analysis(data: Option<Table>, symbol: string, generate: Prompt -> Option<string>): Result<AnalysisResult, Error> {
    if data.None? || data.value.IsEmpty() then Err(NoDataLoaded)
    else
      var stock :- Select(data.value, symbol);
      var m :- DeriveMetrics(stock);
      var industry := LiveIndustry(stock);
      var insights := LiveInsights(m, industry);
      if CompanyName !in stock.labels then Err(MissingColumn(CompanyName))
      else
        match generate(PromptFor(symbol, stock, m))
        case None => Err(GenerationFailed)
        case Some(narrative) =>
          var dayLow :- ReadNum(stock, DayLow);
          var dayHigh :- ReadNum(stock, DayHigh);
          var volume :- ReadNum(stock, TotalTradedVolume);
          var shares :- ToInteger(volume);
          Ok(AnalysisResult(
            BasicInfo(symbol, if CompanyName in stock.labels then stock.row.companyName else Some(symbol), industry),
            PriceData(m.price, dayLow, dayHigh, m.yearLow, m.yearHigh),
            Performance(m.daily, m.monthly, m.yearly),
            TradingInfo(shares, m.valueCr),
            insights,
            narrative))
  }

  // ---------------------------------------------------------------------
  // What `analyze_stock` promises

  /** Every condition under which `analyze_stock` returns its result record. */
  predicate CanAnalyze(t: Table, symbol: string, generate: Prompt -> Option<string>) {
    && !t.IsEmpty()
    && Symbol in t.columns
    && FirstMatch(t.rows, symbol).Some?
    && var stock := Series(t.columns, t.rows[FirstMatch(t.rows, symbol).value]);
    && HasMetricColumns(t.columns)
    && !FlatRange(stock.row)
    && CompanyName in t.columns
    && generate(PromptFor(symbol, stock, DeriveMetrics(stock).value)).Some?
    && DayLow in t.columns && DayHigh in t.columns && TotalTradedVolume in t.columns
    && stock.row.totalTradedVolume.Some?
  }

  /** The analysis succeeds exactly under those conditions. */
  lemma AnalysisSucceedsIff(t: Table, symbol: string, generate: Prompt -> Option<string>)
    ensures Analysis(Some(t), symbol, generate).Ok? <==> CanAnalyze(t, symbol, generate)
  {
    if !t.IsEmpty() && Symbol in t.columns && FirstMatch(t.rows, symbol).Some? {
      var stock := Series(t.columns, t.rows[FirstMatch(t.rows, symbol).value]);
      assert Select(t, symbol) == Ok(stock);
    }
  }

  /**
   * A successful result describes the first row carrying the symbol: its
   * company name (the fallback to the symbol is never taken), its cells, the
   * live rule set applied to its metrics, and the generator's text for its prompt.
   */
  lemma SuccessfulAnalysis(t: Table, symbol: string, generate: Prompt -> Option<string>)
    requires Analysis(Some(t), symbol, generate).Ok?
    ensures FirstMatch(t.rows, symbol).Some?
    ensures var row := t.rows[FirstMatch(t.rows, symbol).value];
      var stock := Series(t.columns, row);
      var a := Analysis(Some(t), symbol, generate).value;
      && row.symbol == Some(symbol)
      && DeriveMetrics(stock).Ok?
      && a.basicInfo == BasicInfo(symbol, row.companyName, LiveIndustry(stock))
      && a.priceData == PriceData(row.lastPrice, row.dayLow, row.dayHigh, row.yearLow, row.yearHigh)
      && a.performance == Performance(row.pChange, row.perChange30d, row.perChange365d)
      && row.totalTradedVolume.Some?
      && a.tradingInfo == TradingInfo(Truncate(row.totalTradedVolume.value), ValueInCrore(row.totalTradedValue))
      && a.insights == LiveInsights(DeriveMetrics(stock).value, LiveIndustry(stock))
      && Some(a.aiAnalysis) == generate(PromptFor(symbol, stock, DeriveMetrics(stock).value))
  {
    var stock := Select(t, symbol).value;
    DeriveMetricsValues(stock);
  }

  /** "No data loaded" is reported exactly when nothing was loaded or the frame has no rows. */
  lemma NoDataIff(data: Option<Table>, symbol: string, generate: Prompt -> Option<string>)
    ensures Analysis(data, symbol, generate) == Err(NoDataLoaded) <==> data.None? || data.value.rows == []
  {
  }

  /** A CSV that could not be read leaves an empty frame, so every analysis reports no data. */
  lemma FailedLoadYieldsNoData(symbol: string, generate: Prompt -> Option<string>)
    ensures Analysis(Some(LoadedTable(None)), symbol, generate) == Err(NoDataLoaded)
  {
  }

  /** On a non-empty frame with a symbol column, the lookup fails exactly when no row carries the symbol. */
  lemma UnknownSymbolIff(t: Table, symbol: string, generate: Prompt -> Option<string>)
    requires !t.IsEmpty() && Symbol in t.columns
    ensures Analysis(Some(t), symbol, generate) == Err(SymbolNotFound) <==>
      forall j :: 0 <= j < |t.rows| ==> t.rows[j].symbol != Some(symbol)
  {
    if FirstMatch(t.rows, symbol).Some? {
      var stock := Series(t.columns, t.rows[FirstMatch(t.rows, symbol).value]);
      assert Select(t, symbol) == Ok(stock);
      assert DeriveMetrics(stock).Err? ==> DeriveMetrics(stock).error != SymbolNotFound by {
        if DeriveMetrics(stock).Err? { DeriveMetricsErrors(stock); }
      }
    }
  }

  /**
   * A selected quote whose 52-week high equals its low raises the division
   * error once the six columns before the traded value are read, whether or
   * not the traded value is present.
   */
  lemma FlatRangeFails(t: Table, symbol: string, generate: Prompt -> Option<string>, i: nat)
    requires !t.IsEmpty() && Symbol in t.columns && FirstMatch(t.rows, symbol) == Some(i)
    requires HasPositionColumns(t.columns) && FlatRange(t.rows[i])
    ensures Analysis(Some(t), symbol, generate) == Err(DivisionByZero)
  {
    assert Select(t, symbol) == Ok(Series(t.columns, t.rows[i]));
    DeriveMetricsErrorOrder(Series(t.columns, t.rows[i]));
  }

  /**
   * When the metrics of the selected quote cannot be derived, the analysis
   * raises the same error (the first in reading order, `DeriveMetricsErrorOrder`)
   * before any insight is built or the generator is asked.
   */
  lemma MetricFailurePropagates(t: Table, symbol: string, generate: Prompt -> Option<string>, i: nat)
    requires !t.IsEmpty() && Symbol in t.columns && FirstMatch(t.rows, symbol) == Some(i)
    requires DeriveMetrics(Series(t.columns, t.rows[i])).Err?
    ensures Analysis(Some(t), symbol, generate) == Err(DeriveMetrics(Series(t.columns, t.rows[i])).error)
  {
    assert Select(t, symbol) == Ok(Series(t.columns, t.rows[i]));
  }

  /**
   * Without a companyName column the prompt cannot be written: the analysis
   * fails with that key, whatever the generator would have said.
   */
  lemma MissingCompanyColumnFails(t: Table, symbol: string, generate: Prompt -> Option<string>, i: nat)
    requires !t.IsEmpty() && Symbol in t.columns && FirstMatch(t.rows, symbol) == Some(i)
    requires HasMetricColumns(t.columns) && !FlatRange(t.rows[i])
    requires CompanyName !in t.columns
    ensures Analysis(Some(t), symbol, generate) == Err(MissingColumn(CompanyName))
  {
    assert Select(t, symbol) == Ok(Series(t.columns, t.rows[i]));
  }

  /** When the generator raises, so does the analysis, with nothing of the record returned. */
  lemma GeneratorFailureFails(t: Table, symbol: string, generate: Prompt -> Option<string>, i: nat)
    requires !t.IsEmpty() && Symbol in t.columns && FirstMatch(t.rows, symbol) == Some(i)
    requires HasMetricColumns(t.columns) && !FlatRange(t.rows[i]) && CompanyName in t.columns
    requires var stock := Series(t.columns, t.rows[i]);
      generate(PromptFor(symbol, stock, DeriveMetrics(stock).value)).None?
    ensures Analysis(Some(t), symbol, generate) == Err(GenerationFailed)
  {
    assert Select(t, symbol) == Ok(Series(t.columns, t.rows[i]));
  }

  /**
   * After a load the frame always has an industry column, so the industry a
   * result reports is the row's own cell ("N/A" when the CSV had no such
   * column); the "N/A" default of the analysis itself never applies.
   */
  lemma LoadedIndustryNeverDefaulted(parsed: Option<Table>, symbol: string, generate: Prompt -> Option<string>)
    requires Analysis(Some(LoadedTable(parsed)), symbol, generate).Ok?
    ensures parsed.Some? && FirstMatch(LoadedTable(parsed).rows, symbol).Some?
    ensures var t := LoadedTable(parsed);
      var row := t.rows[FirstMatch(t.rows, symbol).value];
      var a := Analysis(Some(t), symbol, generate).value;
      && a.basicInfo.industry == row.industry
      && (Industry !in parsed.value.columns ==> a.basicInfo.industry == Some(NotAvailable))
  {
    SuccessfulAnalysis(LoadedTable(parsed), symbol, generate);
  }

  // ---------------------------------------------------------------------
  // What `generate_key_insights` promises

  /** It fails exactly when the metrics cannot be derived, and then with the same error. */
  lemma LegacyAnalysisFailsWithMetrics(s: Series)
    ensures LegacyAnalysis(s).Err? <==> !HasMetricColumns(s.labels) || FlatRange(s.row)
    ensures LegacyAnalysis(s).Err? ==> LegacyAnalysis(s).error == DeriveMetrics(s).error
  {
  }

  class EnhancedStockAnalyzer {
    /** The loaded frame; None until `LoadStockData` runs. */
    var stockData: Option<Table>

    /** The frame is absent or is one the loader can leave behind. */
    ghost predicate Valid()
      reads this
    {
      stockData.None? || exists parsed :: stockData == Some(LoadedTable(parsed))
    }

    constructor ()
      ensures stockData == None
      ensures Valid()
    {
      stockData := None;
    }

    /**
     * Replaces the table with what `read_csv` produced (None: it raised),
     * adding an "N/A" industry column when the file has none; on failure
     * the table becomes an empty frame.
     */
    method LoadStockData(parsed: Option<Table>)
      modifies this
      ensures stockData == Some(LoadedTable(parsed))
      ensures Valid()
    {
      match parsed
      case None =>
        stockData := Some(Table({}, []));
      case Some(raw) =>
        var table := raw;
        if Industry !in table.columns {
          var rows := table.rows;
          table := Table(table.columns + {Industry},
                         seq(|rows|, i requires 0 <= i < |rows| => rows[i].(industry := Some(NotAvailable))));
        }
        assert table.rows == LoadedTable(parsed).rows;
        stockData := Some(table);
    }

    /** The older rule set: the metrics are read in the source's order (a missing
        column or a flat 52-week range stops it), then the buckets are filled. */
    method GenerateKeyInsights(stock: Series) returns (r: Result<Insights, Error>)
      ensures r == LegacyAnalysis(stock)
    {
      var yearly :- ReadNum(stock, PerChange365d);
      var monthly :- ReadNum(stock, PerChange30d);
      var daily :- ReadNum(stock, PChange);
      var price :- ReadNum(stock, LastPrice);
      var high :- ReadNum(stock, YearHigh);
      var low :- ReadNum(stock, YearLow);
      var position :- PricePosition(price, low, high);
      var traded :- ReadNum(stock, TotalTradedValue);
      var m := Metrics(yearly, monthly, daily, price, high, low, position, ValueInCrore(traded));
      assert DeriveMetrics(stock) == Ok(m);
      var industry := if Industry in stock.labels then stock.row.industry else None;
      var ins := FillLegacyInsights(m, industry);
      r := Ok(ins);
    }

    /** The growth appends of the older rule set: the sign is checked after the magnitude. */
    method LegacyGrowthInsights(yearly: Num, monthly: Num) returns (growth: seq<Fragment>)
      ensures growth == LegacyGrowth(yearly, monthly)
    {
      AbsAbove(yearly, 20.0);
      AbsAbove(monthly, 10.0);
      growth := [];
      if Above(Abs(yearly), 20.0) {
        if Above(yearly, 0.0) {
          growth := growth + [StrongYearlyGrowth(yearly)];
        } else {
          growth := growth + [SignificantYearlyDecline(yearly)];
        }
      }
      if Above(Abs(monthly), 10.0) {
        if Above(monthly, 0.0) {
          growth := growth + [RobustMonthlyGains(monthly)];
        } else {
          growth := growth + [NotableMonthlyDecline(monthly)];
        }
      }
    }

    /** The appends of the older rule set, in the source's order. */
    method FillLegacyInsights(m: Metrics, industry: Option<string>) returns (ins: Insights)
      ensures ins == LegacyInsights(m, industry)
    {
      var growth := LegacyGrowthInsights(m.yearly, m.monthly);
      var valuation, technical, market, strategy := [], [], [], [];

      if Above(m.position, 80.0) {
        technical := technical + [NearYearHigh];
        valuation := valuation + [OvervaluationRisk];
      } else if Below(m.position, 20.0) {
        technical := technical + [NearYearLow];
        strategy := strategy + [ConsiderAccumulation];
      }
      assert valuation == LegacyValuation(m.position);
      assert strategy == When(Below(m.position, 20.0), ConsiderAccumulation);

      if Above(m.valueCr, 1000.0) {
        technical := technical + [HighTradingActivity(m.valueCr)];
      }
      assert technical == When(Above(m.position, 80.0), NearYearHigh)
        + When(Below(m.position, 20.0), NearYearLow)
        + When(Above(m.valueCr, 1000.0), HighTradingActivity(m.valueCr));

      if Above(m.position, 90.0) {
        market := market + [OverboughtPullbackRisk];
        strategy := strategy + [BookPartialProfits];
      } else if Below(m.position, 10.0) {
        market := market + [OversoldWatchReversal];
        strategy := strategy + [ValueInvestorOpportunity];
      }
      assert strategy == When(Below(m.position, 20.0), ConsiderAccumulation)
        + When(Above(m.position, 90.0), BookPartialProfits)
        + When(Below(m.position, 10.0), ValueInvestorOpportunity);

      if Above(Abs(m.daily), 3.0) {
        technical := technical + [HighVolatilityToday(m.daily)];
        strategy := strategy + [UseStopLoss];
      }
      assert technical == LegacyTechnical(m.position, m.valueCr, m.daily);
      assert strategy == LegacyStrategy(m.position, m.daily);

      if industry.Some? {
        market := market + [MonitorSectorCompetition(industry.value)];
      }
      assert market == LegacyMarket(m.position, industry);
      ins := Insights(growth, valuation, technical, market, strategy);
    }

    /** The growth section of the live rule set, with its empty-bucket fallback. */
    method LiveGrowthInsights(yearly: Num, monthly: Num) returns (growth: seq<Fragment>)
      ensures growth == LiveGrowth(yearly, monthly)
    {
      growth := [];
      if Above(yearly, 20.0) {
        growth := growth + [StrongYearlyGrowth(yearly)];
      } else if Below(yearly, -20.0) {
        growth := growth + [SignificantDecline(yearly)];
      }
      if Above(monthly, 10.0) {
        growth := growth + [RobustMonthlyPerformance(monthly)];
      }
      if growth == [] {
        growth := growth + [ModerateGrowth(yearly)];
      }
    }

    /** The technical section of the live rule set, with its empty-bucket fallback. */
    method LiveTechnicalInsights(position: Num, valueCr: Num) returns (technical: seq<Fragment>)
      ensures technical == LiveTechnical(position, valueCr)
    {
      technical := [];
      if Above(position, 90.0) {
        technical := technical + [StronglyOverbought];
      } else if Below(position, 10.0) {
        technical := technical + [StronglyOversold];
      }
      if Above(valueCr, 1000.0) {
        technical := technical + [HighTradingActivity(valueCr)];
      }
      if technical == [] {
        technical := technical + [NeutralTechnical];
      }
    }

    /** The bucket-filling part of `analyze_stock`: if/elif chains, then the empty-bucket fallbacks. */
    method BuildInsights(m: Metrics, industry: Cell) returns (ins: Insights)
      ensures ins == LiveInsights(m, industry)
    {
      var growth := LiveGrowthInsights(m.yearly, m.monthly);

      var valuation: seq<Fragment> := [];
      if Above(m.position, 80.0) {
        valuation := valuation + [NearHighOvervaluation];
      } else if Below(m.position, 20.0) {
        valuation := valuation + [NearLowUndervaluation];
      } else {
        valuation := valuation + [TradingAtRangePercent(m.position)];
      }
      assert valuation == LiveValuation(m.position);

      var technical := LiveTechnicalInsights(m.position, m.valueCr);

      var market: seq<Fragment> := [MonitorSector(industry)];
      if Above(Abs(m.daily), 3.0) {
        market := market + [HighDailyVolatility(m.daily)];
      }

      var strategy: seq<Fragment> := [];
      if Above(m.position, 80.0) {
        strategy := strategy + [ProfitBooking];
      } else if Below(m.position, 20.0) {
        strategy := strategy + [GradualAccumulation];
      } else {
        strategy := strategy + [HoldWithStopLoss];
      }
      assert strategy == LiveStrategy(m.position);

      ins := Insights(growth, valuation, technical, market, strategy);
    }

    /** `analyze_stock`: every exception becomes an error result, never a partial one. */
    method AnalyzeStock(symbol: string, generate: Prompt -> Option<string>) returns (r: Result<AnalysisResult, Error>)
      ensures r == Analysis(stockData, symbol, generate)
    {
      if stockData.None? || stockData.value.IsEmpty() {
        return Err(NoDataLoaded);
      }
      var stock :- Select(stockData.value, symbol);

      var yearly :- ReadNum(stock, PerChange365d);
      var monthly :- ReadNum(stock, PerChange30d);
      var daily :- ReadNum(stock, PChange);
      var price :- ReadNum(stock, LastPrice);
      var high :- ReadNum(stock, YearHigh);
      var low :- ReadNum(stock, YearLow);
      var position :- PricePosition(price, low, high);
      var traded :- ReadNum(stock, TotalTradedValue);
      var m := Metrics(yearly, monthly, daily, price, high, low, position, ValueInCrore(traded));

      var industry := if Industry in stock.labels then stock.row.industry else Some(NotAvailable);
      var insights := BuildInsights(m, industry);

      if CompanyName !in stock.labels {
        return Err(MissingColumn(CompanyName));
      }
      var narrative := generate(Prompt(symbol, stock.row.companyName, industry, m, insights));
      assert Prompt(symbol, stock.row.companyName, industry, m, insights) == PromptFor(symbol, stock, m);
      if narrative.None? {
        return Err(GenerationFailed);
      }

      var company := if CompanyName in stock.labels then stock.row.companyName else Some(symbol);
      var dayLow :- ReadNum(stock, DayLow);
      var dayHigh :- ReadNum(stock, DayHigh);
      var volume :- ReadNum(stock, TotalTradedVolume);
      var shares :- ToInteger(volume);
      r := Ok(AnalysisResult(
        BasicInfo(symbol, company, industry),
        PriceData(price, dayLow, dayHigh, low, high),
        Performance(daily, monthly, yearly),
        TradingInfo(shares, m.valueCr),
        insights,
        narrative.value));
    }
  }
}
