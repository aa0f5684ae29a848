/**
 * The two derived metrics of a quote: where the last price sits within the
 * 52-week range, in percent, and the traded value in crore (units of 10^7).
 */
module MetricDeriver {
  import opened Wrappers
  import opened Numbers
  import opened StockTable

  /** What the insight rules look at, read from one row. */
  datatype Metrics = Metrics(
    yearly: Num, monthly: Num, daily: Num,
    price: Num, yearHigh: Num, yearLow: Num,
    position: Num, valueCr: Num)

  /** One crore. */
  const CroreDivisor: real := 10000000.0

  /**
   * `(price - low) / (high - low) * 100`, not clamped to [0, 100]. A flat
   * range raises ZeroDivisionError, whatever the price; a NaN operand gives NaN.
   */
  function PricePosition(price: Num, low: Num, high: Num): (r: Result<Num, Error>)
    ensures r.Err? <==> high.Some? && low.Some? && high.value == low.value
    ensures r.Err? ==> r.error == DivisionByZero
    ensures r.Ok? ==> (r.value.Some? <==> price.Some? && low.Some? && high.Some?)
  {
    var range := Minus(high, low);
    if range == Some(0.0) then Err(DivisionByZero)
    else Ok(Times(Quotient(Minus(price, low), range), 100.0))
  }

  /** `totalTradedValue / 10000000`. */
  function ValueInCrore(value: Num): (r: Num)
    ensures r.Some? <==> value.Some?
    ensures r.Some? ==> r.value * CroreDivisor == value.value
  {
    Quotient(value, Some(CroreDivisor))
  }

  /** The position is an exact coordinate: the price is recovered from it and the range. */
  lemma PositionRecoversPrice(price: real, low: real, high: real)
    requires low != high
    ensures PricePosition(Some(price), Some(low), Some(high)).Ok?
    ensures var p := PricePosition(Some(price), Some(low), Some(high)).value;
      p.Some? && low + p.value * (high - low) / 100.0 == price
  {
    var range := high - low;
    var q := (price - low) / range;
    assert q * range == price - low;
    assert q * 100.0 * range / 100.0 == q * range;
  }

  /**
   * Inside the 52-week range the position is a percentage; outside it the
   * position leaves [0, 100], because nothing clamps it.
   */
  lemma PositionUnclamped(price: real, low: real, high: real)
    requires low < high
    ensures PricePosition(Some(price), Some(low), Some(high)).Ok?
    ensures var p := PricePosition(Some(price), Some(low), Some(high)).value;
      && p.Some?
      && (price < low ==> p.value < 0.0)
      && (price > high ==> p.value > 100.0)
      && (low <= price <= high ==> 0.0 <= p.value <= 100.0)
  {
    var range := high - low;
    var q := (price - low) / range;
    assert q * range == price - low;
    ScaleCompare(q, range);
  }

  /** Scaling by a positive factor keeps the comparisons with 0 and 1. */
  lemma ScaleCompare(q: real, r: real)
    requires r > 0.0
    ensures q < 0.0 <==> q * r < 0.0
    ensures q > 1.0 <==> q * r > r
    ensures 0.0 <= q <= 1.0 <==> 0.0 <= q * r <= r
  {
    if q > 1.0 {
      assert (q - 1.0) * r > 0.0;
    } else if q >= 0.0 {
      assert (1.0 - q) * r >= 0.0;
      assert q * r >= 0.0;
    } else {
      assert (0.0 - q) * r > 0.0;
    }
  }

  /** The columns read before any bucket is filled. */
  const MetricColumns: set<Column> :=
    {PerChange365d, PerChange30d, PChange, LastPrice, YearHigh, YearLow, TotalTradedValue}

  /** Every column of `MetricColumns` is in `labels`. */
  predicate HasMetricColumns(labels: set<Column>) {
    && PerChange365d in labels && PerChange30d in labels && PChange in labels
    && LastPrice in labels && YearHigh in labels && YearLow in labels && TotalTradedValue in labels
  }

  /** The columns in the order both rule sets read them; the position is computed between the last two. */
  const MetricReadOrder: seq<Column> :=
    [PerChange365d, PerChange30d, PChange, LastPrice, YearHigh, YearLow, TotalTradedValue]

  /** The six columns read before the position is computed are in `labels`. */
  predicate HasPositionColumns(labels: set<Column>) {
    && PerChange365d in labels && PerChange30d in labels && PChange in labels
    && LastPrice in labels && YearHigh in labels && YearLow in labels
  }

  /** yearHigh equals yearLow: the position divides by zero. */
  predicate FlatRange(row: Row) {
    row.yearHigh.Some? && row.yearLow.Some? && row.yearHigh.value == row.yearLow.value
  }

  /**
   * The reads and the two formulas shared by both rule sets, in their
   * reading order: the three changes, last price, 52-week high and low, the
   * position, then the traded value.
   */
  function DeriveMetrics(s: Series): (r: Result<Metrics, Error>)
    ensures r.Ok? <==> HasMetricColumns(s.labels) && !FlatRange(s.row)
    ensures HasMetricColumns(s.labels) && FlatRange(s.row) ==> r == Err(DivisionByZero)
  {
    var yearly :- ReadNum(s, PerChange365d);
    var monthly :- ReadNum(s, PerChange30d);
    var daily :- ReadNum(s, PChange);
    var price :- ReadNum(s, LastPrice);
    var high :- ReadNum(s, YearHigh);
    var low :- ReadNum(s, YearLow);
    var position :- PricePosition(price, low, high);
    var traded :- ReadNum(s, TotalTradedValue);
    Ok(Metrics(yearly, monthly, daily, price, high, low, position, ValueInCrore(traded)))
  }

  /** A failed derivation names an absent column, or is the division by zero. */
  lemma DeriveMetricsErrors(s: Series)
    requires DeriveMetrics(s).Err?
    ensures var e := DeriveMetrics(s).error;
      e == DivisionByZero || (e.MissingColumn? && e.column in MetricColumns && e.column !in s.labels)
  {
  }

  /** A successful derivation copies the row's cells and applies the two formulas to them. */
  lemma DeriveMetricsValues(s: Series)
    requires DeriveMetrics(s).Ok?
    ensures var m := DeriveMetrics(s).value;
      && m.yearly == s.row.perChange365d
      && m.monthly == s.row.perChange30d
      && m.daily == s.row.pChange
      && m.price == s.row.lastPrice
      && m.yearHigh == s.row.yearHigh
      && m.yearLow == s.row.yearLow
      && Ok(m.position) == PricePosition(s.row.lastPrice, s.row.yearLow, s.row.yearHigh)
      && m.valueCr == ValueInCrore(s.row.totalTradedValue)
  {
  }

  /**
   * The first error wins: the first absent column in reading order raises
   * KeyError, except that a flat range raises ZeroDivisionError as soon as
   * the six columns before the traded value have been read, whether or not
   * the traded value is present.
   */
  lemma DeriveMetricsErrorOrder(s: Series)
    ensures forall i ::
              (0 <= i < |MetricReadOrder| && MetricReadOrder[i] !in s.labels
               && forall j :: 0 <= j < i ==> MetricReadOrder[j] in s.labels) ==>
              DeriveMetrics(s) ==
                if i == 6 && FlatRange(s.row) then Err(DivisionByZero) else Err(MissingColumn(MetricReadOrder[i]))
    ensures HasPositionColumns(s.labels) && FlatRange(s.row) ==> DeriveMetrics(s) == Err(DivisionByZero)
  {
    forall i | 0 <= i < |MetricReadOrder| && MetricReadOrder[i] !in s.labels
               && (forall j :: 0 <= j < i ==> MetricReadOrder[j] in s.labels)
      ensures DeriveMetrics(s) ==
                if i == 6 && FlatRange(s.row) then Err(DivisionByZero) else Err(MissingColumn(MetricReadOrder[i]))
    {
      if i > 0 { assert MetricReadOrder[0] in s.labels; }
      if i > 1 { assert MetricReadOrder[1] in s.labels; }
      if i > 2 { assert MetricReadOrder[2] in s.labels; }
      if i > 3 { assert MetricReadOrder[3] in s.labels; }
      if i > 4 { assert MetricReadOrder[4] in s.labels; }
      if i > 5 { assert MetricReadOrder[5] in s.labels; }
    }
  }
}
