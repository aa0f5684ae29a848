# Stock insight engine — a Dafny model

This project models the analysis core of a small stock-market assistant.
It has two parts.

- The `EnhancedStockAnalyzer` class (`main.py`) loads a table of NSE quotes.
  For one symbol it derives the yearly, monthly and daily changes, the price
  position inside the 52-week range, and the traded value in crore. It then
  sorts short insight messages into five buckets (growth, valuation,
  technical, market, strategy), asks a text generator for a narrative, and
  returns a result record, or an error record when anything raises.
- The conversion script (`data_formatting.py`) turns the quote service's JSON
  document into the rows of that table.

The class also keeps an older rule set, `generate_key_insights`. That rule set
has different thresholds and no fallbacks, and the model covers it as well.

Modules:

- `Wrappers`: `Option` and `Result`.
- `Numbers`: a float cell as `Option<real>`, where `None` is NaN. Comparisons
  with NaN are false. Arithmetic carries NaN through. A zero divisor raises,
  and `int()` truncates toward zero.
- `StockTable`: the frame as a set of column labels plus rows. It also holds
  the selected row, column reads that raise KeyError, the first-match lookup,
  and the frame the loader leaves behind.
- `MetricDeriver`: the shared reads and formulas, namely the price position
  (ZeroDivisionError on a flat range) and the crore conversion.
- `InsightRules`: both rule sets, as pure functions from the metrics to the
  buckets.
- `StockAnalyzer`: the `EnhancedStockAnalyzer` class. Its methods append to the
  buckets step by step, as the source does, and are proved equal to the pure
  rule functions. The module also holds the `Analysis` function that
  specifies `analyze_stock`, and the lemmas about it.
- `DataFormatting`: JSON values with Python's subscripting rules. It holds the
  projection of one record and the loop over the records.

An insight is a tag carrying the numbers it quotes. For example,
`StrongYearlyGrowth(yearly)` stands for "Strong yearly growth of …%". The
message text and its rounding are not modelled.

The text generator is a parameter, `generate: Prompt -> Option<string>`.
`None` means it raised.

## Model

| member | source | states |
|---|---|---|
| `Numbers.Abs` | main.py:49 | `abs` is NaN exactly for NaN, otherwise non-negative and equal to the value or its negation |
| `Numbers.AbsAbove` | main.py:49-59 | checking the magnitude first and then the sign fires exactly when the value is above the bound or below its negation |
| `Numbers.Truncate` | main.py:235 | `int()` truncates toward zero: the result lies within one unit of the value, on the zero side |
| `StockTable.ReadNum` | main.py:101-108 | reading a column raises KeyError for exactly that column when it is absent; otherwise it yields that column's cell of the row |
| `StockTable.FirstMatch` | main.py:99 | the index is that of a row carrying the symbol, with no earlier row carrying it; or no row carries it |
| `StockTable.Select` | main.py:99 | a missing symbol column raises KeyError; no match raises the lookup error and means no row matches; otherwise the series is the first matching row with the frame's labels |
| `StockTable.LoadedTable` | main.py:17-35 | a failed read leaves an empty frame; otherwise the industry column is present afterwards; the frame is unchanged if it had one; otherwise every row gets "N/A" and nothing else in it changes |
| `MetricDeriver.PricePosition` | main.py:107 | raises exactly when the 52-week high and low are equal numbers; the result is NaN exactly when any input is NaN |
| `MetricDeriver.ValueInCrore` | main.py:108 | the traded value divided by ten million: NaN exactly for NaN, and the result times 10,000,000 gives the value back |
| `MetricDeriver.PositionRecoversPrice` | main.py:107 | over a non-flat range the position, read as a percentage, recovers the price: `low + p*(high-low)/100 == price` |
| `MetricDeriver.PositionUnclamped` | main.py:107 | the position is not clamped: negative below the range, above 100 above it, within [0, 100] inside it |
| `MetricDeriver.DeriveMetrics` | main.py:101-108 | the reads succeed exactly when all seven columns exist and the 52-week range is not flat; with all columns present and a flat range the error is ZeroDivisionError |
| `MetricDeriver.DeriveMetricsErrorOrder` | main.py:101-108 | the first absent column in reading order (yearly, monthly and daily change, price, high, low, traded value) is the KeyError raised; a flat range raises ZeroDivisionError before the traded value is read, so it wins over a missing traded-value column |
| `MetricDeriver.DeriveMetricsErrors` | main.py:101-108 | every failure is a ZeroDivisionError or a KeyError for one of the seven metric columns |
| `MetricDeriver.DeriveMetricsValues` | main.py:101-108 | the metrics are the row's own cells, the position formula and the crore conversion |
| `InsightRules.LiveGrowthBucket` | main.py:139-145 | growth holds only the strong-growth, decline, monthly and moderate-growth messages, one per test that fired, or the fallback alone when none fired; strong growth and decline exclude each other; the monthly message fires exactly above 10 |
| `InsightRules.LiveValuationBucket` | main.py:147-152 | valuation holds exactly one message: above 80, else below 20, else the range percentage |
| `InsightRules.LiveTechnicalBucket` | main.py:154-161 | technical holds only the overbought, oversold, high-activity and neutral messages, one per test that fired, or the neutral fallback alone when none fired; overbought and oversold exclude each other; high activity fires exactly above 1000 crore |
| `InsightRules.LiveMarketBucket` | main.py:163-166 | market starts with the industry message; a volatility message follows exactly when the absolute daily change exceeds 3 |
| `InsightRules.LiveStrategyBucket` | main.py:168-173 | strategy holds exactly one message: profit booking, accumulation or hold |
| `InsightRules.LiveSignalsAgree` | main.py:147-173 | valuation and strategy take the same branch; above 90 or below 10, the valuation, technical and strategy signals agree |
| `InsightRules.LegacyGrowthBucket` | main.py:49-59 | growth holds only the four yearly and monthly messages, one per test that fired, so at most one per horizon, each in its direction; it is empty exactly when nothing passed its threshold |
| `InsightRules.LegacyHighPosition` | main.py:65-67 | the near-high technical signal and the overvaluation risk both fire exactly above 80; valuation never gets anything else |
| `InsightRules.LegacyLowPosition` | main.py:68-71 | the near-low technical signal and the accumulation strategy both fire exactly below 20 |
| `InsightRules.LegacyExtremePosition` | main.py:77-82 | the pullback risk and partial profit booking fire exactly above 90; the reversal watch and the value opportunity fire exactly below 10 |
| `InsightRules.LegacyTechnicalExact` | main.py:65-86 | the older technical bucket holds only the near-high, near-low, high-activity and volatility messages, one per test that fired, and is empty exactly when none fired |
| `InsightRules.LegacyMarketExact` | main.py:75-90 | the older market bucket holds only the pullback, reversal and sector messages, one per test that fired, and is empty exactly when none fired |
| `InsightRules.LegacyStrategyExact` | main.py:68-86 | the older strategy bucket holds only the accumulation, profit-booking, value-opportunity and stop-loss messages, one per test that fired, and is empty exactly when none fired |
| `InsightRules.LegacySignalsOverlap` | main.py:65-82 | the older thresholds overlap: above 90 all four high-side signals fire, below 10 all four low-side ones |
| `InsightRules.LegacyActivitySignals` | main.py:73-86 | high activity fires exactly above 1000 crore; volatility and stop-loss fire exactly when the absolute daily change exceeds 3 |
| `InsightRules.LegacyIndustrySignal` | main.py:88-90 | the sector message appears exactly when the industry is known, and it cites that industry |
| `InsightRules.LegacyHasNoFallbacks` | main.py:37-92 | for a quiet mid-range quote with no industry, the older rules leave every bucket empty, while the live rules fill all five |
| `StockAnalyzer.ToInteger` | main.py:235 | `int()` raises exactly on NaN; otherwise it truncates toward zero |
| `StockAnalyzer.AnalysisSucceedsIff` | main.py:94-243 | an analysis returns its record exactly when the frame has rows, the symbol column exists and holds the symbol, the metric columns exist, the range is not flat, the company column exists, the generator answers, the day range and volume columns exist, and the volume is not NaN |
| `StockAnalyzer.SuccessfulAnalysis` | main.py:218-240 | a successful record describes the first matching row: its company name (the fallback to the symbol never applies), its prices and changes, the truncated volume, the crore value, the live insights of its metrics, and the generator's text for its prompt |
| `StockAnalyzer.NoDataIff` | main.py:95-96 | "no data loaded" is returned exactly when nothing was loaded or the frame has no rows |
| `StockAnalyzer.FailedLoadYieldsNoData` | main.py:33-35 | after a failed load every analysis reports no data |
| `StockAnalyzer.UnknownSymbolIff` | main.py:99 | on a non-empty frame with a symbol column, the lookup error is returned exactly when no row carries the symbol |
| `StockAnalyzer.FlatRangeFails` | main.py:101-108 | a matched quote with equal 52-week high and low ends in ZeroDivisionError once the six columns read before the division exist, whether or not the traded-value column does |
| `StockAnalyzer.MetricFailurePropagates` | main.py:101-108 | when the metrics of the matched quote cannot be derived, the analysis returns that same error |
| `StockAnalyzer.MissingCompanyColumnFails` | main.py:175 | without a companyName column the prompt raises KeyError, whatever the generator would say |
| `StockAnalyzer.GeneratorFailureFails` | main.py:204-216 | when the generator raises, the analysis returns the error and no record |
| `StockAnalyzer.LoadedIndustryNeverDefaulted` | main.py:21-22 | after a load the reported industry is always the row's own cell; it is "N/A" wherever the loader filled it in |
| `StockAnalyzer.LegacyAnalysisFailsWithMetrics` | main.py:45-73 | the older rule set fails exactly when the metrics cannot be derived, and with the same error |
| `StockAnalyzer.EnhancedStockAnalyzer.constructor` | main.py:7-16 | a new analyzer holds no frame, so it satisfies `Valid` (no frame, or one the loader can leave behind) |
| `StockAnalyzer.EnhancedStockAnalyzer.LoadStockData` | main.py:17-35 | the stored frame becomes the loaded frame: the one read from the CSV, with the industry filled in, or an empty frame on failure; `Valid` holds afterwards |
| `StockAnalyzer.EnhancedStockAnalyzer.GenerateKeyInsights` | main.py:37-92 | the reads, in the source's order, return the older rule set applied to the metrics, or the first error raised |
| `StockAnalyzer.EnhancedStockAnalyzer.LegacyGrowthInsights` | main.py:49-59 | the nested magnitude-then-sign tests build exactly the older growth bucket |
| `StockAnalyzer.EnhancedStockAnalyzer.FillLegacyInsights` | main.py:65-90 | the appends, in the source's order, build exactly the older rule set's five buckets |
| `StockAnalyzer.EnhancedStockAnalyzer.LiveGrowthInsights` | main.py:139-145 | the if/elif/if appends and the empty check build exactly the live growth bucket |
| `StockAnalyzer.EnhancedStockAnalyzer.LiveTechnicalInsights` | main.py:154-161 | the if/elif/if appends and the empty check build exactly the live technical bucket |
| `StockAnalyzer.EnhancedStockAnalyzer.BuildInsights` | main.py:110-173 | the five bucket sections build exactly the live rule set |
| `StockAnalyzer.EnhancedStockAnalyzer.AnalyzeStock` | main.py:94-243 | the method returns what `Analysis` specifies for the stored frame: the record, or the first error raised |
| `DataFormatting.Subscript` | data_formatting.py:12 | subscripting succeeds exactly on an object holding the key; a missing key raises KeyError with that key, and any other value raises TypeError |
| `DataFormatting.MetaField` | data_formatting.py:13-14 | without `meta` the field is null; with `meta` it is `meta[key]`, with that subscript's errors |
| `DataFormatting.CopyQuotes` | data_formatting.py:15-27 | copying succeeds exactly when every key is present; the result pairs each key, in order, with the record's value; a failure names the first missing key |
| `DataFormatting.Records` | data_formatting.py:10 | the loop visits the items of a `data` list, or, for a `data` string, one string per character holding just that character; an empty dictionary gives no records and a non-empty one raises TypeError; a missing `data` raises KeyError; a non-object document or a scalar `data` raises TypeError |
| `DataFormatting.FormatData` | data_formatting.py:9-28 | the loop yields one projected record per item, in order, exactly when every item projects; otherwise it stops with the error of the first item that fails |
| `DataFormatting.ProjectRecordOkIff` | data_formatting.py:11-28 | a record projects exactly when it is an object with the symbol and the thirteen quote fields, and with an object `meta` holding companyName and industry whenever `meta` is present |
| `DataFormatting.ProjectedRecordContents` | data_formatting.py:11-28 | a projected record has the sixteen columns in order; the symbol and the quote fields are copied verbatim; the name and industry come from `meta`, or are null without it |
| `DataFormatting.ProjectRecordErrorOrder` | data_formatting.py:12-14 | the keys raise in the order written: a non-object record, then a missing symbol, then a bad `meta` or a missing companyName |
| `DataFormatting.StringDataFails` | data_formatting.py:10-12 | a non-empty `data` string is iterated by character, and its first character raises TypeError as a record |

## Left out

- The T5 tokenizer and model, `gc.collect()` and the console messages are left out. The generator is the parameter `generate`, and its sampling settings are not modelled.
- Message text is not modelled. That covers f-string rendering, number formatting and rounding (`:.1f`, `:+.2f`, `:,.2f`), the icons and titles of the live buckets, and the prompt's wording. A message is a tag carrying the numbers it quotes, and the prompt is the datatype `Prompt`.
- The text of an error record, `str(e)`, is not modelled. The error is the kind of exception, plus the key for KeyError.
- Parsing is not modelled: `pd.read_csv`, `json.load`, reading the files, and `pd.to_numeric(errors='coerce')`. The loader receives the parsed frame, or None when reading raised. Coercion is taken as already done, so numeric cells are reals or NaN.
- Building the DataFrame from the formatted records, printing it and writing `stock_data.csv` (data_formatting.py:31-37) are I/O and are not modelled.
- Floating-point rounding, infinities and overflow are not modelled: reals are exact. Infinite values, and the OverflowError of `int(inf)`, are not modelled; Python's `int` has no width limit, so the model's unbounded `int` matches it.
- `LoadedTable` cannot represent a frame with rows but no columns, and a frame counts as empty when it has no rows. pandas also calls a frame with no columns empty. Such a frame cannot come out of `read_csv` followed by the industry fill, because that always leaves a column.
- `DataFormatting.Records`: iterating a non-empty dictionary is taken to fail at once. The first key is a string, and subscripting it raises TypeError. The order of the keys is not modelled.
- `DataFormatting.MetaField` requires an object record. In the source it is only reached after `record['symbol']` succeeded, and that succeeds only on a dictionary.
- The interleaving in `generate_key_insights` is not kept as written. `GenerateKeyInsights` performs all reads first, in the source's order, and then the appends. This changes nothing observable, because the appends cannot raise and the errors come out in the same order.
- The Streamlit page (`main_streamlit.py`) and the scraper (`scrapper.py`) are not part of this model.
- Two guards in `analyze_stock` never make a difference. The lemmas above show why rather than leaving the branches out of the model.
  - The industry default of "N/A" at main.py:163 never applies after a load, because the loader always adds the column (`LoadedIndustryNeverDefaulted`).
  - The fallback from company name to symbol at main.py:221 is dead. The prompt at main.py:175 already raised KeyError when the column was missing (`SuccessfulAnalysis`, `MissingCompanyColumnFails`).
