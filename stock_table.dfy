/**
 * The loaded stock table: a pandas frame whose modelled columns are the
 * sixteen quote columns. A column can be absent from the frame (indexing it
 * raises KeyError) independently of whether a cell holds NaN.
 */
module StockTable {
  import opened Wrappers
  import opened Numbers

  /** A text cell: `None` is NaN (an empty cell in the CSV). */
  type Cell = Option<string>

  datatype Column =
    | Symbol | CompanyName | Industry
    | Open | DayHigh | DayLow | LastPrice | PreviousClose | Change | PChange
    | YearHigh | YearLow | TotalTradedVolume | TotalTradedValue
    | PerChange365d | PerChange30d

  /** One row of the frame. Cells of absent columns carry no meaning. */
  datatype Row = Row(
    symbol: Cell, companyName: Cell, industry: Cell,
    open: Num, dayHigh: Num, dayLow: Num, lastPrice: Num, previousClose: Num,
    change: Num, pChange: Num, yearHigh: Num, yearLow: Num,
    totalTradedVolume: Num, totalTradedValue: Num,
    perChange365d: Num, perChange30d: Num)

  datatype Table = Table(columns: set<Column>, rows: seq<Row>) {
    /** pandas' `DataFrame.empty` for a frame read from a CSV file. */
    predicate IsEmpty() {
      |rows| == 0
    }
  }

  /** One selected row, as a pandas Series: its index is the frame's columns. */
  datatype Series = Series(labels: set<Column>, row: Row)

  /** The exceptions the analysis converts into an error record. */
  datatype Error =
    | NoDataLoaded           // the literal "No data loaded" record
    | MissingColumn(column: Column)  // KeyError from indexing an absent column
    | SymbolNotFound         // IndexError from `iloc[0]` on an empty selection
    | DivisionByZero         // ZeroDivisionError: yearHigh equals yearLow
    | NaNToInteger           // ValueError from `int(nan)`
    | GenerationFailed       // the text generator raised

  /** The value of a numeric column in a row; NaN for the text columns. */
  function NumericCell(row: Row, c: Column): Num {
    match c
    case Open => row.open
    case DayHigh => row.dayHigh
    case DayLow => row.dayLow
    case LastPrice => row.lastPrice
    case PreviousClose => row.previousClose
    case Change => row.change
    case PChange => row.pChange
    case YearHigh => row.yearHigh
    case YearLow => row.yearLow
    case TotalTradedVolume => row.totalTradedVolume
    case TotalTradedValue => row.totalTradedValue
    case PerChange365d => row.perChange365d
    case PerChange30d => row.perChange30d
    case _ => None
  }

  /** `float(stock[c])`: KeyError when the column is absent. */
  function ReadNum(s: Series, c: Column): (r: Result<Num, Error>)
    ensures r.Ok? <==> c in s.labels
    ensures r.Ok? ==> r.value == NumericCell(s.row, c)
    ensures r.Err? ==> r.error == MissingColumn(c)
  {
    if c in s.labels then Ok(NumericCell(s.row, c)) else Err(MissingColumn(c))
  }

  /** The index of the first row whose symbol is `symbol`. */
  function FirstMatch(rows: seq<Row>, symbol: string): (r: Option<nat>)
    ensures r.Some? ==> r.value < |rows| && rows[r.value].symbol == Some(symbol)
    ensures r.Some? ==> forall j :: 0 <= j < r.value ==> rows[j].symbol != Some(symbol)
    ensures r.None? ==> forall j :: 0 <= j < |rows| ==> rows[j].symbol != Some(symbol)
  {
    if |rows| == 0 then None
    else if rows[0].symbol == Some(symbol) then Some(0)
    else match FirstMatch(rows[1..], symbol)
      case None => None
      case Some(i) => Some(i + 1)
  }

  /** `table[table['symbol'] == symbol].iloc[0]`. */
  function Select(t: Table, symbol: string): (r: Result<Series, Error>)
    ensures Symbol !in t.columns ==> r == Err(MissingColumn(Symbol))
    ensures r.Err? && Symbol in t.columns ==>
      r.error == SymbolNotFound && forall j :: 0 <= j < |t.rows| ==> t.rows[j].symbol != Some(symbol)
    ensures r.Ok? ==> Symbol in t.columns && r.value.labels == t.columns
    ensures r.Ok? ==> r.value.row.symbol == Some(symbol)
    ensures r.Ok? ==> FirstMatch(t.rows, symbol).Some? && r.value.row == t.rows[FirstMatch(t.rows, symbol).value]
  {
    if Symbol !in t.columns then Err(MissingColumn(Symbol))
    else match FirstMatch(t.rows, symbol)
      case None => Err(SymbolNotFound)
      case Some(i) => Ok(Series(t.columns, t.rows[i]))
  }

  /** The industry value written into every row when the CSV lacks the column. */
  const NotAvailable: string := "N/A"

  /** The frame `load_stock_data` leaves behind, given what `read_csv` produced (None: it raised). */
  function LoadedTable(parsed: Option<Table>): (t: Table)
    ensures parsed.None? ==> t == Table({}, []) && t.IsEmpty()
    ensures parsed.Some? ==> Industry in t.columns && t.columns == parsed.value.columns + {Industry}
    ensures parsed.Some? ==> |t.rows| == |parsed.value.rows|
    ensures parsed.Some? && Industry in parsed.value.columns ==> t == parsed.value
    ensures parsed.Some? && Industry !in parsed.value.columns ==>
      forall i :: 0 <= i < |t.rows| ==>
        t.rows[i].industry == Some(NotAvailable) && t.rows[i] == parsed.value.rows[i].(industry := t.rows[i].industry)
  {
    match parsed
    case None => Table({}, [])
    case Some(raw) =>
      if Industry in raw.columns then raw
      else Table(raw.columns + {Industry},
                 seq(|raw.rows|, i requires 0 <= i < |raw.rows| => raw.rows[i].(industry := Some(NotAvailable))))
  }
}
