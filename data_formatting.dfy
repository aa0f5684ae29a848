/**
 * The conversion script: it walks the `data` list of a quote-service JSON
 * document and projects every record onto the sixteen columns of the stock
 * table, taking the company name and industry from the record's `meta`
 * object when it has one. Subscripting a JSON value follows Python's rules:
 * a missing key raises KeyError, subscripting a list, a string, a number,
 * a boolean or null with a string raises TypeError.
 */
module DataFormatting {
  import opened Wrappers

  /** A value as `json.load` returns it. */
  datatype Json =
    | JNull
    | JBool(b: bool)
    | JNumber(n: real)
    | JString(s: string)
    | JArray(items: seq<Json>)
    | JObject(members: map<string, Json>)

  /** KeyError with its key, or TypeError. */
  datatype FormatError = KeyMissing(key: string) | TypeMismatch

  /** One output row: column names with their values, in column order. */
  type Record = seq<(string, Json)>

  /** The price and volume fields copied unchanged from each record, in output order. */
  const QuoteKeys: seq<string> := [
    "open", "dayHigh", "dayLow", "lastPrice", "previousClose", "change", "pChange",
    "yearHigh", "yearLow", "totalTradedVolume", "totalTradedValue", "perChange365d", "perChange30d"]

  /** The columns of the table the script writes. */
  const OutputKeys: seq<string> := ["symbol", "companyName", "industry"] + QuoteKeys

  /** `v[key]`. */
  function Subscript(v: Json, key: string): (r: Result<Json, FormatError>)
    ensures r.Ok? <==> v.JObject? && key in v.members
    ensures r.Ok? ==> r.value == v.members[key]
    ensures r.Err? ==> r.error == if v.JObject? then KeyMissing(key) else TypeMismatch
  {
    match v
    case JObject(members) => if key in members then Ok(members[key]) else Err(KeyMissing(key))
    case _ => Err(TypeMismatch)
  }

  /** `record['meta'][key] if 'meta' in record else None`. */
  function MetaField(rec: Json, key: string): (r: Result<Json, FormatError>)
    requires rec.JObject?
    ensures "meta" !in rec.members ==> r == Ok(JNull)
    ensures "meta" in rec.members ==> r == Subscript(rec.members["meta"], key)
  {
    if "meta" in rec.members then Subscript(rec.members["meta"], key) else Ok(JNull)
  }

  /**
   * The fields named by `keys`, in that order; the first key the record
   * lacks raises.
   */
  function CopyQuotes(rec: Json, keys: seq<string>): (r: Result<Record, FormatError>)
    requires rec.JObject?
    ensures r.Ok? <==> forall i :: 0 <= i < |keys| ==> keys[i] in rec.members
    ensures r.Ok? ==> |r.value| == |keys|
    ensures r.Ok? ==> forall i :: 0 <= i < |keys| ==> r.value[i] == (keys[i], rec.members[keys[i]])
    ensures r.Err? ==>
      exists i :: 0 <= i < |keys| && keys[i] !in rec.members && r.error == KeyMissing(keys[i])
        && forall j :: 0 <= j < i ==> keys[j] in rec.members
  {
    if keys == [] then Ok([])
    else if keys[0] !in rec.members then Err(KeyMissing(keys[0]))
    else
      match CopyQuotes(rec, keys[1..])
      case Err(e) => Err(e)
      case Ok(rest) => Ok([(keys[0], rec.members[keys[0]])] + rest)
  }

  /** The dictionary built for one record, evaluated key by key in the order written. */
  function ProjectRecord(rec: Json): Result<Record, FormatError> {
    var symbol :- Subscript(rec, "symbol");
    var company :- MetaField(rec, "companyName");
    var industry :- MetaField(rec, "industry");
    var quotes :- CopyQuotes(rec, QuoteKeys);
    Ok([("symbol", symbol), ("companyName", company), ("industry", industry)] + quotes)
  }

  /**
   * What `for record in data['data']` visits: the items of a list, the
   * one-character strings of a string. Iterating a dictionary visits its
   * keys, which are strings, so a non-empty one fails on the first record;
   * numbers, booleans and null are not iterable.
   */
  function Records(data: Json): (r: Result<seq<Json>, FormatError>)
    ensures data.JObject? && "data" in data.members && data.members["data"].JArray? ==>
      r == Ok(data.members["data"].items)
    ensures !data.JObject? ==> r == Err(TypeMismatch)
    ensures data.JObject? && "data" !in data.members ==> r == Err(KeyMissing("data"))
    ensures data.JObject? && "data" in data.members && data.members["data"].JString? ==>
      r.Ok? && |r.value| == |data.members["data"].s|
      && forall i :: 0 <= i < |r.value| ==> r.value[i] == JString([data.members["data"].s[i]])
    ensures data.JObject? && "data" in data.members && data.members["data"].JObject? ==>
      r == if data.members["data"].members == map[] then Ok([]) else Err(TypeMismatch)
    ensures (data.JObject? && "data" in data.members && !data.members["data"].JArray?
             && !data.members["data"].JString? && !data.members["data"].JObject?) ==> r == Err(TypeMismatch)
  {
    var items :- Subscript(data, "data");
    match items
    case JArray(values) => Ok(values)
    case JString(s) => Ok(seq(|s|, i requires 0 <= i < |s| => JString([s[i]])))
    case JObject(members) => if members == map[] then Ok([]) else Err(TypeMismatch)
    case _ => Err(TypeMismatch)
  }

  /** The loop of the script: one projected record per visited item, in order. */
  method FormatData(data: Json) returns (r: Result<seq<Record>, FormatError>)
    ensures Records(data).Err? ==> r == Err(Records(data).error)
    ensures r.Ok? ==> Records(data).Ok? && |r.value| == |Records(data).value|
    ensures r.Ok? ==> forall i :: 0 <= i < |r.value| ==> ProjectRecord(Records(data).value[i]) == Ok(r.value[i])
    ensures Records(data).Ok? ==>
      (r.Ok? <==> forall i :: 0 <= i < |Records(data).value| ==> ProjectRecord(Records(data).value[i]).Ok?)
    ensures r.Err? && Records(data).Ok? ==>
      var items := Records(data).value;
      exists i :: 0 <= i < |items| && ProjectRecord(items[i]) == Err(r.error)
        && forall j :: 0 <= j < i ==> ProjectRecord(items[j]).Ok?
  {
    var items :- Records(data);
    var formatted: seq<Record> := [];
    for i := 0 to |items|
      invariant |formatted| == i
      invariant forall j :: 0 <= j < i ==> ProjectRecord(items[j]) == Ok(formatted[j])
    {
      var rec :- ProjectRecord(items[i]);
      formatted := formatted + [rec];
    }
    r := Ok(formatted);
  }

  // ---------------------------------------------------------------------
  // What one projected record holds

  /** Whether the dictionary of one record can be built without raising. */
  predicate Projectable(rec: Json) {
    && rec.JObject?
    && "symbol" in rec.members
    && ("meta" in rec.members ==>
          rec.members["meta"].JObject?
          && "companyName" in rec.members["meta"].members
          && "industry" in rec.members["meta"].members)
    && forall i :: 0 <= i < |QuoteKeys| ==> QuoteKeys[i] in rec.members
  }

  /** A record projects exactly when it is an object with every field the script reads. */
  lemma ProjectRecordOkIff(rec: Json)
    ensures ProjectRecord(rec).Ok? <==> Projectable(rec)
  {
  }

  /**
   * A projected record has the sixteen output columns in order; the symbol
   * and the quote fields are copied verbatim, the company name and industry
   * come from `meta`, or are null when the record has no `meta`.
   */
  lemma ProjectedRecordContents(rec: Json)
    requires ProjectRecord(rec).Ok?
    ensures var out := ProjectRecord(rec).value;
      && |out| == |OutputKeys|
      && (forall i :: 0 <= i < |out| ==> out[i].0 == OutputKeys[i])
      && out[0].1 == rec.members["symbol"]
      && ("meta" !in rec.members ==> out[1].1 == JNull && out[2].1 == JNull)
      && ("meta" in rec.members ==>
            out[1].1 == rec.members["meta"].members["companyName"]
            && out[2].1 == rec.members["meta"].members["industry"])
      && forall i :: 3 <= i < |out| ==> out[i].1 == rec.members[OutputKeys[i]]
  {
    var quotes := CopyQuotes(rec, QuoteKeys).value;
    var out := ProjectRecord(rec).value;
    assert out == [("symbol", rec.members["symbol"]), ("companyName", out[1].1), ("industry", out[2].1)] + quotes;
    forall i | 3 <= i < |out| ensures out[i].0 == OutputKeys[i] && out[i].1 == rec.members[OutputKeys[i]] {
      assert out[i] == quotes[i - 3];
      assert OutputKeys[i] == QuoteKeys[i - 3];
    }
  }

  /**
   * The keys are read in the order written: a non-object fails with
   * TypeError, a missing symbol before anything else, a `meta` that is not
   * an object or lacks a name before any quote field.
   */
  lemma ProjectRecordErrorOrder(rec: Json)
    ensures !rec.JObject? ==> ProjectRecord(rec) == Err(TypeMismatch)
    ensures rec.JObject? && "symbol" !in rec.members ==> ProjectRecord(rec) == Err(KeyMissing("symbol"))
    ensures rec.JObject? && "symbol" in rec.members && "meta" in rec.members && !rec.members["meta"].JObject? ==>
      ProjectRecord(rec) == Err(TypeMismatch)
    ensures (rec.JObject? && "symbol" in rec.members && "meta" in rec.members && rec.members["meta"].JObject?
             && "companyName" !in rec.members["meta"].members) ==> ProjectRecord(rec) == Err(KeyMissing("companyName"))
  {
  }

  /** A `data` string is iterated character by character, and its first character fails as a record. */
  lemma StringDataFails(data: Json)
    requires data.JObject? && "data" in data.members && data.members["data"].JString?
    requires data.members["data"].s != []
    ensures Records(data).Ok? && ProjectRecord(Records(data).value[0]) == Err(TypeMismatch)
  {
  }
}
