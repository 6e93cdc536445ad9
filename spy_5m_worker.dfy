// The combined SPY and VIX 5-minute worker (saifan_spy_5m_worker.py): for
// each symbol take the newest bar, keep it only when it is from today (UTC)
// and no row of its table has its candle time yet, and insert it. The two
// tables are plain inserts with no conflict key, so each is a list of rows.

module Spy5mWorker {
  import opened Base
  import opened Clock

  /** What `process_symbol` did. */
  datatype Outcome =
    | NoData              // the fetch gave no bar
    | NotToday            // the bar is of another UTC day
    | DuplicateCandle     // a row with the bar's candle_time exists
    | Inserted
    | Failed(msg: string) // an exception ended the worker

  /** `fetch_symbol_5m`: the first element of a non-empty list; `None` (here
      `JNull`) for anything else and for a failed request, which is caught. */
  function Fetch5m(fetched: Result<Json>): (bar: Json)
    ensures fetched.Ok? && fetched.value.JList? && fetched.value.items != [] ==> bar == fetched.value.items[0]
    ensures !(fetched.Ok? && fetched.value.JList? && fetched.value.items != []) ==> bar == JNull
  {
    if fetched.Ok? && fetched.value.JList? && |fetched.value.items| > 0 then fetched.value.items[0] else JNull
  }

  /** `is_today_utc`: the candle's calendar day is today's UTC day; `parse`
      stands for `datetime.fromisoformat`, whose failure raises. */
  function IsTodayUtc(candleTime: string, todayUtc: int, parse: string -> Option<Instant>): (r: Result<bool>)
    ensures r.Err? <==> parse(candleTime).None?
    ensures r.Ok? ==> (r.value <==> parse(candleTime).value.day == todayUtc)
  {
    match parse(candleTime)
    case None => Err("fromisoformat")
    case Some(ct) => Ok(ct.day == todayUtc)
  }

  /** `candle_exists`: some row has this `candle_time`; the query filters on
      the time alone. */
  predicate CandleExists(rows: seq<Dict>, candleTime: string)
  {
    exists i :: 0 <= i < |rows| && Get(rows[i], "candle_time") == JStr(candleTime)
  }

  /** `int(v)` of a JSON number; anything else raises here. */
  function ReadInt(d: Dict, k: string): (r: Result<int>)
    ensures r.Ok? <==> k in d && IsNumber(d[k])
    ensures r.Ok? ==> r.value == AsInt(d[k])
  {
    if k in d && IsNumber(d[k]) then Ok(AsInt(d[k])) else Err("int(" + k + ")")
  }

  /** The row `insert_spy` writes: the candle time as given, the four prices
      through `float()` and the volume through `int()`. */
  function SpyRow(bar: Dict): (r: Result<Dict>)
    ensures r.Ok? <==> "date" in bar && ReadReal(bar, "open").Ok? && ReadReal(bar, "high").Ok?
                       && ReadReal(bar, "low").Ok? && ReadReal(bar, "close").Ok? && ReadInt(bar, "volume").Ok?
    ensures r.Ok? ==> r.value.Keys == {"candle_time", "open", "high", "low", "close", "volume"}
                      && r.value["candle_time"] == bar["date"]
                      && r.value["close"] == JReal(AsReal(bar["close"]))
                      && r.value["volume"] == JInt(AsInt(bar["volume"]))
  {
    if "date" !in bar then Err("KeyError: date")
    else
      match (ReadReal(bar, "open"), ReadReal(bar, "high"), ReadReal(bar, "low"), ReadReal(bar, "close"), ReadInt(bar, "volume"))
      case (Ok(o), Ok(h), Ok(l), Ok(c), Ok(v)) =>
        Ok(map["candle_time" := bar["date"], "open" := JReal(o), "high" := JReal(h), "low" := JReal(l),
               "close" := JReal(c), "volume" := JInt(v)])
      case _ => Err("float() or int() of a bar field")
  }

  /** The row `insert_vix` writes: as for SPY but without a volume. */
  function VixRow(bar: Dict): (r: Result<Dict>)
    ensures r.Ok? <==> "date" in bar && ReadReal(bar, "open").Ok? && ReadReal(bar, "high").Ok?
                       && ReadReal(bar, "low").Ok? && ReadReal(bar, "close").Ok?
    ensures r.Ok? ==> r.value.Keys == {"candle_time", "open", "high", "low", "close"}
                      && r.value["candle_time"] == bar["date"]
                      && r.value["close"] == JReal(AsReal(bar["close"]))
  {
    if "date" !in bar then Err("KeyError: date")
    else
      match (ReadReal(bar, "open"), ReadReal(bar, "high"), ReadReal(bar, "low"), ReadReal(bar, "close"))
      case (Ok(o), Ok(h), Ok(l), Ok(c)) =>
        Ok(map["candle_time" := bar["date"], "open" := JReal(o), "high" := JReal(h), "low" := JReal(l),
               "close" := JReal(c)])
      case _ => Err("float() of a bar field")
  }

  /** The insert function `process_symbol` is handed for a symbol. */
  function RowFor(symbol: string, bar: Dict): Result<Dict>
  {
    if symbol == "SPY" then SpyRow(bar) else VixRow(bar)
  }

  /** `process_symbol` given the fetch result, today's UTC day number and the
      rows of the symbol's table: the outcome and the new rows. */
  function ProcessSymbol(symbol: string, fetched: Result<Json>, todayUtc: int, parse: string -> Option<Instant>,
                         rows: seq<Dict>): (r: (Outcome, seq<Dict>))
    ensures !r.0.Inserted? ==> r.1 == rows
    ensures !Truthy(Fetch5m(fetched)) ==> r.0 == NoData
    ensures r.0.Inserted? <==>
              && Fetch5m(fetched).JObj?
              && var bar := Fetch5m(fetched).fields;
              && "date" in bar && bar["date"].JStr?
              && parse(bar["date"].s).Some? && parse(bar["date"].s).value.day == todayUtc
              && !CandleExists(rows, bar["date"].s)
              && RowFor(symbol, bar).Ok?
    ensures r.0.Inserted? ==> r.1 == rows + [RowFor(symbol, Fetch5m(fetched).fields).value]
  {
    var bar := Fetch5m(fetched);
    if !Truthy(bar) then (NoData, rows)
    else if !bar.JObj? then (Failed("bar[\"date\"] of a non-dict"), rows)
    else if "date" !in bar.fields then (Failed("KeyError: date"), rows)
    else if !bar.fields["date"].JStr? then (Failed("fromisoformat of a non-string"), rows)
    else
      var candleTime := bar.fields["date"].s;
      match IsTodayUtc(candleTime, todayUtc, parse)
      case Err(e) => (Failed(e), rows)
      case Ok(today) =>
        if !today then (NotToday, rows)
        else if CandleExists(rows, candleTime) then (DuplicateCandle, rows)
        else
          match RowFor(symbol, bar.fields)
          case Err(e) => (Failed(e), rows)
          case Ok(row) => (Inserted, rows + [row])
  }

  /** No two rows of a table share a candle time. */
  predicate DistinctTimes(rows: seq<Dict>)
  {
    forall i, j :: 0 <= i < j < |rows| ==> Get(rows[i], "candle_time") != Get(rows[j], "candle_time")
  }

  /** The check before the insert keeps every table free of repeated candle
      times, whichever symbol's bars reach it. */
  lemma ProcessKeepsDistinct(symbol: string, fetched: Result<Json>, todayUtc: int,
                             parse: string -> Option<Instant>, rows: seq<Dict>)
    requires DistinctTimes(rows)
    ensures DistinctTimes(ProcessSymbol(symbol, fetched, todayUtc, parse, rows).1)
  {
    var r := ProcessSymbol(symbol, fetched, todayUtc, parse, rows);
    if r.0.Inserted? {
      var bar := Fetch5m(fetched).fields;
      var row := RowFor(symbol, bar).value;
      assert Get(row, "candle_time") == JStr(bar["date"].s);
      assert !CandleExists(rows, bar["date"].s);
      assert r.1 == rows + [row];
    }
  }

  /** Running the worker again on the same bar right after it inserted it
      finds the candle and inserts nothing. */
  lemma RepeatIsDuplicate(symbol: string, fetched: Result<Json>, todayUtc: int,
                          parse: string -> Option<Instant>, rows: seq<Dict>)
    requires ProcessSymbol(symbol, fetched, todayUtc, parse, rows).0.Inserted?
    ensures var rows' := ProcessSymbol(symbol, fetched, todayUtc, parse, rows).1;
            ProcessSymbol(symbol, fetched, todayUtc, parse, rows') == (DuplicateCandle, rows')
  {
    var bar := Fetch5m(fetched).fields;
    var rows' := ProcessSymbol(symbol, fetched, todayUtc, parse, rows).1;
    var row := RowFor(symbol, bar).value;
    assert rows'[|rows|] == row;
    assert CandleExists(rows', bar["date"].s);
  }

  /** `main`: SPY into its table, then VIX into its table; an exception in the
      SPY step ends the worker before VIX. */
  function RunWorker(spyFetch: Result<Json>, vixFetch: Result<Json>, todayUtc: int, parse: string -> Option<Instant>,
                     spyRows: seq<Dict>, vixRows: seq<Dict>): (r: (seq<Dict>, seq<Dict>))
    ensures |spyRows| <= |r.0| <= |spyRows| + 1 && |vixRows| <= |r.1| <= |vixRows| + 1
    ensures ProcessSymbol("SPY", spyFetch, todayUtc, parse, spyRows).0.Failed? ==> r.1 == vixRows
    ensures r.0 == ProcessSymbol("SPY", spyFetch, todayUtc, parse, spyRows).1
    ensures !ProcessSymbol("SPY", spyFetch, todayUtc, parse, spyRows).0.Failed? ==>
              r.1 == ProcessSymbol("VIX", vixFetch, todayUtc, parse, vixRows).1
    ensures |r.1| == |vixRows| + 1 <==>
              !ProcessSymbol("SPY", spyFetch, todayUtc, parse, spyRows).0.Failed?
              && ProcessSymbol("VIX", vixFetch, todayUtc, parse, vixRows).0.Inserted?
  {
    var (spy, spyRows') := ProcessSymbol("SPY", spyFetch, todayUtc, parse, spyRows);
    if spy.Failed? then (spyRows', vixRows)
    else (spyRows', ProcessSymbol("VIX", vixFetch, todayUtc, parse, vixRows).1)
  }
}
