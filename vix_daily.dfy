// The two daily VIX scripts, vix_daily_history_loader.py and
// vix_daily_worker.py: fetch FMP's daily VIX history and upsert one row per
// trading day into `vix_daily`, keyed on `trade_date`. The loader first
// empties the table; the worker does not.

module VixDaily {
  import opened Base
  import opened Clock
  import KeyedTable
  import opened Fmp

  /** The value of the `source` column. */
  const Source: string := "FMP"

  /** The one `trade_date` the loader's delete (`neq "1900-01-01"`) spares. */
  const SparedDate: string := "1900-01-01"

  /** `vix_daily` keyed on `trade_date`. */
  type Table = map<string, Dict>

  /** The loader's reset: every row whose `trade_date` differs from
      1900-01-01 is deleted. */
  function Reset(t: Table): (r: Table)
    ensures r.Keys <= {SparedDate}
    ensures SparedDate in t ==> SparedDate in r && r[SparedDate] == t[SparedDate]
    ensures SparedDate !in t ==> r == map[]
  {
    if SparedDate in t then map[SparedDate := t[SparedDate]] else map[]
  }

  /** `datetime.strptime(row["date"], "%Y-%m-%d").date().isoformat()`, with
      `parse` standing for `strptime` on the format; a date outside the
      calendar raises as `datetime` does. */
  function TradeDate(row: Json, parse: string -> Option<Date>): (r: Result<string>)
    ensures r.Ok? <==> row.JObj? && "date" in row.fields && row.fields["date"].JStr?
                       && parse(row.fields["date"].s).Some? && parse(row.fields["date"].s).value.Valid()
    ensures r.Ok? ==> r.value == Iso(parse(row.fields["date"].s).value)
  {
    if !row.JObj? then Err("TypeError: indices must be integers")
    else if "date" !in row.fields then Err("KeyError: 'date'")
    else if !row.fields["date"].JStr? then Err("TypeError: strptime() argument 1 must be str")
    else if parse(row.fields["date"].s).None? then Err("ValueError: does not match format '%Y-%m-%d'")
    else if !parse(row.fields["date"].s).value.Valid() then Err("ValueError: day is out of range for month")
    else Ok(Iso(parse(row.fields["date"].s).value))
  }

  /** The payload `upsert_vix_rows` builds for one row. */
  function Payload(tradeDate: string, row: Dict): (r: Dict)
    ensures r.Keys == {"trade_date", "open", "high", "low", "close", "volume", "source"}
    ensures r["trade_date"] == JStr(tradeDate) && r["source"] == JStr(Source)
    ensures forall c :: c in {"open", "high", "low", "close", "volume"} ==> r[c] == Get(row, c)
  {
    map["trade_date" := JStr(tradeDate), "open" := Get(row, "open"), "high" := Get(row, "high"),
        "low" := Get(row, "low"), "close" := Get(row, "close"), "volume" := Get(row, "volume"),
        "source" := JStr(Source)]
  }

  /** The upsert of one row, keyed on its trade date. */
  function WriteOf(parse: string -> Option<Date>): Json -> Result<(string, Dict)>
  {
    row => match TradeDate(row, parse)
      case Err(e) => Err(e)
      case Ok(d) => Ok((d, Payload(d, row.fields)))
  }

  /** `upsert_vix_rows`: one upsert per row, until a row raises. */
  method UpsertVixRows(rows: seq<Json>, parse: string -> Option<Date>, t: Table)
    returns (error: Option<string>, t': Table)
    ensures error == KeyedTable.Upserts(rows, WriteOf(parse)).error
    ensures t' == KeyedTable.UpsertAll(t, KeyedTable.Upserts(rows, WriteOf(parse)).written)
  {
    error, t' := KeyedTable.UpsertEach(rows, WriteOf(parse), t);
  }

  /** The j-th write is the payload of the j-th row, keyed on the ISO form
      of that row's parsed date; a run that raises stops at the first row
      whose date cannot be read. */
  lemma WritesFollowRows(rows: seq<Json>, parse: string -> Option<Date>, j: nat)
    ensures var p := KeyedTable.Upserts(rows, WriteOf(parse));
            j < |p.written| ==>
              TradeDate(rows[j], parse).Ok?
              && p.written[j] == (TradeDate(rows[j], parse).value, Payload(TradeDate(rows[j], parse).value, rows[j].fields))
    ensures var p := KeyedTable.Upserts(rows, WriteOf(parse));
            p.error.Some? ==> |p.written| < |rows| && TradeDate(rows[|p.written|], parse).Err?
    ensures var p := KeyedTable.Upserts(rows, WriteOf(parse));
            p.error.None? ==> |p.written| == |rows|
  {
    KeyedTable.UpsertsAre(rows, WriteOf(parse), j);
  }

  /** `fetch_vix_history` and the items `upsert_vix_rows` iterates over. */
  function Fetched(response: Result<Json>): (r: Result<seq<Json>>)
    ensures r.Ok? ==> response.Ok? && response.value.JObj? && "historical" in response.value.fields
    ensures History(response).Err? ==> r == Err(History(response).msg)
  {
    match History(response)
    case Err(e) => Err(e)
    case Ok(h) => Items(h)
  }

  /** The outcome of one run: the exception, if any, and the table. */
  datatype Run = Run(error: Option<string>, table: Table)

  /** vix_daily_worker.py `run`: fetch, then upsert; a fetch that raises
      changes nothing. */
  method RunWorker(response: Result<Json>, parse: string -> Option<Date>, t: Table) returns (r: Run)
    ensures Fetched(response).Err? ==> r == Run(Some(Fetched(response).msg), t)
    ensures Fetched(response).Ok? ==>
              var rows := Fetched(response).value;
              r.error == KeyedTable.Upserts(rows, WriteOf(parse)).error
              && r.table == KeyedTable.UpsertAll(t, KeyedTable.Upserts(rows, WriteOf(parse)).written)
  {
    var rows := Fetched(response);
    if rows.Err? {
      return Run(Some(rows.msg), t);
    }
    var error, t' := UpsertVixRows(rows.value, parse, t);
    r := Run(error, t');
  }

  /** vix_daily_history_loader.py `run`: the reset comes first, so a fetch
      that raises leaves at most the spared row. */
  method RunLoader(response: Result<Json>, parse: string -> Option<Date>, t: Table) returns (r: Run)
    ensures Fetched(response).Err? ==> r == Run(Some(Fetched(response).msg), Reset(t)) && r.table.Keys <= {SparedDate}
    ensures Fetched(response).Ok? ==>
              var rows := Fetched(response).value;
              r.error == KeyedTable.Upserts(rows, WriteOf(parse)).error
              && r.table == KeyedTable.UpsertAll(Reset(t), KeyedTable.Upserts(rows, WriteOf(parse)).written)
  {
    var cleared := Reset(t);
    r := RunWorker(response, parse, cleared);
  }
}
