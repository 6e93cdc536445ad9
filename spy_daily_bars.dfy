// spy_daily_bars_sync.py: fetch FMP's daily SPY history, keep the bars of
// the last 190 days and upsert them in one statement into `spy_daily_bars`,
// keyed on (symbol, bar_date).

module SpyDailyBars {
  import opened Base
  import opened Clock
  import opened Fmp
  import KeyedTable

  const Symbol: string := "SPY"
  const DaysBack: int := 190

  /** `datetime.utcnow() - timedelta(days=DAYS_BACK)`, with `now` read from
      the clock. */
  function Cutoff(now: Instant): (c: Instant)
    ensures Ord(now) - Ord(c) == DaysBack * MicrosPerDay
  {
    Instant(now.day - DaysBack, now.minute, now.second, now.micro)
  }

  /** A bar parsed from "%Y-%m-%d" stands at midnight of its day: it is kept
      when its day is after the cutoff's, and on the cutoff's own day only
      when the run started exactly at midnight. */
  lemma MidnightBarKept(bar: Instant, now: Instant)
    requires bar.minute == 0 && bar.second == 0 && bar.micro == 0 && now.Valid()
    ensures !(Ord(bar) < Ord(Cutoff(now))) <==>
              bar.day > now.day - DaysBack
              || (bar.day == now.day - DaysBack && now.minute == 0 && now.second == 0 && now.micro == 0)
  {
    var c := Cutoff(now);
    var tod := now.minute * MicrosPerMinute + now.second * 1000000 + now.micro;
    assert 0 <= tod < MicrosPerDay;
    assert Ord(c) == c.day * MicrosPerDay + tod;
    assert Ord(bar) == bar.day * MicrosPerDay;
    if bar.day < c.day {
      assert bar.day * MicrosPerDay <= c.day * MicrosPerDay - MicrosPerDay;
    } else if bar.day > c.day {
      assert bar.day * MicrosPerDay >= c.day * MicrosPerDay + MicrosPerDay;
    }
  }

  /** The price columns copied from a bar. */
  const PriceColumns: set<string> := {"open", "high", "low", "close", "volume"}

  /** The row appended for a bar that passed the cutoff; each price column
      is read with `bar[...]`, which raises when it is missing. */
  function RowOf(bar: Dict, date: string): (r: Result<Dict>)
    ensures r.Ok? <==> PriceColumns <= bar.Keys
    ensures r.Ok? ==> r.value.Keys == PriceColumns + {"symbol", "bar_date"}
    ensures r.Ok? ==> r.value["symbol"] == JStr(Symbol) && r.value["bar_date"] == JStr(date)
    ensures r.Ok? ==> forall c :: c in PriceColumns ==> r.value[c] == bar[c]
  {
    if !(PriceColumns <= bar.Keys) then Err("KeyError: a price column is missing")
    else
      Ok(map["symbol" := JStr(Symbol), "bar_date" := JStr(date), "open" := bar["open"], "high" := bar["high"],
             "low" := bar["low"], "close" := bar["close"], "volume" := bar["volume"]])
  }

  /** One turn of the loop over the bars: an exception, a bar skipped as too
      old, or the row to append. */
  function Turn(bar: Json, parse: string -> Option<Instant>, now: Instant): (r: Result<Option<Dict>>)
    ensures r.Ok? ==> bar.JObj? && "date" in bar.fields && bar.fields["date"].JStr?
                      && parse(bar.fields["date"].s).Some?
    ensures r.Ok? ==> (r.value.None? <==> Ord(parse(bar.fields["date"].s).value) < Ord(Cutoff(now)))
    ensures r.Ok? && r.value.Some? ==> RowOf(bar.fields, bar.fields["date"].s) == Ok(r.value.value)
    ensures (bar.JObj? && "date" in bar.fields && bar.fields["date"].JStr? && parse(bar.fields["date"].s).Some?
             && Ord(parse(bar.fields["date"].s).value) < Ord(Cutoff(now))) ==> r == Ok(None)
  {
    if !bar.JObj? then Err("TypeError: indices must be integers")
    else if "date" !in bar.fields then Err("KeyError: 'date'")
    else if !bar.fields["date"].JStr? then Err("TypeError: strptime() argument 1 must be str")
    else if parse(bar.fields["date"].s).None? then Err("ValueError: does not match format '%Y-%m-%d'")
    else if Ord(parse(bar.fields["date"].s).value) < Ord(Cutoff(now)) then Ok(None)
    else match RowOf(bar.fields, bar.fields["date"].s)
      case Err(e) => Err(e)
      case Ok(row) => Ok(Some(row))
  }

  /** The loop's turn for each bar. */
  function TurnOf(parse: string -> Option<Instant>, now: Instant): Json -> Result<Option<Dict>>
  {
    bar => Turn(bar, parse, now)
  }

  /** `rows` after the loop over `bars`, or the first exception. */
  function Rows(bars: seq<Json>, turn: Json -> Result<Option<Dict>>): (r: Result<seq<Dict>>)
    ensures r.Ok? ==> |r.value| <= |bars|
  {
    if bars == [] then Ok([])
    else
      var n := |bars| - 1;
      match Rows(bars[..n], turn)
      case Err(e) => Err(e)
      case Ok(prev) =>
        match turn(bars[n])
        case Err(e) => Err(e)
        case Ok(None) => Ok(prev)
        case Ok(Some(row)) => Ok(prev + [row])
  }

  /** Once a bar has raised, later bars change nothing. */
  lemma {:induction false} RowsErrStays(bars: seq<Json>, turn: Json -> Result<Option<Dict>>, i: nat)
    requires i <= |bars| && Rows(bars[..i], turn).Err?
    ensures Rows(bars, turn) == Rows(bars[..i], turn)
    decreases |bars| - i
  {
    if i < |bars| {
      assert bars[..i + 1][..i] == bars[..i];
      RowsErrStays(bars, turn, i + 1);
    } else {
      assert bars[..i] == bars;
    }
  }

  /** The rows are exactly the rows of the bars that passed the cutoff, in
      the order of the bars: every row comes from a bar, and every bar's row
      is there. */
  lemma {:induction false} RowsAreKeptBars(bars: seq<Json>, turn: Json -> Result<Option<Dict>>, row: Dict)
    requires Rows(bars, turn).Ok?
    ensures forall j :: 0 <= j < |bars| ==> turn(bars[j]).Ok?
    ensures row in Rows(bars, turn).value <==> exists j :: 0 <= j < |bars| && turn(bars[j]) == Ok(Some(row))
  {
    if bars != [] {
      var n := |bars| - 1;
      RowsAreKeptBars(bars[..n], turn, row);
      forall j | 0 <= j < n ensures turn(bars[j]).Ok? {
        assert bars[..n][j] == bars[j];
      }
      if row in Rows(bars[..n], turn).value {
        var j :| 0 <= j < n && turn(bars[..n][j]) == Ok(Some(row));
        assert turn(bars[j]) == Ok(Some(row));
      }
      if exists j :: 0 <= j < |bars| && turn(bars[j]) == Ok(Some(row)) {
        var j :| 0 <= j < |bars| && turn(bars[j]) == Ok(Some(row));
        if j < n {
          assert bars[..n][j] == bars[j];
        }
      }
    }
  }

  /** The loop of the script that fills `rows`. */
  method CollectRows(bars: seq<Json>, turn: Json -> Result<Option<Dict>>) returns (r: Result<seq<Dict>>)
    ensures r == Rows(bars, turn)
  {
    var rows: seq<Dict> := [];
    for i := 0 to |bars|
      invariant Rows(bars[..i], turn) == Ok(rows)
    {
      assert bars[..i + 1][..i] == bars[..i];
      var t := turn(bars[i]);
      if t.Err? {
        RowsErrStays(bars, turn, i + 1);
        return Err(t.msg);
      }
      if t.value.Some? {
        rows := rows + [t.value.value];
      }
    }
    assert bars[..|bars|] == bars;
    r := Ok(rows);
  }

  /** `spy_daily_bars` keyed on (symbol, bar_date). */
  type Key = (Json, Json)

  /** The bulk upsert's (key, row) pairs. */
  function Keyed(rows: seq<Dict>): (r: seq<(Key, Dict)>)
    ensures |r| == |rows|
    ensures forall j :: 0 <= j < |rows| ==> r[j] == ((Get(rows[j], "symbol"), Get(rows[j], "bar_date")), rows[j])
  {
    seq(|rows|, j requires 0 <= j < |rows| => ((Get(rows[j], "symbol"), Get(rows[j], "bar_date")), rows[j]))
  }

  /** No two rows of one statement share a key. */
  predicate DistinctKeys(pairs: seq<(Key, Dict)>)
  {
    forall i, j :: 0 <= i < j < |pairs| ==> pairs[i].0 != pairs[j].0
  }

  /** How the script ends. */
  datatype Outcome = Raised(msg: string) | NoRows | Upserted(table: map<Key, Dict>)

  /** The script: `response` is the decoded body or the error of the
      request. PostgreSQL refuses an `ON CONFLICT DO UPDATE` that meets the
      same key twice, so one statement with a repeated date fails whole. */
  method Sync(response: Result<Json>, parse: string -> Option<Instant>, now: Instant, table: map<Key, Dict>)
    returns (o: Outcome)
    ensures History(response).Err? ==> o == Raised(History(response).msg)
    ensures o.Upserted? ==>
              History(response).Ok? && Items(History(response).value).Ok?
              && var rows := Rows(Items(History(response).value).value, TurnOf(parse, now));
              rows.Ok? && rows.value != [] && DistinctKeys(Keyed(rows.value))
              && o.table == KeyedTable.UpsertAll(table, Keyed(rows.value))
    ensures History(response).Ok? && Items(History(response).value).Ok? ==>
              var rows := Rows(Items(History(response).value).value, TurnOf(parse, now));
              rows.Ok? && rows.value != [] && DistinctKeys(Keyed(rows.value)) ==>
                o == Upserted(KeyedTable.UpsertAll(table, Keyed(rows.value)))
    ensures o.NoRows? <==>
              History(response).Ok? && Items(History(response).value).Ok?
              && Rows(Items(History(response).value).value, TurnOf(parse, now)) == Ok([])
  {
    var history := History(response);
    if history.Err? {
      return Raised(history.msg);
    }
    var bars := Items(history.value);
    if bars.Err? {
      return Raised(bars.msg);
    }
    var rows := CollectRows(bars.value, TurnOf(parse, now));
    if rows.Err? {
      return Raised(rows.msg);
    }
    if rows.value == [] {
      return NoRows;
    }
    var pairs := Keyed(rows.value);
    if !DistinctKeys(pairs) {
      return Raised("ON CONFLICT DO UPDATE command cannot affect row a second time");
    }
    o := Upserted(KeyedTable.UpsertAll(table, pairs));
  }

  /** Every row the sync writes is the SPY row of one bar of the response
      that passed the cutoff (what `Turn` promises of it). */
  lemma UpsertedRowsAreRecentBars(bars: seq<Json>, parse: string -> Option<Instant>, now: Instant, row: Dict)
    requires Rows(bars, TurnOf(parse, now)).Ok? && row in Rows(bars, TurnOf(parse, now)).value
    ensures "symbol" in row && row["symbol"] == JStr(Symbol)
    ensures exists j :: 0 <= j < |bars| && Turn(bars[j], parse, now) == Ok(Some(row))
  {
    RowsAreKeptBars(bars, TurnOf(parse, now), row);
    var j :| 0 <= j < |bars| && TurnOf(parse, now)(bars[j]) == Ok(Some(row));
    assert Turn(bars[j], parse, now) == Ok(Some(row));
  }
}
