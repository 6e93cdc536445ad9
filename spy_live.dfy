// The live SPY quote builder (saifan_01_spy_live_5min_quote_builder.py):
// each run reads the current quote and upserts it as the row of the
// current 5-minute candle, so every run inside one window rewrites the same
// row.

module SpyLive {
  import opened Base
  import opened Clock
  import opened Candles
  import KeyedTable

  /** Python truthiness of an environment setting (`os.getenv`). */
  predicate SettingSet(v: Option<string>)
  {
    v.Some? && v.value != []
  }

  /** The import-time check: any of the FMP key, Supabase URL or Supabase
      key missing or empty raises before anything else runs. */
  function CheckConfig(fmpKey: Option<string>, url: Option<string>, key: Option<string>): (r: Result<()>)
    ensures r.Ok? <==> SettingSet(fmpKey) && SettingSet(url) && SettingSet(key)
  {
    if !SettingSet(fmpKey) || !SettingSet(url) || !SettingSet(key) then Err("Missing environment variables")
    else Ok(())
  }

  /** `get_live_quote` given the decoded response: `None` for an empty
      response; otherwise the first record's fields renamed, a missing one
      read as `None`. A response that is not a list of records raises. */
  function GetLiveQuote(data: Json): (r: Result<Option<Dict>>)
    ensures !Truthy(data) ==> r == Ok(None)
    ensures r.Ok? && r.value.Some? ==>
              && data.JList? && data.items != [] && data.items[0].JObj?
              && r.value.value.Keys == {"open", "high", "low", "close", "volume"}
              && r.value.value["open"] == Get(data.items[0].fields, "open")
              && r.value.value["high"] == Get(data.items[0].fields, "dayHigh")
              && r.value.value["low"] == Get(data.items[0].fields, "dayLow")
              && r.value.value["close"] == Get(data.items[0].fields, "price")
              && r.value.value["volume"] == Get(data.items[0].fields, "volume")
    ensures r.Err? <==> Truthy(data) && !(data.JList? && data.items[0].JObj?)
  {
    if !Truthy(data) then Ok(None)
    else if data.JList? && data.items[0].JObj? then
      var q := data.items[0].fields;
      Ok(Some(map["open" := Get(q, "open"), "high" := Get(q, "dayHigh"), "low" := Get(q, "dayLow"),
                  "close" := Get(q, "price"), "volume" := Get(q, "volume")]))
    else Err("data[0]")
  }

  /** The row `run_cycle` writes for a quote. */
  function QuoteRow(quote: Dict): (row: Dict)
    requires quote.Keys == {"open", "high", "low", "close", "volume"}
    ensures row.Keys == {"symbol", "open", "high", "low", "close", "volume"}
    ensures row["symbol"] == JStr("SPY")
    ensures forall c :: c in quote ==> row[c] == quote[c]
  {
    quote["symbol" := JStr("SPY")]
  }

  /** `run_cycle()` at New York clock reading `now`, given the fetch result:
      no quote writes nothing, otherwise the quote is upserted as the SPY
      row of the current candle (the table's key is taken to be
      (symbol, candle_time), as the other writers of this table name it). */
  function RunCycle(fetched: Result<Json>, now: Instant, t: CandleTable): (r: Result<CandleTable>)
    requires now.Valid()
    ensures fetched.Ok? && GetLiveQuote(fetched.value) == Ok(None) ==> r == Ok(t)
    ensures r.Err? <==> fetched.Err? || GetLiveQuote(fetched.value).Err?
    ensures fetched.Ok? && GetLiveQuote(fetched.value).Ok? && GetLiveQuote(fetched.value).value.Some? ==>
              r == Ok(KeyedTable.Upsert(t, CandleKey("SPY", Round5(now)), QuoteRow(GetLiveQuote(fetched.value).value.value)))
    ensures r.Ok? && r.value != t ==>
              var k := CandleKey("SPY", Round5(now));
              && r.value.Keys == t.Keys + {k}
              && (forall k' :: k' in t && k' != k ==> r.value[k'] == t[k'])
              && "symbol" in r.value[k] && r.value[k]["symbol"] == JStr("SPY")
  {
    match fetched
    case Err(e) => Err(e)
    case Ok(data) =>
      match GetLiveQuote(data)
      case Err(e) => Err(e)
      case Ok(None) => Ok(t)
      case Ok(Some(quote)) => Ok(KeyedTable.Upsert(t, CandleKey("SPY", Round5(now)), QuoteRow(quote)))
  }

  /** `run_cycle()` as written: the row's `candle_time` is the `datetime`
      object itself, not its ISO text (the VIX builder sends
      `ts.isoformat()`), and the JSON encoding of the request body refuses a
      `datetime`, so every run that has a quote raises and writes nothing. */
  function AsWrittenRunCycle(fetched: Result<Json>, now: Instant, t: CandleTable): (r: Result<CandleTable>)
    requires now.Valid()
    ensures r.Ok? <==> fetched.Ok? && GetLiveQuote(fetched.value) == Ok(None)
    ensures r.Ok? ==> r.value == t
  {
    match fetched
    case Err(e) => Err(e)
    case Ok(data) =>
      match GetLiveQuote(data)
      case Err(e) => Err(e)
      case Ok(None) => Ok(t)
      case Ok(Some(_)) => Err("TypeError: Object of type datetime is not JSON serializable")
  }

  /** Whenever the intended cycle writes a quote, the cycle as written
      raises instead. */
  lemma AsWrittenNeverWrites(fetched: Result<Json>, now: Instant, t: CandleTable)
    requires now.Valid()
    requires RunCycle(fetched, now, t).Ok? && RunCycle(fetched, now, t).value != t
    ensures AsWrittenRunCycle(fetched, now, t).Err?
  {
  }

  /** One quote read at 15:02 on an empty table: written as intended, an
      exception as written. */
  lemma AsWrittenCounterexample()
    ensures var fetched := Ok(JList([JObj(map["price" := JReal(5.0)])]));
            && AsWrittenRunCycle(fetched, Instant(20000, 902, 0, 0), map[]).Err?
            && RunCycle(fetched, Instant(20000, 902, 0, 0), map[]).Ok?
            && CandleKey("SPY", Instant(20000, 900, 0, 0)) in RunCycle(fetched, Instant(20000, 902, 0, 0), map[]).value
  {
    var now := Instant(20000, 902, 0, 0);
    CandleStart(now, 900);
  }

  /** All runs inside one 5-minute window write the same row: a second run
      with the same quote anywhere in the window changes nothing. */
  lemma {:induction false} SameWindowSameRow(fetched: Result<Json>, first: Instant, later: Instant, t: CandleTable)
    requires first.Valid() && later.Valid()
    requires Ord(Round5(first)) <= Ord(later) < Ord(Round5(first)) + 5 * MicrosPerMinute
    requires RunCycle(fetched, first, t).Ok?
    ensures Round5(later) == Round5(first)
    ensures RunCycle(fetched, later, RunCycle(fetched, first, t).value) == RunCycle(fetched, first, t)
  {
    Round5Idempotent(first);
    WindowRoundsToCandle(Round5(first), later);
    match GetLiveQuote(fetched.value)
    case Ok(None) =>
    case Ok(Some(quote)) =>
      KeyedTable.UpsertTwice(t, CandleKey("SPY", Round5(first)), QuoteRow(quote));
  }
}
