// One run of the SPY indicator cycle (saifan_01_spy.py, run_spy_cycle): take
// the newest 5-minute bar, skip it when it is the bar of the newest stored
// row, otherwise compute its indicators from that row and insert it.

module SpyCycle {
  import opened Base
  import opened Clock
  import opened Candles
  import opened Indicators

  datatype Outcome =
    | NoData                 // the fetch returned no bar
    | Duplicate              // the bar is already the newest row
    | Inserted(key: CandleKey)
    | Failed(msg: string)    // an exception ended the cycle

  /** `fetch_spy_5m`: the first element of a non-empty list, else `None`. */
  function FetchedBar(data: Json): (bar: Json)
    ensures data.JList? && data.items != [] ==> bar == data.items[0]
    ensures !(data.JList? && data.items != []) ==> bar == JNull
  {
    if data.JList? && |data.items| > 0 then data.items[0] else JNull
  }

  /** The inserted row: the bar's prices after `float()` (here a missing
      volume raises) and the nine indicator columns. */
  function Payload(bar: Dict, ind: Indicators): (r: Result<Dict>)
    ensures r.Ok? <==> ReadReal(bar, "open").Ok? && ReadReal(bar, "high").Ok? && ReadReal(bar, "low").Ok?
                       && ReadReal(bar, "close").Ok? && ReadReal(bar, "volume").Ok?
    ensures r.Ok? ==> "symbol" in r.value && r.value["symbol"] == JStr("SPY") && "close" in r.value && r.value["close"] == JReal(AsReal(bar["close"]))
    ensures r.Ok? ==> forall c :: c in Columns(ind) ==> c in r.value && r.value[c] == Columns(ind)[c]
  {
    match (ReadReal(bar, "open"), ReadReal(bar, "high"), ReadReal(bar, "low"), ReadReal(bar, "close"), ReadReal(bar, "volume"))
    case (Ok(o), Ok(h), Ok(l), Ok(c), Ok(v)) =>
      var prices := map["symbol" := JStr("SPY"), "open" := JReal(o), "high" := JReal(h),
                        "low" := JReal(l), "close" := JReal(c), "volume" := JReal(v)];
      assert "symbol" !in Columns(ind) && "close" !in Columns(ind);
      Ok(prices + Columns(ind))
    case _ => Err("float() of a bar field")
  }

  /** The previous row handed to `compute_indicators`. */
  function PrevRow(t: CandleTable, latest: Option<CandleKey>): Option<Dict>
    requires IsLatest(t, latest)
  {
    if latest.Some? then Some(StoredRow(latest.value, t[latest.value])) else None
  }

  /** The duplicate test: the newest row's `candle_time`, as the store
      returns it (`shown`), is the same text as the bar's `date`. */
  predicate SameText(b: Dict, latest: CandleKey, shown: Instant -> string)
    requires "date" in b
  {
    b["date"] == JStr(shown(latest.time))
  }

  /** The bar is inserted: its `date` text is not the newest row's
      `candle_time` text, its indicators and payload compute, its time reads
      and no row holds that time yet. */
  predicate Inserts(b: Dict, t: CandleTable, latest: Option<CandleKey>, parse: string -> Option<Instant>,
                    shown: Instant -> string)
    requires IsLatest(t, latest)
  {
    && (latest.Some? ==> "date" in b && !SameText(b, latest.value, shown))
    && ComputeIndicators(b, PrevRow(t, latest)).Ok?
    && Payload(b, ComputeIndicators(b, PrevRow(t, latest)).value).Ok?
    && BarTime(b, parse).Some?
    && CandleKey("SPY", BarTime(b, parse).value) !in t
  }

  /** The row such a bar gets. */
  function NewRow(b: Dict, t: CandleTable, latest: Option<CandleKey>, parse: string -> Option<Instant>,
                  shown: Instant -> string): Dict
    requires IsLatest(t, latest) && Inserts(b, t, latest, parse, shown)
  {
    Payload(b, ComputeIndicators(b, PrevRow(t, latest)).value).value
  }

  /** `run_spy_cycle` given the fetch result, the table, the newest row the
      query returns and the text the store returns for a stored candle
      time; the result is the outcome and the new table. */
  function Cycle(fetched: Result<Json>, t: CandleTable, latest: Option<CandleKey>,
                 parse: string -> Option<Instant>, shown: Instant -> string): (r: (Outcome, CandleTable))
    requires IsLatest(t, latest)
    ensures !r.0.Inserted? ==> r.1 == t
    ensures fetched.Ok? && !Truthy(FetchedBar(fetched.value)) ==> r.0 == NoData
    ensures r.0.Inserted? <==>
              fetched.Ok? && Truthy(FetchedBar(fetched.value)) && FetchedBar(fetched.value).JObj?
              && Inserts(FetchedBar(fetched.value).fields, t, latest, parse, shown)
    ensures r.0.Inserted? ==>
              var b := FetchedBar(fetched.value).fields;
              r.0.key == CandleKey("SPY", BarTime(b, parse).value) && r.1 == t[r.0.key := NewRow(b, t, latest, parse, shown)]
    ensures r.0.Inserted? ==>
              && r.0.key.symbol == "SPY" && r.0.key !in t
              && r.1.Keys == t.Keys + {r.0.key}
              && (forall k :: k in t ==> r.1[k] == t[k])
    ensures r.0 == Duplicate <==>
              fetched.Ok? && Truthy(FetchedBar(fetched.value)) && FetchedBar(fetched.value).JObj?
              && latest.Some? && "date" in FetchedBar(fetched.value).fields
              && SameText(FetchedBar(fetched.value).fields, latest.value, shown)
  {
    match fetched
    case Err(e) => (Failed(e), t)
    case Ok(data) =>
      var bar := FetchedBar(data);
      if !Truthy(bar) then (NoData, t)
      else if !bar.JObj? then (Failed("bar is not a dict"), t)
      else CycleBar(bar.fields, t, latest, parse, shown)
  }

  /** The cycle once the fetched bar is a dict: the duplicate test against
      the newest row, the indicators, the payload and the insert. */
  function CycleBar(b: Dict, t: CandleTable, latest: Option<CandleKey>, parse: string -> Option<Instant>,
                    shown: Instant -> string)
    : (r: (Outcome, CandleTable))
    requires IsLatest(t, latest)
    ensures !r.0.Inserted? ==> r.1 == t
    ensures r.0.Inserted? ==>
              && r.0.key.symbol == "SPY" && r.0.key !in t
              && r.1.Keys == t.Keys + {r.0.key}
              && (forall k :: k in t ==> r.1[k] == t[k])
    ensures r.0.Inserted? ==> BarTime(b, parse) == Some(r.0.key.time)
    ensures r.0 == Duplicate <==> latest.Some? && "date" in b && SameText(b, latest.value, shown)
    ensures latest.Some? && "date" !in b ==> r.0.Failed?
    ensures r.0.Inserted? <==> Inserts(b, t, latest, parse, shown)
    ensures r.0.Inserted? ==>
              r.0.key == CandleKey("SPY", BarTime(b, parse).value) && r.1 == t[r.0.key := NewRow(b, t, latest, parse, shown)]
  {
    if latest.Some? && "date" !in b then (Failed("KeyError: date"), t)
    else if latest.Some? && SameText(b, latest.value, shown) then (Duplicate, t)
    else
      match ComputeIndicators(b, PrevRow(t, latest))
      case Err(e) => (Failed(e), t)
      case Ok(ind) => InsertBar(b, ind, t, parse)
  }

  /** The payload of the bar and its indicators, inserted under the bar's
      time; the table's unique key rejects a row already there. */
  function InsertBar(b: Dict, ind: Indicators, t: CandleTable, parse: string -> Option<Instant>)
    : (r: (Outcome, CandleTable))
    ensures !r.0.Inserted? ==> r.1 == t
    ensures r.0.Inserted? ==>
              && r.0.key.symbol == "SPY" && r.0.key !in t && BarTime(b, parse) == Some(r.0.key.time)
              && Payload(b, ind).Ok? && r.1 == t[r.0.key := Payload(b, ind).value]
    ensures r.0.Inserted? <==>
              Payload(b, ind).Ok? && BarTime(b, parse).Some? && CandleKey("SPY", BarTime(b, parse).value) !in t
  {
    match Payload(b, ind)
    case Err(e) => (Failed(e), t)
    case Ok(row) =>
      match BarTime(b, parse)
      case None => (Failed("candle_time"), t)
      case Some(time) =>
        var k := CandleKey("SPY", time);
        if k in t then (Failed("duplicate key value violates unique constraint"), t)
        else (Inserted(k), t[k := row])
  }

  /** The bar the cycle reads from a fetch. */
  predicate ReadsBar(fetched: Result<Json>, p: BarPrices)
  {
    fetched.Ok? && FetchedBar(fetched.value).JObj? && ReadBar(FetchedBar(fetched.value).fields) == Ok(p)
  }

  /** On an empty table (as the daily wipe leaves it) the inserted row is the
      first row of a session: both EMAs at the close, MACD, signal and
      histogram zero, the VWAP the typical price and the volume its own. */
  lemma {:induction false} SeedsOnEmptyTable(fetched: Result<Json>, parse: string -> Option<Instant>,
                                              shown: Instant -> string, p: BarPrices)
    requires ReadsBar(fetched, p)
    requires Cycle(fetched, map[], None, parse, shown).0.Inserted?
    ensures var k := Cycle(fetched, map[], None, parse, shown).0.key;
            var row := Cycle(fetched, map[], None, parse, shown).1[k];
            && row["macd"] == JReal(0.0) && row["macd_signal"] == JReal(0.0) && row["macd_hist"] == JReal(0.0)
            && row["ema12"] == JReal(p.close) && row["ema26"] == JReal(p.close)
            && row["vwap"] == JReal(TypicalPrice(p)) && row["cumulative_vol"] == JReal(p.volume)
  {
    var b := FetchedBar(fetched.value).fields;
    var ind := Step(p, Seed(p));
    assert ComputeIndicators(b, PrevRow(map[], None)) == Ok(ind);
    FirstRow(p);
    var row := Payload(b, ind).value;
    assert "macd" in Columns(ind) && "vwap" in Columns(ind) && "ema12" in Columns(ind);
    assert "cumulative_vol" in Columns(ind) && "macd_hist" in Columns(ind);
  }

  /** The indicator columns stored by a cycle are read back unchanged by the
      next cycle: when the newest row carries the state of a session `bars`,
      the inserted row carries the session extended by the new bar. So the
      EMAs advance once per inserted bar, however often the cycle runs. */
  lemma {:induction false} CycleExtendsSession(fetched: Result<Json>, t: CandleTable, latest: Option<CandleKey>,
                                               parse: string -> Option<Instant>, shown: Instant -> string,
                                               bars: seq<BarPrices>, p: BarPrices)
    requires IsLatest(t, latest) && latest.Some? && |bars| > 0
    requires ReadCarry(StoredRow(latest.value, t[latest.value])) == Ok(CarryOf(Session(bars)))
    requires ReadsBar(fetched, p)
    requires Cycle(fetched, t, latest, parse, shown).0.Inserted?
    ensures var r := Cycle(fetched, t, latest, parse, shown);
            forall c :: c in Columns(Session(bars + [p])) ==>
              c in r.1[r.0.key] && r.1[r.0.key][c] == Columns(Session(bars + [p]))[c]
  {
    var b := FetchedBar(fetched.value).fields;
    var ind := Step(p, CarryOf(Session(bars)));
    assert ComputeIndicators(b, PrevRow(t, latest)) == Ok(ind);
    assert (bars + [p])[..|bars|] == bars;
    assert Session(bars + [p]) == ind;
  }

  /** The store hands back a candle time as the very text FMP sent for it. */
  predicate EchoesDate(fetched: Result<Json>, parse: string -> Option<Instant>, shown: Instant -> string)
  {
    && fetched.Ok? && FetchedBar(fetched.value).JObj?
    && BarTime(FetchedBar(fetched.value).fields, parse).Some?
    && FetchedBar(fetched.value).fields["date"] == JStr(shown(BarTime(FetchedBar(fetched.value).fields, parse).value))
  }

  /** Running the cycle again on the same fetch right after it inserted a bar
      that is not older than any stored row, when the store returns that
      bar's `candle_time` as FMP's `date` text, is a duplicate and writes
      nothing, whichever newest row the query returns. */
  lemma {:induction false} RepeatIsDuplicate(fetched: Result<Json>, t: CandleTable, latest: Option<CandleKey>,
                          parse: string -> Option<Instant>, shown: Instant -> string, latest2: Option<CandleKey>)
    requires ValidTimes(t) && IsLatest(t, latest)
    requires Cycle(fetched, t, latest, parse, shown).0.Inserted?
    requires latest.Some? ==> Ord(latest.value.time) <= Ord(Cycle(fetched, t, latest, parse, shown).0.key.time)
    requires IsLatest(Cycle(fetched, t, latest, parse, shown).1, latest2)
    requires EchoesDate(fetched, parse, shown)
    ensures Cycle(fetched, Cycle(fetched, t, latest, parse, shown).1, latest2, parse, shown) ==
              (Duplicate, Cycle(fetched, t, latest, parse, shown).1)
  {
    var r := Cycle(fetched, t, latest, parse, shown);
    var k := r.0.key;
    var l := latest2.value;
    SameNewestTime(t, latest, k, r.1, l);
  }

  /** When the store returns the inserted bar's `candle_time` in another text
      than FMP's `date` (an ISO "T" and an offset, say), the repeated cycle
      is no duplicate: it reaches the insert, which the unique key refuses,
      so the cycle raises and the table stays as it was. */
  lemma {:induction false} RepeatWithOtherTextFails(fetched: Result<Json>, t: CandleTable, latest: Option<CandleKey>,
                          parse: string -> Option<Instant>, shown: Instant -> string, latest2: Option<CandleKey>)
    requires ValidTimes(t) && IsLatest(t, latest)
    requires Cycle(fetched, t, latest, parse, shown).0.Inserted?
    requires latest.Some? ==> Ord(latest.value.time) <= Ord(Cycle(fetched, t, latest, parse, shown).0.key.time)
    requires IsLatest(Cycle(fetched, t, latest, parse, shown).1, latest2)
    requires !EchoesDate(fetched, parse, shown)
    ensures Cycle(fetched, Cycle(fetched, t, latest, parse, shown).1, latest2, parse, shown).0.Failed?
    ensures Cycle(fetched, Cycle(fetched, t, latest, parse, shown).1, latest2, parse, shown).1 ==
              Cycle(fetched, t, latest, parse, shown).1
  {
    var r := Cycle(fetched, t, latest, parse, shown);
    var k := r.0.key;
    var l := latest2.value;
    var b := FetchedBar(fetched.value).fields;
    SameNewestTime(t, latest, k, r.1, l);
    assert !SameText(b, l, shown);
    assert k in r.1;
    assert !Inserts(b, r.1, latest2, parse, shown);
  }

  /** After the insert of `k`, the newest row `l` has exactly `k`'s time. */
  lemma SameNewestTime(t: CandleTable, latest: Option<CandleKey>, k: CandleKey, t2: CandleTable, l: CandleKey)
    requires ValidTimes(t) && IsLatest(t, latest) && k.time.Valid()
    requires latest.Some? ==> Ord(latest.value.time) <= Ord(k.time)
    requires t2.Keys == t.Keys + {k}
    requires IsLatest(t2, Some(l))
    ensures l.time == k.time
  {
    assert Ord(l.time) == Ord(k.time) by {
      assert Ord(k.time) <= Ord(l.time);
      if l != k {
        assert l in t;
        assert Ord(l.time) <= Ord(latest.value.time);
      }
    }
    assert l.time.Valid() by {
      if l != k {
        assert l in t;
      }
    }
    OrdInjective(l.time, k.time);
  }
}
