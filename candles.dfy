// The two intraday candle tables (saifan_intraday_candles_spy_5m and
// saifan_intraday_candles_vix_5m): one row per (symbol, candle_time), the
// conflict key every upsert into them names.

module Candles {
  import opened Base
  import opened Clock

  datatype CandleKey = CandleKey(symbol: string, time: Instant)

  /** A candle table: the key columns of each row, and its other columns. */
  type CandleTable = map<CandleKey, Dict>

  /** Every stored candle time is a real wall-clock instant. */
  predicate ValidTimes(t: CandleTable)
  {
    forall k :: k in t ==> k.time.Valid()
  }

  /** The candle time a fetched bar's `date` string names, or `None` when it
      is missing, not a string or not a time; `parse` stands for the
      wall-clock reading of the string (`strptime` of "%Y-%m-%d %H:%M:%S"). */
  function BarTime(bar: Dict, parse: string -> Option<Instant>): (t: Option<Instant>)
    ensures t.Some? <==> "date" in bar && bar["date"].JStr? && parse(bar["date"].s).Some?
                         && parse(bar["date"].s).value.Valid()
    ensures t.Some? ==> t == parse(bar["date"].s)
  {
    if "date" in bar && bar["date"].JStr? && parse(bar["date"].s).Some? && parse(bar["date"].s).value.Valid()
    then parse(bar["date"].s)
    else None
  }

  /** A row as `select("*")` returns it: its columns with the `symbol` key
      column, so it is never empty (the time stays in the key). */
  function StoredRow(k: CandleKey, cols: Dict): (row: Dict)
    ensures "symbol" in row && row != map[]
    ensures forall c :: c in cols && c != "symbol" ==> c in row && row[c] == cols[c]
  {
    cols["symbol" := JStr(k.symbol)]
  }

  /** `order("candle_time", desc=True).limit(1)`: `latest` is a row with the
      greatest candle time, or `None` exactly when the table is empty (rows
      that tie on time may come back in either order). */
  predicate IsLatest(t: CandleTable, latest: Option<CandleKey>)
  {
    && (latest.None? <==> t == map[])
    && (latest.Some? ==> latest.value in t && forall k :: k in t ==> Ord(k.time) <= Ord(latest.value.time))
  }

  /** Every table has a latest row, so the query always has an answer. */
  lemma {:induction false} LatestExists(t: CandleTable) returns (latest: Option<CandleKey>)
    ensures IsLatest(t, latest)
    decreases |t.Keys|
  {
    if t == map[] {
      latest := None;
    } else {
      var k :| k in t;
      var rest := map x | x in t && x != k :: t[x];
      assert rest.Keys == t.Keys - {k};
      var q := LatestExists(rest);
      if q.None? || Ord(q.value.time) <= Ord(k.time) {
        latest := Some(k);
      } else {
        latest := q;
      }
    }
  }

  /** Two valid instants with the same position on the clock are equal. */
  lemma OrdInjective(a: Instant, b: Instant)
    requires a.Valid() && b.Valid() && Ord(a) == Ord(b)
    ensures a == b
  {
    var offA := a.minute * MicrosPerMinute + a.second * 1000000 + a.micro;
    var offB := b.minute * MicrosPerMinute + b.second * 1000000 + b.micro;
    assert 0 <= offA < MicrosPerDay && 0 <= offB < MicrosPerDay;
    assert (a.day - b.day) * MicrosPerDay == offB - offA;
    assert a.day == b.day;
    assert a.minute * MicrosPerMinute + (a.second * 1000000 + a.micro)
        == b.minute * MicrosPerMinute + (b.second * 1000000 + b.micro);
    assert a.minute == b.minute;
    assert a.second == b.second;
  }
}
