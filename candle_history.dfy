// The part the two official-history updaters share
// (saifan_02_spy_5m_history_update.py, saifan_04_vix_5m_history_update.py):
// walk the day's 5-minute history in order, decide per bar whether to skip
// it, write it or fail, and upsert each written bar on (symbol, candle_time).
// The updaters differ only in the symbol and in the decision.

module CandleHistory {
  import opened Base
  import opened Clock
  import opened Candles
  import KeyedTable

  /** What the loop body does with a bar at a given time. */
  datatype Decision = Skip | Keep | Raise

  /** What happens to one element of the history. */
  datatype BarAction = SkipBar | WriteBar(key: CandleKey, row: Dict) | FailBar

  /** `fetch_*_history` then `if not history`: the bars to walk, `None` when
      the status is not 200 or the body is empty. */
  function History(status: int, body: Json): (h: Option<Json>)
    ensures h.Some? <==> status == 200 && Truthy(body)
  {
    if status == 200 && Truthy(body) then Some(body) else None
  }

  /** The row written for a bar: the symbol and the bar's OHLCV copied as they
      are; a missing field raises `KeyError`. */
  function HistoryRow(symbol: string, bar: Dict): (r: Option<Dict>)
    ensures r.Some? <==> "open" in bar && "high" in bar && "low" in bar && "close" in bar && "volume" in bar
    ensures r.Some? ==> r.value.Keys == {"symbol", "open", "high", "low", "close", "volume"}
                        && r.value["symbol"] == JStr(symbol)
                        && r.value["open"] == bar["open"] && r.value["high"] == bar["high"]
                        && r.value["low"] == bar["low"] && r.value["close"] == bar["close"]
                        && r.value["volume"] == bar["volume"]
  {
    if "open" in bar && "high" in bar && "low" in bar && "close" in bar && "volume" in bar then
      Some(map["symbol" := JStr(symbol), "open" := bar["open"], "high" := bar["high"], "low" := bar["low"],
               "close" := bar["close"], "volume" := bar["volume"]])
    else None
  }

  /** A reading of the `date` field that takes every string to `t`; with
      `SampleBar` it makes concrete histories. */
  function ReadsAs(t: Instant): string -> Option<Instant>
  {
    s => Some(t)
  }

  /** A complete bar with the given `date` string and unit prices. */
  function SampleBar(date: string): (bar: Dict)
    ensures "date" in bar && bar["date"] == JStr(date)
    ensures "open" in bar && "high" in bar && "low" in bar && "close" in bar && "volume" in bar
  {
    map["date" := JStr(date), "open" := JInt(1), "high" := JInt(1), "low" := JInt(1), "close" := JInt(1), "volume" := JInt(1)]
  }

  /** One pass of the loop body. */
  function Act(bar: Json, symbol: string, decide: Instant -> Decision, parse: string -> Option<Instant>): (a: BarAction)
    ensures a.WriteBar? ==> && a.key.symbol == symbol && decide(a.key.time) == Keep
                            && bar.JObj? && BarTime(bar.fields, parse) == Some(a.key.time)
  {
    if !bar.JObj? then FailBar
    else
      match BarTime(bar.fields, parse)
      case None => FailBar
      case Some(time) =>
        match decide(time)
        case Skip => SkipBar
        case Raise => FailBar
        case Keep =>
          match HistoryRow(symbol, bar.fields)
          case None => FailBar
          case Some(row) => WriteBar(CandleKey(symbol, time), row)
  }

  /** A dict bar with a time the decision keeps and all its prices is
      written under (symbol, time). */
  lemma ActWrites(bar: Json, symbol: string, decide: Instant -> Decision, parse: string -> Option<Instant>)
    requires bar.JObj? && BarTime(bar.fields, parse).Some? && HistoryRow(symbol, bar.fields).Some?
    requires decide(BarTime(bar.fields, parse).value) == Keep
    ensures Act(bar, symbol, decide, parse)
              == WriteBar(CandleKey(symbol, BarTime(bar.fields, parse).value), HistoryRow(symbol, bar.fields).value)
  {
  }

  /** The rows the loop upserts, in order, and whether an exception ended it
      early (the rows upserted before it stay written). */
  function Plan(bars: seq<Json>, symbol: string, decide: Instant -> Decision, parse: string -> Option<Instant>)
    : (r: (seq<(CandleKey, Dict)>, bool))
    ensures forall j :: 0 <= j < |r.0| ==> r.0[j].0.symbol == symbol && decide(r.0[j].0.time) == Keep
    ensures |r.0| <= |bars|
  {
    if bars == [] then ([], false)
    else
      var prev := Plan(bars[..|bars| - 1], symbol, decide, parse);
      if prev.1 then prev
      else
        match Act(bars[|bars| - 1], symbol, decide, parse)
        case SkipBar => prev
        case FailBar => (prev.0, true)
        case WriteBar(k, row) => (prev.0 + [(k, row)], false)
  }

  /** The plan of one more bar. */
  lemma PlanNext(bars: seq<Json>, i: nat, symbol: string, decide: Instant -> Decision, parse: string -> Option<Instant>)
    requires i < |bars|
    ensures var prev := Plan(bars[..i], symbol, decide, parse);
            Plan(bars[..i + 1], symbol, decide, parse) ==
              if prev.1 then prev
              else match Act(bars[i], symbol, decide, parse)
                   case SkipBar => prev
                   case FailBar => (prev.0, true)
                   case WriteBar(k, row) => (prev.0 + [(k, row)], false)
  {
    assert bars[..i + 1][..i] == bars[..i];
  }

  /** The plan of a history of one bar. */
  lemma PlanSingle(bar: Json, symbol: string, decide: Instant -> Decision, parse: string -> Option<Instant>)
    ensures Plan([bar], symbol, decide, parse) ==
              match Act(bar, symbol, decide, parse)
              case SkipBar => ([], false)
              case FailBar => ([], true)
              case WriteBar(k, row) => ([(k, row)], false)
  {
    assert [bar][..0] == [] && [bar][0] == bar;
    assert Plan([], symbol, decide, parse) == ([], false);
    var a := Act(bar, symbol, decide, parse);
    if a.WriteBar? {
      assert [] + [(a.key, a.row)] == [(a.key, a.row)];
    }
  }

  /** Once the loop has stopped, later bars change nothing. */
  lemma {:induction false} PlanStopped(bars: seq<Json>, i: nat, symbol: string, decide: Instant -> Decision,
                                        parse: string -> Option<Instant>)
    requires i <= |bars|
    requires Plan(bars[..i], symbol, decide, parse).1
    ensures Plan(bars, symbol, decide, parse) == Plan(bars[..i], symbol, decide, parse)
    decreases |bars|
  {
    if i < |bars| {
      var n := |bars| - 1;
      assert bars[..n][..i] == bars[..i];
      PlanStopped(bars[..n], i, symbol, decide, parse);
    } else {
      assert bars[..i] == bars;
    }
  }

  /** A history with no bar the decision keeps writes nothing. */
  lemma {:induction false} NothingKeptNothingWritten(bars: seq<Json>, symbol: string, decide: Instant -> Decision,
                                                      parse: string -> Option<Instant>)
    requires forall t :: decide(t) != Keep
    ensures Plan(bars, symbol, decide, parse).0 == []
  {
    if bars != [] {
      NothingKeptNothingWritten(bars[..|bars| - 1], symbol, decide, parse);
    }
  }

  /** Without failures the loop writes exactly the bars the decision keeps,
      in history order: a bar kept by the decision is among the rows. */
  lemma {:induction false} KeptBarWritten(bars: seq<Json>, j: nat, symbol: string, decide: Instant -> Decision,
                                           parse: string -> Option<Instant>)
    requires j < |bars| && !Plan(bars, symbol, decide, parse).1
    requires Act(bars[j], symbol, decide, parse).WriteBar?
    ensures (Act(bars[j], symbol, decide, parse).key, Act(bars[j], symbol, decide, parse).row)
              in Plan(bars, symbol, decide, parse).0
    decreases |bars|
  {
    var n := |bars| - 1;
    PlanPrefix(bars, symbol, decide, parse);
    if j < n {
      assert bars[..n][j] == bars[j];
      KeptBarWritten(bars[..n], j, symbol, decide, parse);
      var x := (Act(bars[j], symbol, decide, parse).key, Act(bars[j], symbol, decide, parse).row);
      var p := Plan(bars[..n], symbol, decide, parse).0;
      var i :| 0 <= i < |p| && p[i] == x;
      assert Plan(bars, symbol, decide, parse).0[i] == x;
    }
  }

  /** A run that did not fail did not fail on the bars before the last one,
      and wrote their rows first. */
  lemma PlanPrefix(bars: seq<Json>, symbol: string, decide: Instant -> Decision, parse: string -> Option<Instant>)
    requires bars != [] && !Plan(bars, symbol, decide, parse).1
    ensures var prev := Plan(bars[..|bars| - 1], symbol, decide, parse);
            !prev.1 && prev.0 <= Plan(bars, symbol, decide, parse).0
  {
  }

  /** Running the same update again over the same history, at the same
      moment, leaves the table as the first run left it. */
  lemma RerunUnchanged(t: CandleTable, bars: seq<Json>, symbol: string, decide: Instant -> Decision,
                       parse: string -> Option<Instant>)
    ensures var rows := Plan(bars, symbol, decide, parse).0;
            KeyedTable.UpsertAll(KeyedTable.UpsertAll(t, rows), rows) == KeyedTable.UpsertAll(t, rows)
  {
    KeyedTable.UpsertAllIdempotent(t, Plan(bars, symbol, decide, parse).0);
  }

  /** The loop of both updaters over a truthy history: walks the bars in
      order and upserts each written one, stopping at the first exception. */
  method WalkHistory(history: Json, symbol: string, decide: Instant -> Decision, parse: string -> Option<Instant>,
                     t: CandleTable) returns (ok: bool, t': CandleTable)
    ensures history.JList? ==> ok == !Plan(history.items, symbol, decide, parse).1
                               && t' == KeyedTable.UpsertAll(t, Plan(history.items, symbol, decide, parse).0)
    ensures !history.JList? ==> !ok && t' == t
  {
    t' := t;
    if !history.JList? {
      // iterating a dict or a string yields strings, and `bar["date"]` on a
      // string raises
      return false, t';
    }
    var bars := history.items;
    var i := 0;
    while i < |bars|
      invariant 0 <= i <= |bars|
      invariant !Plan(bars[..i], symbol, decide, parse).1
      invariant t' == KeyedTable.UpsertAll(t, Plan(bars[..i], symbol, decide, parse).0)
    {
      PlanNext(bars, i, symbol, decide, parse);
      var rows := Plan(bars[..i], symbol, decide, parse).0;
      match Act(bars[i], symbol, decide, parse) {
        case SkipBar =>
        case FailBar =>
          PlanStopped(bars, i + 1, symbol, decide, parse);
          return false, t';
        case WriteBar(k, row) =>
          KeyedTable.UpsertAllSnoc(t, rows, k, row);
          t' := KeyedTable.Upsert(t', k, row);
      }
      i := i + 1;
    }
    assert bars[..i] == bars;
    ok := true;
  }
}
