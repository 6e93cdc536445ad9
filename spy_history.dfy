// The SPY official-history overwrite (saifan_02_spy_5m_history_update.py):
// upsert today's finished 5-minute bars from the official history, leaving
// the bar still being formed to the live builder.

module SpyHistoryUpdate {
  import opened Base
  import opened Clock
  import opened Candles
  import opened CandleHistory
  import KeyedTable

  /** The intended test of the loop body, with the bar time and the New York
      clock reading on one clock: bars of other days are skipped, and so is
      every bar at or after the candle now being formed. */
  function Decide(now: Instant, time: Instant): (d: Decision)
    requires now.Valid()
    ensures d != Raise
    ensures d == Keep <==> time.day == now.day && Ord(time) < Ord(Round5(now))
  {
    if time.day != now.day then Skip
    else if Ord(time) >= Ord(Round5(now)) then Skip
    else Keep
  }

  /** The test as written: the bar time is naive and the rounded clock reading
      is aware, so `bar_time >= rounded` raises `TypeError` for the first bar
      of today. */
  function AsWrittenDecide(now: Instant, time: Instant): (d: Decision)
    ensures d != Keep
    ensures d == Raise <==> time.day == now.day
  {
    if time.day != now.day then Skip else Raise
  }

  /** The decision with the clock reading fixed. */
  function Decider(now: Instant): Instant -> Decision
    requires now.Valid()
  {
    time => Decide(now, time)
  }

  function AsWrittenDecider(now: Instant): Instant -> Decision
  {
    time => AsWrittenDecide(now, time)
  }

  /** `run_history_update()` at New York clock reading `now`, given the
      response status and body. */
  method RunHistoryUpdate(status: int, body: Json, now: Instant, parse: string -> Option<Instant>, t: CandleTable)
    returns (ok: bool, t': CandleTable)
    requires now.Valid()
    ensures History(status, body).None? ==> ok && t' == t
    ensures History(status, body).Some? && !body.JList? ==> !ok && t' == t
    ensures History(status, body).Some? && body.JList? ==>
              var plan := Plan(body.items, "SPY", Decider(now), parse);
              ok == !plan.1 && t' == KeyedTable.UpsertAll(t, plan.0)
  {
    var history := History(status, body);
    if history.None? {
      return true, t;
    }
    ok, t' := WalkHistory(history.value, "SPY", Decider(now), parse, t);
  }

  /** Every row written is a SPY bar of today that ended before the candle
      being formed, so the live bar is never overwritten. */
  lemma WrittenBarsAreFinished(bars: seq<Json>, now: Instant, parse: string -> Option<Instant>)
    requires now.Valid()
    ensures var rows := Plan(bars, "SPY", Decider(now), parse).0;
            forall j :: 0 <= j < |rows| ==>
              rows[j].0.symbol == "SPY" && rows[j].0.time.day == now.day && Ord(rows[j].0.time) < Ord(Round5(now))
  {
    var rows := Plan(bars, "SPY", Decider(now), parse).0;
    forall j | 0 <= j < |rows|
      ensures rows[j].0.time.day == now.day && Ord(rows[j].0.time) < Ord(Round5(now))
    {
      assert Decide(now, rows[j].0.time) == Keep;
    }
  }

  /** As written, no bar is ever written: the loop either skips every bar or
      stops at the first bar of today. */
  lemma AsWrittenWritesNothing(bars: seq<Json>, now: Instant, parse: string -> Option<Instant>)
    ensures Plan(bars, "SPY", AsWrittenDecider(now), parse).0 == []
  {
    NothingKeptNothingWritten(bars, "SPY", AsWrittenDecider(now), parse);
  }

  /** A history whose only bar is a complete finished bar of today: as
      written the update raises and writes nothing; the intended update
      writes that bar. */
  lemma OneFinishedBar(now: Instant, prices: Dict, parse: string -> Option<Instant>)
    requires now.Valid() && BarTime(prices, parse).Some? && HistoryRow("SPY", prices).Some?
    requires BarTime(prices, parse).value.day == now.day
    requires Ord(BarTime(prices, parse).value) < Ord(Round5(now))
    ensures Plan([JObj(prices)], "SPY", AsWrittenDecider(now), parse) == ([], true)
    ensures Plan([JObj(prices)], "SPY", Decider(now), parse) ==
              ([(CandleKey("SPY", BarTime(prices, parse).value), HistoryRow("SPY", prices).value)], false)
  {
    PlanSingle(JObj(prices), "SPY", Decider(now), parse);
    PlanSingle(JObj(prices), "SPY", AsWrittenDecider(now), parse);
    var t := BarTime(prices, parse).value;
    assert Decide(now, t) == Keep;
    assert Act(JObj(prices), "SPY", Decider(now), parse) ==
             WriteBar(CandleKey("SPY", t), HistoryRow("SPY", prices).value);
  }

  /** The bar of 10:00 read at 15:00 the same day. */
  lemma AsWrittenCounterexample()
    ensures Plan([JObj(SampleBar("2024-10-04 10:00:00"))], "SPY", AsWrittenDecider(Instant(20000, 900, 0, 0)),
                 ReadsAs(Instant(20000, 600, 0, 0))) == ([], true)
    ensures Plan([JObj(SampleBar("2024-10-04 10:00:00"))], "SPY", Decider(Instant(20000, 900, 0, 0)),
                 ReadsAs(Instant(20000, 600, 0, 0))).0 != []
  {
    var bar := Instant(20000, 600, 0, 0);
    assert BarTime(SampleBar("2024-10-04 10:00:00"), ReadsAs(bar)) == Some(bar);
    BeforeCandle(bar, Instant(20000, 900, 0, 0));
    OneFinishedBar(Instant(20000, 900, 0, 0), SampleBar("2024-10-04 10:00:00"), ReadsAs(bar));
  }
}
