// The VIX official-history overwrite (saifan_04_vix_5m_history_update.py):
// upsert today's 5-minute bars from the official history, skipping only the
// bar of the candle now being formed.

module VixHistoryUpdate {
  import opened Base
  import opened Clock
  import opened Candles
  import opened CandleHistory
  import KeyedTable

  /** The intended test of the loop body, on one clock: bars of other days are
      skipped, and so is the bar of the current candle; bars timed after it
      are still written. */
  function Decide(now: Instant, time: Instant): (d: Decision)
    requires now.Valid()
    ensures d != Raise
    ensures d == Keep <==> time.day == now.day && time != Round5(now)
  {
    if time.day != now.day then Skip
    else if time == Round5(now) then Skip
    else Keep
  }

  /** The test as written: a naive bar time never equals the aware rounded
      clock reading, so `bar_time == rounded` is always false and nothing of
      today is skipped. */
  function AsWrittenDecide(now: Instant, time: Instant): (d: Decision)
    ensures d != Raise
    ensures d == Keep <==> time.day == now.day
  {
    if time.day != now.day then Skip else Keep
  }

  /** The decision with the clock reading fixed. */
  function Decider(now: Instant): Instant -> Decision
    requires now.Valid()
  {
    time => Decide(now, time)
  }

  function AsWrittenDecider(now: Instant): Instant -> Decision
  {
    time => AsWrittenDecide(now, time)
  }

  /** `run_vix_history_update()` at New York clock reading `now`, given the
      response status and body. */
  method RunVixHistoryUpdate(status: int, body: Json, now: Instant, parse: string -> Option<Instant>, t: CandleTable)
    returns (ok: bool, t': CandleTable)
    requires now.Valid()
    ensures History(status, body).None? ==> ok && t' == t
    ensures History(status, body).Some? && !body.JList? ==> !ok && t' == t
    ensures History(status, body).Some? && body.JList? ==>
              var plan := Plan(body.items, "VIX", Decider(now), parse);
              ok == !plan.1 && t' == KeyedTable.UpsertAll(t, plan.0)
  {
    var history := History(status, body);
    if history.None? {
      return true, t;
    }
    ok, t' := WalkHistory(history.value, "VIX", Decider(now), parse, t);
  }

  /** Every row written is a VIX bar of today other than the current candle. */
  lemma WrittenBarsSkipLive(bars: seq<Json>, now: Instant, parse: string -> Option<Instant>)
    requires now.Valid()
    ensures var rows := Plan(bars, "VIX", Decider(now), parse).0;
            forall j :: 0 <= j < |rows| ==>
              rows[j].0.symbol == "VIX" && rows[j].0.time.day == now.day && rows[j].0.time != Round5(now)
  {
    var rows := Plan(bars, "VIX", Decider(now), parse).0;
    forall j | 0 <= j < |rows|
      ensures rows[j].0.time.day == now.day && rows[j].0.time != Round5(now)
    {
      assert Decide(now, rows[j].0.time) == Keep;
    }
  }

  /** A complete bar of today timed after the current candle is written when
      the loop runs to the end. */
  lemma LaterBarWritten(bars: seq<Json>, j: nat, now: Instant, parse: string -> Option<Instant>)
    requires now.Valid() && j < |bars|
    requires !Plan(bars, "VIX", Decider(now), parse).1
    requires bars[j].JObj? && BarTime(bars[j].fields, parse).Some?
    requires HistoryRow("VIX", bars[j].fields).Some?
    requires BarTime(bars[j].fields, parse).value.day == now.day
    requires Ord(BarTime(bars[j].fields, parse).value) > Ord(Round5(now))
    ensures (CandleKey("VIX", BarTime(bars[j].fields, parse).value), HistoryRow("VIX", bars[j].fields).value)
              in Plan(bars, "VIX", Decider(now), parse).0
  {
    var t := BarTime(bars[j].fields, parse).value;
    assert Ord(t) != Ord(Round5(now));
    assert Decider(now)(t) == Keep;
    ActWrites(bars[j], "VIX", Decider(now), parse);
    KeptBarWritten(bars, j, "VIX", Decider(now), parse);
  }

  /** A history whose only bar is a complete bar of the current candle: as
      written that bar is written over the live one; the intended update
      writes nothing. */
  lemma OneLiveBar(now: Instant, prices: Dict, parse: string -> Option<Instant>)
    requires now.Valid() && BarTime(prices, parse) == Some(Round5(now)) && HistoryRow("VIX", prices).Some?
    ensures Plan([JObj(prices)], "VIX", AsWrittenDecider(now), parse) ==
              ([(CandleKey("VIX", Round5(now)), HistoryRow("VIX", prices).value)], false)
    ensures Plan([JObj(prices)], "VIX", Decider(now), parse) == ([], false)
  {
    PlanSingle(JObj(prices), "VIX", Decider(now), parse);
    PlanSingle(JObj(prices), "VIX", AsWrittenDecider(now), parse);
    assert AsWrittenDecide(now, Round5(now)) == Keep;
  }

  /** The bar of 15:00 read at 15:02 the same day. */
  lemma AsWrittenCounterexample()
    ensures Plan([JObj(SampleBar("2024-10-04 15:00:00"))], "VIX", AsWrittenDecider(Instant(20000, 902, 0, 0)),
                 ReadsAs(Instant(20000, 900, 0, 0))).0 ==
              [(CandleKey("VIX", Instant(20000, 900, 0, 0)), HistoryRow("VIX", SampleBar("2024-10-04 15:00:00")).value)]
    ensures Plan([JObj(SampleBar("2024-10-04 15:00:00"))], "VIX", Decider(Instant(20000, 902, 0, 0)),
                 ReadsAs(Instant(20000, 900, 0, 0))) == ([], false)
  {
    var live := Instant(20000, 900, 0, 0);
    CandleStart(Instant(20000, 902, 0, 0), 900);
    assert BarTime(SampleBar("2024-10-04 15:00:00"), ReadsAs(live)) == Some(live);
    OneLiveBar(Instant(20000, 902, 0, 0), SampleBar("2024-10-04 15:00:00"), ReadsAs(live));
  }
}
