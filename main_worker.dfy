// The real-time loop (saifan_main_worker.py): while the US market is open,
// every tick runs the live SPY quote builder, and an error in a tick is
// reported and does not stop the loop.

module MainWorker {
  import opened Base
  import opened Clock
  import opened Candles
  import SpyLive

  const MarketOpen: int := 14 * 60 + 30
  const MarketClose: int := 21 * 60

  /** `is_us_market_open()` at UTC clock reading `now`: Monday to Friday,
      14:30 to 21:00 UTC, both ends included. */
  function IsUsMarketOpen(now: Instant): (open: bool)
    requires now.Valid()
    ensures open <==> Weekday(now.day) <= 4 && MarketOpen <= now.minute <= MarketClose
  {
    if Weekday(now.day) > 4 then false
    else
      var current := now.Hour() * 60 + now.MinuteOfHour();
      MarketOpen <= current <= MarketClose
  }

  /** The same hours read on the clock face: from 14:30 up to 21:00 exactly. */
  lemma MarketHoursOnClock(now: Instant)
    requires now.Valid()
    ensures IsUsMarketOpen(now) <==>
              && Weekday(now.day) <= 4
              && (now.Hour() > 14 || (now.Hour() == 14 && now.MinuteOfHour() >= 30))
              && (now.Hour() < 21 || (now.Hour() == 21 && now.MinuteOfHour() == 0))
  {
  }

  /** On a weekday 14:30 and 21:00 are open, 14:29 and 21:01 closed; a
      weekend day is closed all day. */
  lemma Boundaries(day: int)
    ensures Weekday(day) <= 4 ==> IsUsMarketOpen(Instant(day, 14 * 60 + 30, 0, 0))
    ensures Weekday(day) <= 4 ==> IsUsMarketOpen(Instant(day, 21 * 60, 59, 999999))
    ensures !IsUsMarketOpen(Instant(day, 14 * 60 + 29, 59, 999999))
    ensures !IsUsMarketOpen(Instant(day, 21 * 60 + 1, 0, 0))
    ensures Weekday(day) > 4 ==> forall m :: 0 <= m < MinutesPerDay ==> !IsUsMarketOpen(Instant(day, m, 0, 0))
  {
  }

  /** One tick of `run_saifan_loop` with the UTC and New York readings of the
      same moment: the builder runs only while the market is open, and an
      exception it raises is caught, leaving the table as it was. */
  function Tick(nowUtc: Instant, nowNy: Instant, fetched: Result<Json>, t: CandleTable): (r: CandleTable)
    requires nowUtc.Valid() && nowNy.Valid()
    ensures !IsUsMarketOpen(nowUtc) ==> r == t
    ensures IsUsMarketOpen(nowUtc) && SpyLive.RunCycle(fetched, nowNy, t).Ok? ==> r == SpyLive.RunCycle(fetched, nowNy, t).value
    ensures SpyLive.RunCycle(fetched, nowNy, t).Err? ==> r == t
  {
    if !IsUsMarketOpen(nowUtc) then t
    else
      match SpyLive.RunCycle(fetched, nowNy, t)
      case Ok(t') => t'
      case Err(_) => t
  }
}
