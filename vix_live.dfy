// The live VIX 5-minute bar builder (saifan_03_vix_live_5min_quote_builder.py).
// The module keeps the bar being formed and its candle time in two globals;
// each cycle reads one quote, widens the bar while the 5-minute bucket stays
// the same, and when the bucket changes writes the finished bar and starts a
// new one. The bar being formed is never written.

module VixLive {
  import opened Base
  import opened Text
  import opened Clock
  import opened Candles
  import KeyedTable

  /** `live_bar`: open, high, low and close are `None` (here `JNull`) until a
      first quote, and afterwards hold the quoted price values as they came. */
  datatype Bar = Bar(open: Json, high: Json, low: Json, close: Json, volume: int)

  const EmptyBar: Bar := Bar(JNull, JNull, JNull, JNull, 0)

  /** The bar `start_new_bar` seeds from one price. */
  function Fresh(price: Json): Bar
  {
    Bar(price, price, price, price, 0)
  }

  /** The two globals together. */
  datatype State = State(bar: Bar, current: Option<Instant>)

  const Initial: State := State(EmptyBar, None)

  /** Python's `a < b` on two price values: numbers (a bool counting as 0 or
      1) by value, strings by code points; any other pair raises TypeError. */
  function Lt(a: Json, b: Json): (r: Result<bool>)
    ensures r.Ok? <==> (IsNumber(a) && IsNumber(b)) || (a.JStr? && b.JStr?)
    ensures r.Ok? && IsNumber(a) ==> r.value == (AsReal(a) < AsReal(b))
    ensures r.Ok? && a.JStr? ==> r.value == LexLt(a.s, b.s)
  {
    if IsNumber(a) && IsNumber(b) then Ok(AsReal(a) < AsReal(b))
    else if a.JStr? && b.JStr? then Ok(LexLt(a.s, b.s))
    else Err("TypeError")
  }

  /** `max(a, b)`: `b` when `b > a`, else `a`; the comparison may raise. */
  function Max(a: Json, b: Json): (r: Result<Json>)
    ensures r.Ok? <==> Lt(a, b).Ok?
    ensures r.Ok? ==> r.value == a || r.value == b
    ensures r.Ok? && IsNumber(a) ==> AsReal(a) <= AsReal(r.value) && AsReal(b) <= AsReal(r.value)
    ensures r.Ok? && a.JStr? ==> LexLe(a.s, r.value.s) && LexLe(b.s, r.value.s)
  {
    match Lt(a, b)
    case Err(e) => Err(e)
    case Ok(up) =>
      if a.JStr? then LexLeTotal(b.s, a.s); Ok(if up then b else a)
      else Ok(if up then b else a)
  }

  /** `min(a, b)`: `b` when `b < a`, else `a`; the comparison may raise. */
  function Min(a: Json, b: Json): (r: Result<Json>)
    ensures r.Ok? <==> Lt(b, a).Ok?
    ensures r.Ok? ==> r.value == a || r.value == b
    ensures r.Ok? && IsNumber(a) ==> AsReal(r.value) <= AsReal(a) && AsReal(r.value) <= AsReal(b)
    ensures r.Ok? && a.JStr? ==> LexLe(r.value.s, a.s) && LexLe(r.value.s, b.s)
  {
    match Lt(b, a)
    case Err(e) => Err(e)
    case Ok(down) =>
      if a.JStr? then LexLeTotal(a.s, b.s); Ok(if down then b else a)
      else Ok(if down then b else a)
  }

  /** All four prices of a bar are one value: the bar as `start_new_bar`
      left it. */
  predicate Single(b: Bar)
  {
    b.high == b.open && b.low == b.open && b.close == b.open
  }

  predicate NumbersInOrder(b: Bar)
  {
    && IsNumber(b.open) && IsNumber(b.high) && IsNumber(b.low) && IsNumber(b.close)
    && AsReal(b.low) <= AsReal(b.open) <= AsReal(b.high)
    && AsReal(b.low) <= AsReal(b.close) <= AsReal(b.high)
  }

  predicate StringsInOrder(b: Bar)
  {
    && b.open.JStr? && b.high.JStr? && b.low.JStr? && b.close.JStr?
    && LexLe(b.low.s, b.open.s) && LexLe(b.open.s, b.high.s)
    && LexLe(b.low.s, b.close.s) && LexLe(b.close.s, b.high.s)
  }

  /** A started bar has all four prices, and its volume is never anything
      but 0; it is either one price of any kind, or numbers or strings with
      open and close between low and high. */
  predicate Ordered(b: Bar)
  {
    && b.open != JNull && b.high != JNull && b.low != JNull && b.close != JNull
    && b.volume == 0
    && (Single(b) || NumbersInOrder(b) || StringsInOrder(b))
  }

  /** What holds of the globals between cycles. */
  predicate StateOk(s: State)
  {
    (s.current.None? ==> s.bar == EmptyBar) && (s.current.Some? ==> Ordered(s.bar))
  }

  /** `fetch_vix_quote` given the response status and body: `None` (here
      `JNull`) for a non-200 status or an empty body, else the first record;
      indexing a body that is not a list raises. */
  function FetchQuote(status: int, body: Json): (q: Result<Json>)
    ensures status != 200 || !Truthy(body) ==> q == Ok(JNull)
    ensures status == 200 && body.JList? && body.items != [] ==> q == Ok(body.items[0])
    ensures q.Err? <==> status == 200 && Truthy(body) && !body.JList?
  {
    if status != 200 || !Truthy(body) then Ok(JNull)
    else if body.JList? then Ok(body.items[0])
    else Err("data[0]")
  }

  /** `q.get("price")` of a truthy quote record: the price value as it is,
      `JNull` when absent or null; a record that is not a dict raises. */
  function QuotePrice(q: Json): (p: Result<Json>)
    ensures p.Err? <==> !q.JObj?
    ensures p.Ok? ==> p.value == Get(q.fields, "price")
    ensures p.Ok? && p.value != JNull ==> "price" in q.fields && p.value == q.fields["price"]
  {
    if !q.JObj? then Err("q.get") else Ok(Get(q.fields, "price"))
  }

  /** Lines 102-104: high becomes `max(high, price)`, low `min(low, price)`
      and close the price; a comparison that raises ends the cycle. */
  function Widen(b: Bar, p: Json): (r: Result<Bar>)
    ensures r.Ok? <==> Max(b.high, p).Ok? && Min(b.low, p).Ok?
    ensures r.Ok? ==> r.value.open == b.open && r.value.close == p && r.value.volume == b.volume
    ensures r.Ok? ==> r.value.high == Max(b.high, p).value && r.value.low == Min(b.low, p).value
  {
    match Max(b.high, p)
    case Err(e) => Err(e)
    case Ok(hi) =>
      match Min(b.low, p)
      case Err(e) => Err(e)
      case Ok(lo) => Ok(Bar(b.open, hi, lo, p, b.volume))
  }

  /** On a started bar, `min` cannot raise once `max` has not: high and low
      are of one kind. So an exception at line 102 or 103 always comes from
      `max`, before any field has changed. */
  lemma WidenRaisesOnlyAtMax(b: Bar, p: Json)
    requires Ordered(b)
    ensures Widen(b, p).Ok? <==> Max(b.high, p).Ok?
  {
  }

  /** Widening a started bar by a comparable price keeps it started and in
      order. */
  lemma WidenKeepsOrder(b: Bar, p: Json)
    requires Ordered(b) && Widen(b, p).Ok?
    ensures Ordered(Widen(b, p).value)
  {
    var w := Widen(b, p).value;
    if b.high.JStr? {
      assert p.JStr? && w.high.JStr? && w.low.JStr?;
      if Single(b) {
        LexLeTotal(b.open.s, p.s);
      } else {
        assert StringsInOrder(b);
        LexLeTransitive(b.open.s, b.high.s, w.high.s);
        LexLeTransitive(w.low.s, b.low.s, b.open.s);
      }
      assert StringsInOrder(w);
    }
  }

  /** The state machine of `run_vix_cycle` for one price value at candle
      time `candle`: the new globals and the finished bar written, if any,
      with its candle time, or the exception raised. */
  function Advance(s: State, candle: Instant, price: Json): (r: Result<(State, Option<(Instant, Bar)>)>)
    requires StateOk(s)
    ensures r.Ok? ==> StateOk(r.value.0)
    ensures price == JNull ==> r == Ok((s, None))
    ensures price != JNull && s.current != Some(candle) ==>
              r == Ok((State(Fresh(price), Some(candle)), if s.current.Some? then Some((s.current.value, s.bar)) else None))
    ensures price != JNull && s.current == Some(candle) ==>
              && (r.Ok? <==> Max(s.bar.high, price).Ok?)
              && (r.Ok? ==> r.value == (State(Widen(s.bar, price).value, s.current), None))
    ensures r.Ok? && r.value.1.Some? ==>
              s.current == Some(r.value.1.value.0) && r.value.1.value.0 != candle && r.value.1.value.1 == s.bar
  {
    if price == JNull then Ok((s, None))
    else if s.current != Some(candle) then
      Ok((State(Fresh(price), Some(candle)), if s.current.Some? then Some((s.current.value, s.bar)) else None))
    else
      var b := if s.bar.open == JNull then Fresh(price) else s.bar;
      WidenRaisesOnlyAtMax(b, price);
      match Widen(b, price)
      case Err(e) => Err(e)
      case Ok(b') => WidenKeepsOrder(b, price); Ok((State(b', s.current), None))
  }

  /** The row `save_bar_to_db` writes: symbol "VIX" and the bar's fields. */
  function BarRow(b: Bar): (row: Dict)
    ensures row.Keys == {"symbol", "open", "high", "low", "close", "volume"}
    ensures row["symbol"] == JStr("VIX") && row["volume"] == JInt(b.volume)
    ensures row["open"] == b.open && row["high"] == b.high && row["low"] == b.low && row["close"] == b.close
  {
    map["symbol" := JStr("VIX"), "open" := b.open, "high" := b.high,
        "low" := b.low, "close" := b.close, "volume" := JInt(b.volume)]
  }

  /** `save_bar_to_db(ts)`: an upsert on (symbol, candle_time). */
  function Save(t: CandleTable, ts: Instant, b: Bar): (r: CandleTable)
    ensures r.Keys == t.Keys + {CandleKey("VIX", ts)}
    ensures r[CandleKey("VIX", ts)] == (if CandleKey("VIX", ts) in t then t[CandleKey("VIX", ts)] else map[]) + BarRow(b)
    ensures forall k :: k in t && k != CandleKey("VIX", ts) ==> r[k] == t[k]
  {
    KeyedTable.Upsert(t, CandleKey("VIX", ts), BarRow(b))
  }

  /** Saving the same bar twice leaves the same single row as saving it once. */
  lemma SaveTwice(t: CandleTable, ts: Instant, b: Bar)
    ensures Save(Save(t, ts, b), ts, b) == Save(t, ts, b)
  {
    KeyedTable.UpsertTwice(t, CandleKey("VIX", ts), BarRow(b));
  }

  /** One `run_vix_cycle` given the globals, the clock and the fetch result,
      which is what `FetchQuote` makes of the response: the new globals and
      the new table, or the exception it raises (which leaves both
      unchanged). */
  function Cycle(s: State, now: Instant, fetched: Result<Json>, t: CandleTable): (r: Result<(State, CandleTable)>)
    requires StateOk(s) && now.Valid()
    ensures r.Ok? ==> StateOk(r.value.0)
    ensures fetched.Ok? && !Truthy(fetched.value) ==> r == Ok((s, t))
    ensures r.Err? <==> fetched.Err? || (Truthy(fetched.value) && QuotePrice(fetched.value).Err?)
                        || (&& Truthy(fetched.value) && QuotePrice(fetched.value).Ok?
                            && QuotePrice(fetched.value).value != JNull && s.current == Some(Round5(now))
                            && Max(s.bar.high, QuotePrice(fetched.value).value).Err?)
    ensures fetched.Ok? && Truthy(fetched.value) && QuotePrice(fetched.value).Ok? ==>
              var price := QuotePrice(fetched.value).value;
              price != JNull && s.current != Some(Round5(now)) ==>
                r == Ok((State(Fresh(price), Some(Round5(now))),
                         if s.current.Some? then Save(t, s.current.value, s.bar) else t))
  {
    match fetched
    case Err(e) => Err(e)
    case Ok(q) =>
      if !Truthy(q) then Ok((s, t))
      else
        match QuotePrice(q)
        case Err(e) => Err(e)
        case Ok(price) =>
          match Advance(s, Round5(now), price)
          case Err(e) => Err(e)
          case Ok((s', flushed)) =>
            Ok((s', if flushed.Some? then Save(t, flushed.value.0, flushed.value.1) else t))
  }

  /** The bar being formed never reaches the table: the row keyed on the
      current candle is left as it was, and the only row that can change is
      the one of the previous candle. */
  lemma FormingBarNotWritten(s: State, now: Instant, fetched: Result<Json>, t: CandleTable)
    requires StateOk(s) && now.Valid()
    requires Cycle(s, now, fetched, t).Ok?
    ensures var t' := Cycle(s, now, fetched, t).value.1;
            var live := CandleKey("VIX", Round5(now));
            && (live in t <==> live in t') && (live in t ==> t'[live] == t[live])
            && (forall k :: k in t' && k != live && (s.current.None? || k != CandleKey("VIX", s.current.value)) ==>
                  k in t && t'[k] == t[k])
  {
  }

  /** Every cycle inside one 5-minute window after the first keeps the same
      candle time and open price and writes nothing; the close is the price
      just read. */
  lemma SameWindowKeepsOpen(s: State, now: Instant, q: Json, t: CandleTable)
    requires StateOk(s) && now.Valid() && s.current == Some(Round5(now))
    requires Cycle(s, now, Ok(q), t).Ok?
    ensures Cycle(s, now, Ok(q), t).value.0.current == s.current
    ensures Cycle(s, now, Ok(q), t).value.0.bar.open == s.bar.open
    ensures Cycle(s, now, Ok(q), t).value.1 == t
    ensures Truthy(q) && Get(q.fields, "price") != JNull ==>
              Cycle(s, now, Ok(q), t).value.0.bar.close == Get(q.fields, "price")
  {
  }

  /** Inside one window, a bar of numbers stays numbers whose high and low
      bound every price read so far, the new one included. */
  lemma NumbersTrackExtremes(s: State, now: Instant, q: Json, t: CandleTable)
    requires StateOk(s) && now.Valid() && s.current == Some(Round5(now)) && IsNumber(s.bar.high)
    requires Truthy(q) && q.JObj? && Get(q.fields, "price") != JNull
    requires Cycle(s, now, Ok(q), t).Ok?
    ensures var b := Cycle(s, now, Ok(q), t).value.0.bar;
            var p := Get(q.fields, "price");
            && IsNumber(p) && NumbersInOrder(b)
            && AsReal(b.low) <= AsReal(p) <= AsReal(b.high)
            && AsReal(b.low) <= AsReal(s.bar.low) && AsReal(s.bar.high) <= AsReal(b.high)
  {
    var b := Cycle(s, now, Ok(q), t).value.0.bar;
    assert b == Widen(s.bar, Get(q.fields, "price")).value;
    assert IsNumber(s.bar.low) by {
      if !Single(s.bar) && StringsInOrder(s.bar) {
        assert s.bar.high.JStr?;
      }
    }
  }

  /** A price that cannot be compared with the bar's high (a string against
      numbers, a number against strings, a dict or a list) raises in the
      window's later cycles and changes nothing; on a new candle the same
      price starts the bar without any comparison. */
  lemma IncomparablePriceRaises(s: State, now: Instant, q: Json, t: CandleTable)
    requires StateOk(s) && now.Valid() && s.current == Some(Round5(now))
    requires Truthy(q) && q.JObj? && Get(q.fields, "price") != JNull
    requires IsNumber(s.bar.high) && !IsNumber(Get(q.fields, "price"))
    ensures Cycle(s, now, Ok(q), t).Err?
  {
  }

  /** A quote that is missing, falsy, or has no price changes nothing. */
  lemma NoPriceNoChange(s: State, now: Instant, q: Json, t: CandleTable)
    requires StateOk(s) && now.Valid()
    requires !Truthy(q) || (q.JObj? && Get(q.fields, "price") == JNull)
    ensures Cycle(s, now, Ok(q), t) == Ok((s, t))
  {
  }

  /** A new candle writes the previous bar, as it stands, under the previous
      candle time, leaves every other row alone, and starts a fresh bar from
      the price whatever its kind. */
  lemma NewCandleWritesPreviousBar(s: State, now: Instant, q: Json, t: CandleTable)
    requires StateOk(s) && now.Valid() && s.current.Some? && s.current != Some(Round5(now))
    requires Truthy(q) && q.JObj? && Get(q.fields, "price") != JNull
    ensures var r := Cycle(s, now, Ok(q), t);
            var prev := CandleKey("VIX", s.current.value);
            && r.Ok? && r.value.0 == State(Fresh(Get(q.fields, "price")), Some(Round5(now)))
            && prev in r.value.1
            && r.value.1[prev]["symbol"] == JStr("VIX") && r.value.1[prev]["volume"] == JInt(0)
            && r.value.1[prev]["open"] == s.bar.open && r.value.1[prev]["high"] == s.bar.high
            && r.value.1[prev]["low"] == s.bar.low && r.value.1[prev]["close"] == s.bar.close
            && (forall k :: k in t && k != prev ==> k in r.value.1 && r.value.1[k] == t[k])
  {
  }

  /** The module's two globals, updated in place by the cycle. */
  class Builder {
    var open: Json
    var high: Json
    var low: Json
    var close: Json
    var volume: int
    var currentCandleTime: Option<Instant>

    function LiveBar(): Bar
      reads this
    {
      Bar(open, high, low, close, volume)
    }

    function Globals(): State
      reads this
    {
      State(LiveBar(), currentCandleTime)
    }

    predicate Valid()
      reads this
    {
      StateOk(Globals())
    }

    /** The globals at import: an empty bar and no candle time. */
    constructor ()
      ensures Valid() && Globals() == Initial
    {
      open, high, low, close, volume := JNull, JNull, JNull, JNull, 0;
      currentCandleTime := None;
    }

    /** `start_new_bar(price, ts)`. */
    method StartNewBar(price: Json, ts: Instant)
      modifies this
      ensures Globals() == State(Fresh(price), Some(ts))
    {
      currentCandleTime := Some(ts);
      open, high, low, close, volume := price, price, price, price, 0;
    }

    /** `save_bar_to_db(ts)`: writes the current bar under `ts`. */
    method SaveBarToDb(ts: Instant, t: CandleTable) returns (t': CandleTable)
      ensures t' == Save(t, ts, LiveBar())
    {
      t' := KeyedTable.Upsert(t, CandleKey("VIX", ts), BarRow(LiveBar()));
    }

    /** `run_vix_cycle()` at clock reading `now` with the fetch result
        `fetched`, against table `t`. */
    method RunVixCycle(now: Instant, fetched: Result<Json>, t: CandleTable) returns (r: Result<CandleTable>)
      requires Valid() && now.Valid()
      modifies this
      ensures Valid()
      ensures var c := Cycle(old(Globals()), now, fetched, t);
              (r.Ok? <==> c.Ok?)
              && (c.Ok? ==> Globals() == c.value.0 && r.value == c.value.1)
              && (c.Err? ==> Globals() == old(Globals()))
    {
      var candleTs := Round5(now);
      if fetched.Err? {
        return Err(fetched.msg);
      }
      var q := fetched.value;
      if !Truthy(q) {
        return Ok(t);
      }
      var price := QuotePrice(q);
      if price.Err? {
        return Err(price.msg);
      }
      var p := price.value;
      if p == JNull {
        return Ok(t);
      }
      if currentCandleTime != Some(candleTs) {
        var t' := t;
        if currentCandleTime.Some? {
          t' := SaveBarToDb(currentCandleTime.value, t);
        }
        StartNewBar(p, candleTs);
        return Ok(t');
      }
      // The source restarts the bar here when its open is None; with a
      // current candle time the bar is always started (Valid), so that
      // branch cannot run.
      if open == JNull {
        assert false;
      }
      var hi := Max(high, p);
      if hi.Err? {
        return Err(hi.msg);
      }
      WidenRaisesOnlyAtMax(LiveBar(), p);
      WidenKeepsOrder(LiveBar(), p);
      high := hi.value;
      low := Min(low, p).value;
      close := p;
      return Ok(t);
    }
  }
}
