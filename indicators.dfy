// The indicator step of the SPY 5-minute candle table (saifan_01_spy.py,
// compute_indicators): typical price, cumulative VWAP, EMA12, EMA26, MACD,
// its 9-period signal and the histogram, each computed from the new bar and
// the previous stored row only.

module Indicators {
  import opened Base

  const Alpha12: real := 2.0 / 13.0
  const Alpha26: real := 2.0 / 27.0
  const Alpha9: real := 2.0 / 10.0

  /** The prices and volume of one bar, after `float()`. */
  datatype BarPrices = BarPrices(high: real, low: real, close: real, volume: real)

  /** The indicator columns of the previous row that the step carries on. */
  datatype Carry = Carry(cumulativePv: real, cumulativeVol: real, ema12: real, ema26: real, signal: real)

  /** The nine indicator columns of a stored row. */
  datatype Indicators = Indicators(
    typicalPrice: real, cumulativePv: real, cumulativeVol: real, vwap: real,
    ema12: real, ema26: real, macd: real, macdSignal: real, macdHist: real)

  function TypicalPrice(b: BarPrices): real
  {
    (b.high + b.low + b.close) / 3.0
  }

  /** With no previous row: empty accumulators, both EMAs at the close and a
      zero signal. */
  function Seed(b: BarPrices): Carry
  {
    Carry(0.0, 0.0, b.close, b.close, 0.0)
  }

  /** What the next step reads back from a stored row. */
  function CarryOf(r: Indicators): Carry
  {
    Carry(r.cumulativePv, r.cumulativeVol, r.ema12, r.ema26, r.macdSignal)
  }

  function Min(a: real, b: real): real
  {
    if a <= b then a else b
  }

  function Max(a: real, b: real): real
  {
    if a <= b then b else a
  }

  /** One indicator step. */
  function Step(b: BarPrices, c: Carry): Indicators
  {
    var tp := TypicalPrice(b);
    var pv := c.cumulativePv + tp * b.volume;
    var vol := c.cumulativeVol + b.volume;
    var vwap := if vol > 0.0 then pv / vol else tp;
    var ema12 := c.ema12 + Alpha12 * (b.close - c.ema12);
    var ema26 := c.ema26 + Alpha26 * (b.close - c.ema26);
    var macd := ema12 - ema26;
    var signal := c.signal + Alpha9 * (macd - c.signal);
    Indicators(tp, pv, vol, vwap, ema12, ema26, macd, signal, macd - signal)
  }

  /** The step's columns: the accumulators grow by the bar, the VWAP falls
      back to the typical price without volume, each EMA and the signal
      stay between their previous value and their target, and MACD and
      histogram are the differences. */
  lemma StepColumns(b: BarPrices, c: Carry)
    ensures var r := Step(b, c);
      && r.typicalPrice == TypicalPrice(b)
      && r.cumulativeVol == c.cumulativeVol + b.volume
      && r.cumulativePv == c.cumulativePv + r.typicalPrice * b.volume
      && (r.cumulativeVol <= 0.0 ==> r.vwap == r.typicalPrice)
      && Min(c.ema12, b.close) <= r.ema12 <= Max(c.ema12, b.close)
      && Min(c.ema26, b.close) <= r.ema26 <= Max(c.ema26, b.close)
      && r.macd == r.ema12 - r.ema26
      && Min(c.signal, r.macd) <= r.macdSignal <= Max(c.signal, r.macd)
      && r.macdHist == r.macd - r.macdSignal
  {
  }

  /** A positive total volume makes the VWAP the ratio of the two
      accumulators. */
  lemma VwapIsRatio(b: BarPrices, c: Carry)
    ensures Step(b, c).cumulativeVol > 0.0 ==>
              Step(b, c).vwap * Step(b, c).cumulativeVol == Step(b, c).cumulativePv
  {
  }

  /** An EMA step moves exactly its fraction of the way toward the close. */
  lemma EmaMovesByAlpha(b: BarPrices, c: Carry)
    ensures Step(b, c).ema12 - c.ema12 == Alpha12 * (b.close - c.ema12)
    ensures Step(b, c).ema26 - c.ema26 == Alpha26 * (b.close - c.ema26)
    ensures Step(b, c).macdSignal - c.signal == Alpha9 * (Step(b, c).macd - c.signal)
  {
  }

  /** The first bar of a session: MACD, signal and histogram are zero, and
      the VWAP is the typical price whichever branch computes it. */
  lemma FirstRow(b: BarPrices)
    ensures Step(b, Seed(b)).ema12 == b.close && Step(b, Seed(b)).ema26 == b.close
    ensures Step(b, Seed(b)).macd == 0.0 && Step(b, Seed(b)).macdSignal == 0.0
    ensures Step(b, Seed(b)).macdHist == 0.0
    ensures Step(b, Seed(b)).vwap == TypicalPrice(b)
  {
    var r := Step(b, Seed(b));
    VwapIsRatio(b, Seed(b));
    if b.volume > 0.0 {
      assert r.cumulativePv == TypicalPrice(b) * b.volume;
      assert r.vwap * b.volume == TypicalPrice(b) * b.volume;
      CancelFactor(r.vwap, TypicalPrice(b), b.volume);
    }
  }

  lemma CancelFactor(x: real, y: real, v: real)
    requires v != 0.0 && x * v == y * v
    ensures x == y
  {
    assert (x - y) * v == 0.0;
  }

  // ------------------------------------------------------------- sessions

  /** The rows a run of cycles stores for a session of distinct bars: the
      first seeded, each later one carried from the row before it. */
  function Session(bars: seq<BarPrices>): Indicators
    requires |bars| > 0
  {
    var n := |bars| - 1;
    if n == 0 then Step(bars[0], Seed(bars[0]))
    else Step(bars[n], CarryOf(Session(bars[..n])))
  }

  function SumVol(bars: seq<BarPrices>): real
  {
    if bars == [] then 0.0 else SumVol(bars[..|bars| - 1]) + bars[|bars| - 1].volume
  }

  function SumPv(bars: seq<BarPrices>): real
  {
    if bars == [] then 0.0
    else SumPv(bars[..|bars| - 1]) + TypicalPrice(bars[|bars| - 1]) * bars[|bars| - 1].volume
  }

  /** The cumulative columns are the session's running sums of volume and of
      typical price times volume. */
  lemma {:induction false} SessionTotals(bars: seq<BarPrices>)
    requires |bars| > 0
    ensures Session(bars).cumulativeVol == SumVol(bars)
    ensures Session(bars).cumulativePv == SumPv(bars)
  {
    var n := |bars| - 1;
    if n == 0 {
      assert bars[..0] == [];
    } else {
      SessionTotals(bars[..n]);
    }
  }

  lemma MulLe(a: real, b: real, v: real)
    requires a <= b && 0.0 <= v
    ensures a * v <= b * v
  {
    assert (b - a) * v >= 0.0;
  }

  /** With non-negative volumes the volume-weighted price sum is at least
      the lowest typical price times the total volume ... */
  lemma {:induction false} SumPvAtLeast(bars: seq<BarPrices>, lo: real)
    requires forall i :: 0 <= i < |bars| ==> bars[i].volume >= 0.0
    requires forall i :: 0 <= i < |bars| ==> lo <= TypicalPrice(bars[i])
    ensures lo * SumVol(bars) <= SumPv(bars)
  {
    if bars != [] {
      var n := |bars| - 1;
      SumPvAtLeast(bars[..n], lo);
      MulLe(lo, TypicalPrice(bars[n]), bars[n].volume);
      assert lo * SumVol(bars) == lo * SumVol(bars[..n]) + lo * bars[n].volume;
    }
  }

  /** ... and at most the highest typical price times the total volume. */
  lemma {:induction false} SumPvAtMost(bars: seq<BarPrices>, hi: real)
    requires forall i :: 0 <= i < |bars| ==> bars[i].volume >= 0.0
    requires forall i :: 0 <= i < |bars| ==> TypicalPrice(bars[i]) <= hi
    ensures SumPv(bars) <= hi * SumVol(bars)
  {
    if bars != [] {
      var n := |bars| - 1;
      SumPvAtMost(bars[..n], hi);
      MulLe(TypicalPrice(bars[n]), hi, bars[n].volume);
      assert hi * SumVol(bars) == hi * SumVol(bars[..n]) + hi * bars[n].volume;
    }
  }

  lemma MulLt(a: real, b: real, v: real)
    requires a < b && 0.0 < v
    ensures a * v < b * v
  {
    assert (b - a) * v > 0.0;
  }

  /** The VWAP column of a session's last row: the accumulators' ratio when
      the volume is positive, the last typical price otherwise. */
  lemma SessionVwap(bars: seq<BarPrices>)
    requires |bars| > 0
    ensures var r := Session(bars);
      (r.cumulativeVol > 0.0 ==> r.vwap * r.cumulativeVol == r.cumulativePv)
      && (r.cumulativeVol <= 0.0 ==> r.vwap == TypicalPrice(bars[|bars| - 1]))
  {
    var n := |bars| - 1;
    if n == 0 {
      VwapIsRatio(bars[0], Seed(bars[0]));
    } else {
      VwapIsRatio(bars[n], CarryOf(Session(bars[..n])));
    }
  }

  lemma SumsToSessionLo(bars: seq<BarPrices>, lo: real)
    requires |bars| > 0
    requires lo * SumVol(bars) <= SumPv(bars)
    ensures lo * Session(bars).cumulativeVol <= Session(bars).cumulativePv
  {
    SessionTotals(bars);
  }

  lemma SumsToSessionHi(bars: seq<BarPrices>, hi: real)
    requires |bars| > 0
    requires SumPv(bars) <= hi * SumVol(bars)
    ensures Session(bars).cumulativePv <= hi * Session(bars).cumulativeVol
  {
    SessionTotals(bars);
  }

  lemma VwapAtLeast(r: Indicators, tp: real, lo: real)
    requires lo * r.cumulativeVol <= r.cumulativePv
    requires r.cumulativeVol > 0.0 ==> r.vwap * r.cumulativeVol == r.cumulativePv
    requires r.cumulativeVol <= 0.0 ==> r.vwap == tp
    requires lo <= tp
    ensures lo <= r.vwap
  {
    if r.cumulativeVol > 0.0 && r.vwap < lo {
      MulLt(r.vwap, lo, r.cumulativeVol);
    }
  }

  lemma VwapAtMost(r: Indicators, tp: real, hi: real)
    requires r.cumulativePv <= hi * r.cumulativeVol
    requires r.cumulativeVol > 0.0 ==> r.vwap * r.cumulativeVol == r.cumulativePv
    requires r.cumulativeVol <= 0.0 ==> r.vwap == tp
    requires tp <= hi
    ensures r.vwap <= hi
  {
    if r.cumulativeVol > 0.0 && r.vwap > hi {
      MulLt(hi, r.vwap, r.cumulativeVol);
    }
  }

  /** The carry the last row of a session is computed from. */
  lemma LastCarry(bars: seq<BarPrices>) returns (c: Carry)
    requires |bars| > 0
    ensures Session(bars) == Step(bars[|bars| - 1], c)
  {
    var n := |bars| - 1;
    c := if n == 0 then Seed(bars[0]) else CarryOf(Session(bars[..n]));
  }

  lemma StepVwapAtLeast(b: BarPrices, c: Carry, r: Indicators, lo: real)
    requires r == Step(b, c)
    requires lo <= TypicalPrice(b)
    requires lo * r.cumulativeVol <= r.cumulativePv
    ensures lo <= r.vwap
  {
    VwapIsRatio(b, c);
    VwapAtLeast(r, TypicalPrice(b), lo);
  }

  lemma StepVwapAtMost(b: BarPrices, c: Carry, r: Indicators, hi: real)
    requires r == Step(b, c)
    requires TypicalPrice(b) <= hi
    requires r.cumulativePv <= hi * r.cumulativeVol
    ensures r.vwap <= hi
  {
    VwapIsRatio(b, c);
    VwapAtMost(r, TypicalPrice(b), hi);
  }

  lemma SessionVwapAtLeast(bars: seq<BarPrices>, lo: real)
    requires |bars| > 0
    requires forall i :: 0 <= i < |bars| ==> bars[i].volume >= 0.0
    requires forall i :: 0 <= i < |bars| ==> lo <= TypicalPrice(bars[i])
    ensures lo <= Session(bars).vwap
  {
    SumPvAtLeast(bars, lo);
    SumsToSessionLo(bars, lo);
    LastVwapAtLeast(bars, lo);
  }

  lemma LastVwapAtLeast(bars: seq<BarPrices>, lo: real)
    requires |bars| > 0
    requires lo <= TypicalPrice(bars[|bars| - 1])
    requires lo * Session(bars).cumulativeVol <= Session(bars).cumulativePv
    ensures lo <= Session(bars).vwap
  {
    var n := |bars| - 1;
    var c := LastCarry(bars);
    StepVwapAtLeast(bars[n], c, Session(bars), lo);
  }

  lemma SessionVwapAtMost(bars: seq<BarPrices>, hi: real)
    requires |bars| > 0
    requires forall i :: 0 <= i < |bars| ==> bars[i].volume >= 0.0
    requires forall i :: 0 <= i < |bars| ==> TypicalPrice(bars[i]) <= hi
    ensures Session(bars).vwap <= hi
  {
    SumPvAtMost(bars, hi);
    SumsToSessionHi(bars, hi);
    LastVwapAtMost(bars, hi);
  }

  lemma LastVwapAtMost(bars: seq<BarPrices>, hi: real)
    requires |bars| > 0
    requires TypicalPrice(bars[|bars| - 1]) <= hi
    requires Session(bars).cumulativePv <= hi * Session(bars).cumulativeVol
    ensures Session(bars).vwap <= hi
  {
    var n := |bars| - 1;
    var c := LastCarry(bars);
    StepVwapAtMost(bars[n], c, Session(bars), hi);
  }

  /** With non-negative volumes the session VWAP stays within the range of
      the typical prices seen. */
  lemma SessionVwapBounds(bars: seq<BarPrices>, lo: real, hi: real)
    requires |bars| > 0
    requires forall i :: 0 <= i < |bars| ==> bars[i].volume >= 0.0
    requires forall i :: 0 <= i < |bars| ==> lo <= TypicalPrice(bars[i]) <= hi
    ensures lo <= Session(bars).vwap <= hi
  {
    SessionVwapAtLeast(bars, lo);
    SessionVwapAtMost(bars, hi);
  }

  /** A session whose closes never move keeps both EMAs at that close and
      MACD, signal and histogram at zero. */
  lemma {:induction false} SessionFlat(bars: seq<BarPrices>, close: real)
    requires |bars| > 0
    requires forall i :: 0 <= i < |bars| ==> bars[i].close == close
    ensures Session(bars).ema12 == close && Session(bars).ema26 == close
    ensures Session(bars).macd == 0.0 && Session(bars).macdSignal == 0.0
    ensures Session(bars).macdHist == 0.0
  {
    var n := |bars| - 1;
    if n > 0 {
      SessionFlat(bars[..n], close);
    }
  }

  // ------------------------------------------------- reading stored values

  /** `float(new_bar.get("volume", 0))`: an absent volume counts as 0. */
  function ReadVolume(bar: Dict): (r: Result<real>)
    ensures "volume" !in bar ==> r == Ok(0.0)
    ensures "volume" in bar ==> r == ReadReal(bar, "volume")
  {
    if "volume" in bar then ReadReal(bar, "volume") else Ok(0.0)
  }

  /** The prices of a fetched bar; any of high, low, close absent or not a
      number raises. */
  function ReadBar(bar: Dict): (r: Result<BarPrices>)
    ensures r.Ok? <==> ReadReal(bar, "high").Ok? && ReadReal(bar, "low").Ok?
                       && ReadReal(bar, "close").Ok? && ReadVolume(bar).Ok?
    ensures r.Ok? ==> r.value.close == AsReal(bar["close"]) && r.value.volume == ReadVolume(bar).value
  {
    match (ReadReal(bar, "high"), ReadReal(bar, "low"), ReadReal(bar, "close"), ReadVolume(bar))
    case (Ok(h), Ok(l), Ok(c), Ok(v)) => Ok(BarPrices(h, l, c, v))
    case _ => Err("bad bar")
  }

  /** The five carried columns of a previous row; a row written by a live
      builder or a history updater has them `None`, and `float(None)`
      raises. */
  function ReadCarry(row: Dict): (r: Result<Carry>)
    ensures r.Ok? <==> ReadReal(row, "cumulative_pv").Ok? && ReadReal(row, "cumulative_vol").Ok?
                       && ReadReal(row, "ema12").Ok? && ReadReal(row, "ema26").Ok?
                       && ReadReal(row, "macd_signal").Ok?
  {
    match (ReadReal(row, "cumulative_pv"), ReadReal(row, "cumulative_vol"), ReadReal(row, "ema12"),
           ReadReal(row, "ema26"), ReadReal(row, "macd_signal"))
    case (Ok(pv), Ok(vol), Ok(e12), Ok(e26), Ok(sig)) => Ok(Carry(pv, vol, e12, e26, sig))
    case _ => Err("previous row has no indicators")
  }

  /** `compute_indicators(new_bar, prev_row)`: seeded when there is no
      (truthy) previous row, carried from it otherwise. */
  function ComputeIndicators(bar: Dict, prev: Option<Dict>): Result<Indicators>
  {
    match ReadBar(bar)
    case Err(e) => Err(e)
    case Ok(b) =>
      if prev.Some? && prev.value != map[] then
        match ReadCarry(prev.value)
        case Err(e) => Err(e)
        case Ok(c) => Ok(Step(b, c))
      else Ok(Step(b, Seed(b)))
  }

  /** Without a previous row (or with an empty one) the bar seeds a new
      session; with one, its carried state must read back; a bar whose
      prices do not read raises. */
  lemma ComputeIndicatorsCases(bar: Dict, prev: Option<Dict>)
    ensures (prev.None? || prev.value == map[]) && ReadBar(bar).Ok? ==>
              ComputeIndicators(bar, prev) == Ok(Step(ReadBar(bar).value, Seed(ReadBar(bar).value)))
    ensures prev.Some? && prev.value != map[] && ReadBar(bar).Ok? ==>
              (ComputeIndicators(bar, prev).Ok? <==> ReadCarry(prev.value).Ok?)
    ensures ReadBar(bar).Err? ==> ComputeIndicators(bar, prev).Err?
  {
  }

  /** The indicator columns as the row payload holds them. */
  function Columns(r: Indicators): (d: Dict)
    ensures ReadCarry(d) == Ok(CarryOf(r))
  {
    map[
      "typical_price" := JReal(r.typicalPrice), "cumulative_pv" := JReal(r.cumulativePv),
      "cumulative_vol" := JReal(r.cumulativeVol), "vwap" := JReal(r.vwap),
      "ema12" := JReal(r.ema12), "ema26" := JReal(r.ema26), "macd" := JReal(r.macd),
      "macd_signal" := JReal(r.macdSignal), "macd_hist" := JReal(r.macdHist)]
  }
}
