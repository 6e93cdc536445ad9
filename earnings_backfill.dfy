// Step 5 of the earnings pipeline (earnings_calendar_us_backfill.py): every
// scored symbol whose last earnings date is not today and which is missing
// from the earnings calendar is added to the calendar with today's date, so
// that the next runs re-check it. The calendar is a plain insert table.

module EarningsBackfill {
  import opened Base

  /** The tag the inserted rows carry in `source`. */
  const BackfillSource := "backfill_step_5"

  /** The `eq("symbol", symbol)` query finds a row; SQL equality never
      matches a null symbol. */
  predicate Listed(calendar: seq<Dict>, symbol: Json)
  {
    symbol != JNull && exists i :: 0 <= i < |calendar| && Get(calendar[i], "symbol") == symbol
  }

  /** The row inserted for a missing symbol. */
  function BackfillRow(symbol: Json, today: string): (row: Dict)
    ensures row.Keys == {"symbol", "report_date", "source"}
    ensures row["symbol"] == symbol && row["report_date"] == JStr(today) && row["source"] == JStr(BackfillSource)
  {
    map["symbol" := symbol, "report_date" := JStr(today), "source" := JStr(BackfillSource)]
  }

  /** How far the loop has got: symbols added, the calendar, and the
      `KeyError` that ended it, if any. */
  datatype Progress = Progress(added: nat, calendar: seq<Dict>, error: Option<string>)

  /** One score row: the missing columns raise; a row already updated today
      or a listed symbol is skipped; otherwise the symbol is inserted. */
  function Visit(p: Progress, row: Dict, today: string): (r: Progress)
    requires p.error.None?
    ensures r.error.None? <==> "symbol" in row && "last_earnings_date" in row
    ensures |p.calendar| <= |r.calendar| <= |p.calendar| + 1
    ensures r.added == p.added + |r.calendar| - |p.calendar| && r.calendar[..|p.calendar|] == p.calendar
    ensures |r.calendar| == |p.calendar| + 1 <==>
              r.error.None? && row["last_earnings_date"] != JStr(today) && !Listed(p.calendar, row["symbol"])
    ensures |r.calendar| == |p.calendar| + 1 ==> r.calendar[|p.calendar|] == BackfillRow(row["symbol"], today)
  {
    if "symbol" !in row then Progress(p.added, p.calendar, Some("KeyError: 'symbol'"))
    else if "last_earnings_date" !in row then Progress(p.added, p.calendar, Some("KeyError: 'last_earnings_date'"))
    else if row["last_earnings_date"] == JStr(today) then p
    else if Listed(p.calendar, row["symbol"]) then p
    else Progress(p.added + 1, p.calendar + [BackfillRow(row["symbol"], today)], None)
  }

  /** `step_5_backfill_missing_earnings` over the score rows. */
  function Backfill(rows: seq<Dict>, today: string, calendar: seq<Dict>): (r: Progress)
    ensures r.added == |r.calendar| - |calendar| && r.calendar[..|calendar|] == calendar
  {
    if rows == [] then Progress(0, calendar, None)
    else
      var prev := Backfill(rows[..|rows| - 1], today, calendar);
      if prev.error.Some? then prev else Visit(prev, rows[|rows| - 1], today)
  }

  /** The loop of `step_5_backfill_missing_earnings`, one score row at a
      time, inserting into `calendar`. */
  method BackfillMissingEarnings(rows: seq<Dict>, today: string, calendar: seq<Dict>)
    returns (added: nat, calendar': seq<Dict>, error: Option<string>)
    ensures Progress(added, calendar', error) == Backfill(rows, today, calendar)
  {
    added, calendar', error := 0, calendar, None;
    var i := 0;
    while i < |rows|
      invariant 0 <= i <= |rows|
      invariant Backfill(rows[..i], today, calendar) == Progress(added, calendar', None)
    {
      assert rows[..i + 1][..i] == rows[..i];
      var row := rows[i];
      if "symbol" !in row || "last_earnings_date" !in row {
        error := Some(if "symbol" !in row then "KeyError: 'symbol'" else "KeyError: 'last_earnings_date'");
        BackfillStopped(rows, i + 1, today, calendar);
        return;
      }
      var symbol := row["symbol"];
      if row["last_earnings_date"] != JStr(today) {
        var found := exists j :: 0 <= j < |calendar'| && Get(calendar'[j], "symbol") == symbol;
        if !(symbol != JNull && found) {
          calendar' := calendar' + [BackfillRow(symbol, today)];
          added := added + 1;
        }
      }
      i := i + 1;
    }
    assert rows[..i] == rows;
  }

  /** Once a row has raised, later rows change nothing. */
  lemma {:induction false} BackfillStopped(rows: seq<Dict>, i: nat, today: string, calendar: seq<Dict>)
    requires i <= |rows| && Backfill(rows[..i], today, calendar).error.Some?
    ensures Backfill(rows, today, calendar) == Backfill(rows[..i], today, calendar)
    decreases |rows|
  {
    if i < |rows| {
      var n := |rows| - 1;
      assert rows[..n][..i] == rows[..i];
      BackfillStopped(rows[..n], i, today, calendar);
    } else {
      assert rows[..i] == rows;
    }
  }

  /** A row the loop visits is due: it raises nothing, was not updated today
      and names a symbol. */
  predicate Due(row: Dict, today: string)
  {
    "symbol" in row && "last_earnings_date" in row && row["last_earnings_date"] != JStr(today) && row["symbol"] != JNull
  }

  /** Every row the run adds is the backfill row of a score row that was
      not updated today, for today. */
  lemma {:induction false} AddedRowsAreBackfill(rows: seq<Dict>, today: string, calendar: seq<Dict>, j: nat)
    requires |calendar| <= j < |Backfill(rows, today, calendar).calendar|
    ensures exists k :: 0 <= k < |rows| && "symbol" in rows[k] && "last_earnings_date" in rows[k]
                        && rows[k]["last_earnings_date"] != JStr(today)
                        && Backfill(rows, today, calendar).calendar[j] == BackfillRow(rows[k]["symbol"], today)
  {
    var n := |rows| - 1;
    var prev := Backfill(rows[..n], today, calendar);
    if j < |prev.calendar| {
      AddedRowsAreBackfill(rows[..n], today, calendar, j);
      var k :| 0 <= k < n && "symbol" in rows[..n][k] && "last_earnings_date" in rows[..n][k]
               && rows[..n][k]["last_earnings_date"] != JStr(today)
               && prev.calendar[j] == BackfillRow(rows[..n][k]["symbol"], today);
      assert rows[..n][k] == rows[k];
    } else {
      assert rows[n]["last_earnings_date"] != JStr(today);
    }
  }

  /** After a run that raised nothing every due symbol is in the calendar. */
  lemma {:induction false} DueSymbolsListed(rows: seq<Dict>, today: string, calendar: seq<Dict>, k: nat)
    requires Backfill(rows, today, calendar).error.None?
    requires k < |rows| && Due(rows[k], today)
    ensures Listed(Backfill(rows, today, calendar).calendar, rows[k]["symbol"])
  {
    var n := |rows| - 1;
    var prev := Backfill(rows[..n], today, calendar);
    var r := Backfill(rows, today, calendar);
    assert prev.error.None?;
    if k < n {
      assert rows[..n][k] == rows[k];
      DueSymbolsListed(rows[..n], today, calendar, k);
      var i :| 0 <= i < |prev.calendar| && Get(prev.calendar[i], "symbol") == rows[k]["symbol"];
      assert r.calendar[i] == prev.calendar[i];
    } else if !Listed(prev.calendar, rows[k]["symbol"]) {
      assert r.calendar == prev.calendar + [BackfillRow(rows[k]["symbol"], today)];
      assert Get(r.calendar[|prev.calendar|], "symbol") == rows[k]["symbol"];
    } else {
      var i :| 0 <= i < |prev.calendar| && Get(prev.calendar[i], "symbol") == rows[k]["symbol"];
      assert r.calendar[i] == prev.calendar[i];
    }
  }

  /** No two rows share a symbol other than null. */
  predicate DistinctSymbols(calendar: seq<Dict>)
  {
    forall i, j :: 0 <= i < j < |calendar| && Get(calendar[i], "symbol") != JNull ==>
      Get(calendar[i], "symbol") != Get(calendar[j], "symbol")
  }

  /** The existence check before each insert keeps a calendar free of
      repeated symbols, even when a symbol occurs in several score rows. */
  lemma {:induction false} BackfillKeepsDistinct(rows: seq<Dict>, today: string, calendar: seq<Dict>)
    requires DistinctSymbols(calendar)
    ensures DistinctSymbols(Backfill(rows, today, calendar).calendar)
  {
    if rows != [] {
      var n := |rows| - 1;
      BackfillKeepsDistinct(rows[..n], today, calendar);
      var prev := Backfill(rows[..n], today, calendar);
      var r := Backfill(rows, today, calendar);
      if prev.error.None? && |r.calendar| == |prev.calendar| + 1 {
        var row := rows[n];
        assert r.calendar == prev.calendar + [BackfillRow(row["symbol"], today)];
        assert !Listed(prev.calendar, row["symbol"]);
        assert forall i :: 0 <= i < |prev.calendar| ==> r.calendar[i] == prev.calendar[i];
      } else {
        assert r.calendar == prev.calendar;
      }
    }
  }

  /** A second run right after a run that raised nothing adds nothing, when
      every score row names its symbol (a null symbol never matches the
      existence query, so it would be inserted on every run). */
  lemma {:induction false} BackfillTwice(rows: seq<Dict>, today: string, calendar: seq<Dict>, m: nat)
    requires Backfill(rows, today, calendar).error.None?
    requires forall k :: 0 <= k < |rows| && "symbol" in rows[k] ==> rows[k]["symbol"] != JNull
    requires m <= |rows|
    ensures var once := Backfill(rows, today, calendar).calendar;
            Backfill(rows[..m], today, once) == Progress(0, once, None)
  {
    var once := Backfill(rows, today, calendar).calendar;
    if m > 0 {
      var k := m - 1;
      assert rows[..m][..k] == rows[..k];
      BackfillTwice(rows, today, calendar, k);
      assert rows[..m][k] == rows[k];
      var row := rows[k];
      NoErrorBefore(rows, today, calendar, k);
      if Due(row, today) {
        DueSymbolsListed(rows, today, calendar, k);
      }
    }
  }

  /** A run that raised nothing met no row missing a column. */
  lemma {:induction false} NoErrorBefore(rows: seq<Dict>, today: string, calendar: seq<Dict>, k: nat)
    requires Backfill(rows, today, calendar).error.None? && k < |rows|
    ensures "symbol" in rows[k] && "last_earnings_date" in rows[k]
  {
    var n := |rows| - 1;
    assert Backfill(rows[..n], today, calendar).error.None?;
    if k < n {
      assert rows[..n][k] == rows[k];
      NoErrorBefore(rows[..n], today, calendar, k);
    }
  }
}
