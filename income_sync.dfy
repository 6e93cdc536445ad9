// The daily sync of each company's latest quarterly income statement
// (income_statements_last_sync.py): read the US tickers of today's earnings
// calendar, fetch each one's latest statement, keep quarterly statements in
// US dollars, upsert them on `symbol`, and count fetched, inserted and
// failed symbols in the job's monitor row.

module IncomeSync {
  import opened Base
  import opened Text
  import opened Symbols
  import KeyedTable

  // ---------------------------------------------------------- the symbols

  /** One row's symbol in the loop of `load_symbols_from_calendar`: the US
      filter, then `symbols_set.add(sym)`, which raises on a list or a dict
      that passed it (they are unhashable). */
  function AddSymbol(sym: Json): (r: Result<bool>)
    ensures r.Err? <==> UsTicker(sym).Err? || (UsTicker(sym) == Ok(true) && !sym.JStr?)
    ensures r == Ok(true) <==> UsTicker(sym) == Ok(true) && sym.JStr?
  {
    match UsTicker(sym)
    case Err(e) => Err(e)
    case Ok(keep) =>
      if keep && !sym.JStr? then Err("TypeError: unhashable type") else Ok(keep)
  }

  /** The symbols the loop of `load_symbols_from_calendar` adds to its set. */
  ghost function KeptSymbols(rows: seq<Dict>): set<string>
  {
    set i | 0 <= i < |rows| && AddSymbol(Get(rows[i], "symbol")) == Ok(true) :: Get(rows[i], "symbol").s
  }

  /** `load_symbols_from_calendar` over the calendar rows: the set of kept
      symbols, sorted; a truthy symbol that `in` cannot test, or a list or
      dict symbol that passes the filter, raises. */
  function LoadSymbols(rows: seq<Dict>): (r: Result<seq<string>>)
    ensures r.Err? <==> exists i :: 0 <= i < |rows| && AddSymbol(Get(rows[i], "symbol")).Err?
    ensures r.Ok? ==> StrictlyAscending(r.value)
    ensures r.Ok? ==> forall s :: s in r.value <==> s in KeptSymbols(rows)
  {
    if rows == [] then Ok([])
    else
      var n := |rows| - 1;
      var sym := Get(rows[n], "symbol");
      assert forall i :: 0 <= i < n ==> rows[..n][i] == rows[i];
      match LoadSymbols(rows[..n])
      case Err(e) => Err(e)
      case Ok(prev) =>
        match AddSymbol(sym)
        case Err(e) => Err(e)
        case Ok(keep) =>
          assert KeptSymbols(rows) == KeptSymbols(rows[..n]) + (if keep then {sym.s} else {}) by {
            forall s | s in KeptSymbols(rows) ensures s in KeptSymbols(rows[..n]) + (if keep then {sym.s} else {}) {
              var i :| 0 <= i < |rows| && AddSymbol(Get(rows[i], "symbol")) == Ok(true) && s == Get(rows[i], "symbol").s;
              if i < n {
                assert rows[..n][i] == rows[i];
              }
            }
            if keep {
              assert AddSymbol(Get(rows[n], "symbol")) == Ok(true);
            }
          }
          Ok(if keep then InsertUnique(sym.s, prev) else prev)
  }

  /** The loop of `load_symbols_from_calendar`, one row at a time. */
  method LoadSymbolsFromCalendar(rows: seq<Dict>) returns (r: Result<seq<string>>)
    ensures r == LoadSymbols(rows)
  {
    var symbols: seq<string> := [];
    var i := 0;
    while i < |rows|
      invariant 0 <= i <= |rows|
      invariant LoadSymbols(rows[..i]) == Ok(symbols)
    {
      assert rows[..i + 1][..i] == rows[..i];
      var sym := Get(rows[i], "symbol");
      var keep := AddSymbol(sym);
      if keep.Err? {
        assert rows[..i + 1][i] == rows[i];
        assert LoadSymbols(rows[..i + 1]).Err?;
        LoadSymbolsStopped(rows, i + 1);
        return LoadSymbols(rows);
      }
      if keep.value {
        symbols := InsertUnique(sym.s, symbols);
      }
      i := i + 1;
    }
    assert rows[..i] == rows;
    return Ok(symbols);
  }

  /** A raised symbol ends the load, whatever follows it. */
  lemma {:induction false} LoadSymbolsStopped(rows: seq<Dict>, i: nat)
    requires i <= |rows| && LoadSymbols(rows[..i]).Err?
    ensures LoadSymbols(rows).Err?
  {
    var j :| 0 <= j < i && AddSymbol(Get(rows[..i][j], "symbol")).Err?;
    assert rows[..i][j] == rows[j];
  }

  // ---------------------------------------------------------- statements

  /** `fetch_last_income_statement` given the request's outcome: `None` (here
      `JNull`) for a failed request or an empty body, else `data[0]`; an
      index error on a dict is caught, and the first character of a string
      comes back as a one-letter string. */
  function FetchLast(fetched: Result<Json>): (stmt: Json)
    ensures fetched.Err? || !Truthy(fetched.value) ==> stmt == JNull
    ensures fetched.Ok? && fetched.value.JList? && fetched.value.items != [] ==> stmt == fetched.value.items[0]
  {
    if fetched.Err? || !Truthy(fetched.value) then JNull
    else
      match fetched.value
      case JList(items) => items[0]
      case JStr(s) => JStr([s[0]])
      case _ => JNull
  }

  /** `is_quarterly_statement`: the upper-cased period, `None` read as "",
      is one of Q1 to Q4; a truthy period that is not a string raises. */
  function IsQuarterly(stmt: Dict): (r: Result<bool>)
    ensures r.Err? <==> Truthy(Get(stmt, "period")) && !Get(stmt, "period").JStr?
  {
    var p := Or(Get(stmt, "period"), JStr(""));
    if !p.JStr? then Err("'period' has no upper()")
    else Ok(Upper(p.s) in {"Q1", "Q2", "Q3", "Q4"})
  }

  /** A period is quarterly exactly when it is a "Q" of either case followed
      by a digit from 1 to 4. */
  lemma QuarterlyPeriods(stmt: Dict, s: string)
    requires Get(stmt, "period") == JStr(s)
    ensures IsQuarterly(stmt) == Ok(true) <==> |s| == 2 && (s[0] == 'Q' || s[0] == 'q') && '1' <= s[1] <= '4'
  {
    if s != [] {
      var u := Upper(s);
      if |s| == 2 {
        assert u == [UpperChar(s[0]), UpperChar(s[1])];
      }
      if u in {"Q1", "Q2", "Q3", "Q4"} {
        assert |u| == 2;
      }
    }
  }

  /** `is_usd_statement`. */
  predicate IsUsd(stmt: Dict)
  {
    Get(stmt, "reportedCurrency") == JStr("USD")
  }

  /** The row `upsert_income_statement` writes: the statement's figures under
      the table's column names, the diluted EPS under either spelling, the
      statement itself, and `updatedAt`, the clock reading it stamps. */
  function IncomeRow(symbol: string, stmt: Dict, updatedAt: string): (row: Dict)
    ensures "symbol" in row && row["symbol"] == JStr(symbol)
    ensures "raw_json" in row && row["raw_json"] == JObj(stmt)
    ensures "diluted_eps" in row && row["diluted_eps"] == Or(Get(stmt, "epsdiluted"), Get(stmt, "epsDiluted"))
    ensures "reported_currency" in row && row["reported_currency"] == Get(stmt, "reportedCurrency")
  {
    map["date" := Get(stmt, "date"), "revenue" := Get(stmt, "revenue"), "gross_profit" := Get(stmt, "grossProfit"),
        "operating_income" := Get(stmt, "operatingIncome"), "net_income" := Get(stmt, "netIncome"),
        "eps" := Get(stmt, "eps"), "operating_expenses" := Get(stmt, "operatingExpenses"),
        "income_before_tax" := Get(stmt, "incomeBeforeTax"), "income_tax_expense" := Get(stmt, "incomeTaxExpense"),
        "net_income_ratio" := Get(stmt, "netIncomeRatio"), "updated_at" := JStr(updatedAt),
        "reported_currency" := Get(stmt, "reportedCurrency"),
        "diluted_eps" := Or(Get(stmt, "epsdiluted"), Get(stmt, "epsDiluted")),
        "raw_json" := JObj(stmt), "symbol" := JStr(symbol)]
  }

  /** How the upsert call came back: an exception, or a response whose
      `status_code` attribute may be missing. */
  datatype UpsertReply = Raised | Replied(status: Option<int>)

  /** The upsert succeeded: status 200, 201 or none. */
  predicate UpsertOk(reply: UpsertReply)
  {
    reply.Replied? && (reply.status.None? || reply.status.value == 200 || reply.status.value == 201)
  }

  // ---------------------------------------------------------- the job

  /** What one symbol does to the counters. */
  datatype Step = Missing | Skipped | Written(row: Dict) | UpsertFailed

  /** One pass of the loop in `main`; a statement that is not a dict, or a
      bad period, raises and ends the job. */
  function StepOf(symbol: string, fetched: Result<Json>, reply: UpsertReply, updatedAt: string): (r: Result<Step>)
    ensures r == Ok(Missing) <==> FetchLast(fetched).JNull?
    ensures r.Ok? && r.value.Written? ==>
              && FetchLast(fetched).JObj? && IsQuarterly(FetchLast(fetched).fields) == Ok(true)
              && IsUsd(FetchLast(fetched).fields) && UpsertOk(reply)
              && r.value.row == IncomeRow(symbol, FetchLast(fetched).fields, updatedAt)
    ensures FetchLast(fetched).JObj? && IsQuarterly(FetchLast(fetched).fields).Ok? ==>
              var stmt := FetchLast(fetched).fields;
              && (!IsQuarterly(stmt).value || !IsUsd(stmt) ==> r == Ok(Skipped))
              && (IsQuarterly(stmt).value && IsUsd(stmt) && UpsertOk(reply) ==> r == Ok(Written(IncomeRow(symbol, stmt, updatedAt))))
              && (IsQuarterly(stmt).value && IsUsd(stmt) && !UpsertOk(reply) ==> r == Ok(UpsertFailed))
    ensures r.Err? <==> !FetchLast(fetched).JNull? && (!FetchLast(fetched).JObj? || IsQuarterly(FetchLast(fetched).fields).Err?)
  {
    var stmt := FetchLast(fetched);
    if stmt.JNull? then Ok(Missing)
    else if !stmt.JObj? then Err("'stmt' has no get()")
    else
      match IsQuarterly(stmt.fields)
      case Err(e) => Err(e)
      case Ok(q) =>
        if !q || !IsUsd(stmt.fields) then Ok(Skipped)
        else if UpsertOk(reply) then Ok(Written(IncomeRow(symbol, stmt.fields, updatedAt)))
        else Ok(UpsertFailed)
  }

  /** The monitor row's counters. */
  datatype Counters = Counters(fetched: nat, inserted: nat, failed: nat)

  /** Where the loop over the symbols has got to: the counters, the upserts
      made in order, and the exception that ended it, if any. */
  datatype Tally = Tally(inserted: nat, failed: nat, written: seq<(string, Dict)>, error: Option<string>)

  /** The counters after one more symbol. */
  function Advance(t: Tally, s: string, step: Result<Step>): (r: Tally)
    ensures r.inserted + r.failed <= t.inserted + t.failed + 1
    ensures step.Ok? && step.value.Written? ==> r.written == t.written + [(s, step.value.row)]
    ensures !(step.Ok? && step.value.Written?) ==> r.written == t.written
  {
    match step
    case Err(e) => Tally(t.inserted, t.failed, t.written, Some(e))
    case Ok(Missing) => Tally(t.inserted, t.failed + 1, t.written, None)
    case Ok(Skipped) => t
    case Ok(UpsertFailed) => Tally(t.inserted, t.failed + 1, t.written, None)
    case Ok(Written(row)) => Tally(t.inserted + 1, t.failed, t.written + [(s, row)], None)
  }

  /** The loop over `symbols`. */
  function Run(symbols: seq<string>, fetch: string -> Result<Json>, reply: string -> UpsertReply,
               updatedAt: string -> string): (r: Tally)
    ensures r.inserted + r.failed <= |symbols| && |r.written| == r.inserted
    ensures forall j :: 0 <= j < |r.written| ==> r.written[j].0 in symbols
  {
    if symbols == [] then Tally(0, 0, [], None)
    else
      var n := |symbols| - 1;
      var prev := Run(symbols[..n], fetch, reply, updatedAt);
      var s := symbols[n];
      if prev.error.Some? then prev
      else Advance(prev, s, StepOf(s, fetch(s), reply(s), updatedAt(s)))
  }

  /** The upsert `e` is of the row of a quarterly statement in US dollars
      fetched for its symbol. */
  predicate FromQuarterlyUsd(e: (string, Dict), fetch: string -> Result<Json>, updatedAt: string -> string)
  {
    var stmt := FetchLast(fetch(e.0));
    && stmt.JObj? && IsQuarterly(stmt.fields) == Ok(true) && IsUsd(stmt.fields)
    && e.1 == IncomeRow(e.0, stmt.fields, updatedAt(e.0))
  }

  /** Every row the job upserts is the row of a quarterly statement in US
      dollars fetched for its symbol. */
  lemma {:induction false} WrittenQuarterlyUsd(symbols: seq<string>, fetch: string -> Result<Json>,
                                               reply: string -> UpsertReply, updatedAt: string -> string)
    ensures forall e :: e in Run(symbols, fetch, reply, updatedAt).written ==> FromQuarterlyUsd(e, fetch, updatedAt)
  {
    if symbols != [] {
      var n := |symbols| - 1;
      var s := symbols[n];
      WrittenQuarterlyUsd(symbols[..n], fetch, reply, updatedAt);
      var t := Run(symbols[..n], fetch, reply, updatedAt);
      var step := StepOf(s, fetch(s), reply(s), updatedAt(s));
      if t.error.None? && step.Ok? && step.value.Written? {
        assert FromQuarterlyUsd((s, step.value.row), fetch, updatedAt);
        assert Run(symbols, fetch, reply, updatedAt).written == t.written + [(s, step.value.row)];
      }
    }
  }

  /** One more symbol, while no exception has ended the loop. */
  lemma RunNext(symbols: seq<string>, i: nat, fetch: string -> Result<Json>, reply: string -> UpsertReply,
                updatedAt: string -> string)
    requires i < |symbols| && Run(symbols[..i], fetch, reply, updatedAt).error.None?
    ensures var s := symbols[i];
            Run(symbols[..i + 1], fetch, reply, updatedAt)
              == Advance(Run(symbols[..i], fetch, reply, updatedAt), s, StepOf(s, fetch(s), reply(s), updatedAt(s)))
  {
    assert symbols[..i + 1][..i] == symbols[..i];
  }

  /** Once the loop has stopped, later symbols change nothing. */
  lemma {:induction false} RunStopped(symbols: seq<string>, i: nat, fetch: string -> Result<Json>,
                                      reply: string -> UpsertReply, updatedAt: string -> string)
    requires i <= |symbols| && Run(symbols[..i], fetch, reply, updatedAt).error.Some?
    ensures Run(symbols, fetch, reply, updatedAt) == Run(symbols[..i], fetch, reply, updatedAt)
    decreases |symbols|
  {
    if i < |symbols| {
      var n := |symbols| - 1;
      assert symbols[..n][..i] == symbols[..i];
      RunStopped(symbols[..n], i, fetch, reply, updatedAt);
    } else {
      assert symbols[..i] == symbols;
    }
  }

  /** `clear_income_table`: `delete().neq("symbol", "")` removes every row
      but one keyed on the empty symbol. */
  function ClearTable(table: map<string, Dict>): (r: map<string, Dict>)
    ensures r.Keys <= {""} && ("" in table ==> "" in r && r[""] == table[""])
  {
    map k | k in table && k == "" :: table[k]
  }

  /** The monitor row `finish_job_monitor_run` writes. */
  datatype JobRow = JobRow(status: string, counters: Counters, error: Option<string>)

  /** The `for` loop of `main` over the loaded symbols, upserting into
      `table`. */
  method ProcessSymbols(symbols: seq<string>, fetch: string -> Result<Json>, reply: string -> UpsertReply,
                        updatedAt: string -> string, table: map<string, Dict>)
    returns (t: Tally, table': map<string, Dict>)
    ensures t == Run(symbols, fetch, reply, updatedAt)
    ensures table' == KeyedTable.UpsertAll(table, t.written)
  {
    var inserted, failed := 0, 0;
    var written: seq<(string, Dict)> := [];
    table' := table;
    var i := 0;
    while i < |symbols|
      invariant 0 <= i <= |symbols|
      invariant Run(symbols[..i], fetch, reply, updatedAt) == Tally(inserted, failed, written, None)
      invariant table' == KeyedTable.UpsertAll(table, written)
    {
      RunNext(symbols, i, fetch, reply, updatedAt);
      var s := symbols[i];
      var step := StepOf(s, fetch(s), reply(s), updatedAt(s));
      if step.Err? {
        RunStopped(symbols, i + 1, fetch, reply, updatedAt);
        return Tally(inserted, failed, written, Some(step.msg)), table';
      }
      inserted, failed, written, table' := Count(table, inserted, failed, written, table', s, step.value);
      i := i + 1;
    }
    assert symbols[..i] == symbols;
    t := Tally(inserted, failed, written, None);
  }

  /** The body of the loop for a symbol whose statement raised nothing: the
      counters move and a written row is upserted. */
  method Count(table: map<string, Dict>, inserted: nat, failed: nat, written: seq<(string, Dict)>,
               table': map<string, Dict>, s: string, step: Step)
    returns (inserted': nat, failed': nat, written': seq<(string, Dict)>, table'': map<string, Dict>)
    requires table' == KeyedTable.UpsertAll(table, written)
    ensures Tally(inserted', failed', written', None) == Advance(Tally(inserted, failed, written, None), s, Ok(step))
    ensures table'' == KeyedTable.UpsertAll(table, written')
  {
    inserted', failed', written', table'' := inserted, failed, written, table';
    match step {
      case Missing => failed' := failed + 1;
      case Skipped =>
      case UpsertFailed => failed' := failed + 1;
      case Written(row) =>
        KeyedTable.UpsertAllSnoc(table, written, s, row);
        table'' := KeyedTable.Upsert(table', s, row);
        written' := written + [(s, row)];
        inserted' := inserted + 1;
    }
  }

  /** `main` after the monitor row is created: clear the table, load the
      symbols, run the loop, and finish the monitor row with "success", or
      with "error" and the counters reached when an exception ends it. */
  method SyncAll(calendar: seq<Dict>, fetch: string -> Result<Json>, reply: string -> UpsertReply,
              updatedAt: string -> string, table: map<string, Dict>)
    returns (job: JobRow, table': map<string, Dict>)
    ensures LoadSymbols(calendar).Err? ==>
              job == JobRow("error", Counters(0, 0, 0), Some(LoadSymbols(calendar).msg)) && table' == ClearTable(table)
    ensures LoadSymbols(calendar).Ok? ==>
              var symbols := LoadSymbols(calendar).value;
              var run := Run(symbols, fetch, reply, updatedAt);
              && job.counters == Counters(|symbols|, run.inserted, run.failed)
              && job.status == (if run.error.None? then "success" else "error")
              && job.error == run.error
              && table' == KeyedTable.UpsertAll(ClearTable(table), run.written)
    ensures job.counters.inserted + job.counters.failed <= job.counters.fetched
    ensures forall s :: s in table' && s != "" ==> exists i :: 0 <= i < |calendar| && Get(calendar[i], "symbol") == JStr(s)
  {
    var cleared := ClearTable(table);
    var loaded := LoadSymbolsFromCalendar(calendar);
    if loaded.Err? {
      return JobRow("error", Counters(0, 0, 0), Some(loaded.msg)), cleared;
    }
    var symbols := loaded.value;
    var t;
    t, table' := ProcessSymbols(symbols, fetch, reply, updatedAt, cleared);
    SymbolsFromCalendar(symbols, calendar, t.written, cleared);
    var status := if t.error.None? then "success" else "error";
    job := JobRow(status, Counters(|symbols|, t.inserted, t.failed), t.error);
  }

  /** Every row upserted is keyed on a symbol of the calendar. */
  lemma SymbolsFromCalendar(symbols: seq<string>, calendar: seq<Dict>, written: seq<(string, Dict)>,
                            cleared: map<string, Dict>)
    requires forall s :: s in symbols <==> s in KeptSymbols(calendar)
    requires forall j :: 0 <= j < |written| ==> written[j].0 in symbols
    requires cleared.Keys <= {""}
    ensures forall s :: s in KeyedTable.UpsertAll(cleared, written) && s != "" ==>
              exists i :: 0 <= i < |calendar| && Get(calendar[i], "symbol") == JStr(s)
  {
    forall s | s in KeyedTable.UpsertAll(cleared, written) && s != ""
      ensures exists i :: 0 <= i < |calendar| && Get(calendar[i], "symbol") == JStr(s)
    {
      assert s in KeyedTable.KeysOf(written);
      var j :| 0 <= j < |written| && written[j].0 == s;
      assert s in KeptSymbols(calendar);
    }
  }
}
