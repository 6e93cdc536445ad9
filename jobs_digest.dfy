// The daily digest of one job's runs (jobs_digest_daily.py): keep the runs
// that started inside today's window, tally them, summarise their durations
// and replace the job's row of the day in the daily table.

module JobsDigest {
  import opened Base
  import opened Text
  import opened Clock

  const JobName: string := "earnings_calendar_daily"

  // ---------------------------------------------------------- timestamps

  /** What `datetime.fromisoformat` reads from a string: the wall-clock time
      and, when the string carries one, its offset east of UTC in minutes. */
  datatype IsoTime = IsoTime(local: Instant, offset: Option<int>)

  /** The absolute time of a parsed stamp, in microseconds on the UTC clock;
      a stamp without an offset is taken as UTC. */
  function UtcMicros(p: IsoTime): int
  {
    Ord(p.local) - (if p.offset.Some? then p.offset.value * MicrosPerMinute else 0)
  }

  /** `_parse_ts`: a falsy value, a value that is not a string, or a string
      `fromisoformat` (here `iso`) rejects gives `None`; a trailing "Z" is
      read as "+00:00". */
  function ParseTs(value: Json, iso: string -> Option<IsoTime>): (r: Option<int>)
    ensures r.Some? ==> value.JStr? && value.s != [] && iso(ReplaceAll(value.s, "Z", "+00:00")).Some?
    ensures value.JStr? && value.s != [] && iso(ReplaceAll(value.s, "Z", "+00:00")).Some? ==> r.Some?
  {
    if !Truthy(value) || !value.JStr? then None
    else
      match iso(ReplaceAll(value.s, "Z", "+00:00"))
      case None => None
      case Some(p) => Some(UtcMicros(p))
  }

  /** A stamp written with "Z" is the same instant as the one written with
      "+00:00". */
  lemma ZuluIsUtc(s: string, iso: string -> Option<IsoTime>)
    requires 'Z' !in s
    ensures ParseTs(JStr(s + "Z"), iso) == ParseTs(JStr(s + "+00:00"), iso)
  {
    ReplaceCharConcat(s, "Z", 'Z', "+00:00");
    ReplaceCharConcat(s, "+00:00", 'Z', "+00:00");
    ReplaceAbsentChar(s, 'Z', "+00:00");
    ReplaceAbsentChar("+00:00", 'Z', "+00:00");
    assert "Z" == ['Z'];
    assert ReplaceAll("Z", "Z", "+00:00") == "+00:00";
    assert ReplaceAll(s + "Z", "Z", "+00:00") == s + "+00:00";
    assert ReplaceAll(s + "+00:00", "Z", "+00:00") == s + "+00:00";
  }

  /** A naive stamp is read on the UTC clock, and an offset moves it. */
  lemma NaiveIsUtc(s: string, iso: string -> Option<IsoTime>, t: Instant, off: int)
    requires s != [] && 'Z' !in s
    ensures iso(s) == Some(IsoTime(t, None)) ==> ParseTs(JStr(s), iso) == Some(Ord(t))
    ensures iso(s) == Some(IsoTime(t, Some(off))) ==> ParseTs(JStr(s), iso) == Some(Ord(t) - off * MicrosPerMinute)
  {
    ReplaceAbsentChar(s, 'Z', "+00:00");
  }

  // ---------------------------------------------------------- the window

  /** The run started inside `[startUtc, endUtc)`. */
  predicate StartedIn(r: Dict, startUtc: int, endUtc: int, iso: string -> Option<IsoTime>)
  {
    var t := ParseTs(Get(r, "started_at"), iso);
    t.Some? && startUtc <= t.value < endUtc
  }

  /** The runs of today, in the order fetched. */
  function RunsInWindow(rows: seq<Dict>, startUtc: int, endUtc: int, iso: string -> Option<IsoTime>): (r: seq<Dict>)
    ensures |r| <= |rows|
    ensures forall x :: x in r <==> x in rows && StartedIn(x, startUtc, endUtc, iso)
    ensures forall x :: multiset(r)[x] == if StartedIn(x, startUtc, endUtc, iso) then multiset(rows)[x] else 0
  {
    if rows == [] then []
    else
      var n := |rows| - 1;
      var prev := RunsInWindow(rows[..n], startUtc, endUtc, iso);
      assert rows == rows[..n] + [rows[n]];
      if StartedIn(rows[n], startUtc, endUtc, iso) then prev + [rows[n]] else prev
  }

  /** The loop of `fetch_jobs_for_today` over the fetched rows, given the
      UTC bounds of today's local day. */
  method FetchJobsForToday(allRows: seq<Dict>, startUtc: int, endUtc: int, iso: string -> Option<IsoTime>)
    returns (today: seq<Dict>)
    ensures today == RunsInWindow(allRows, startUtc, endUtc, iso)
  {
    today := [];
    var i := 0;
    while i < |allRows|
      invariant 0 <= i <= |allRows|
      invariant today == RunsInWindow(allRows[..i], startUtc, endUtc, iso)
    {
      assert allRows[..i + 1][..i] == allRows[..i];
      var started := ParseTs(Get(allRows[i], "started_at"), iso);
      if started.Some? && startUtc <= started.value < endUtc {
        today := today + [allRows[i]];
      }
      i := i + 1;
    }
    assert allRows[..i] == allRows;
  }

  // ---------------------------------------------------------- the tally

  /** `(r.get("status") or "").lower()`, which raises for a truthy status
      that is not a string. */
  function Status(r: Dict): Result<string>
  {
    var v := Or(Get(r, "status"), JStr(""));
    if v.JStr? then Ok(Lower(v.s)) else Err("'" + "status" + "' has no lower()")
  }

  predicate BadStatus(r: Dict)
  {
    Status(r).Err?
  }

  /** The runs whose status reads as `s`. */
  function Count(rows: seq<Dict>, s: string): (n: nat)
    ensures n <= |rows|
  {
    if rows == [] then 0
    else Count(rows[..|rows| - 1], s) + (if Status(rows[|rows| - 1]) == Ok(s) then 1 else 0)
  }

  /** The numeric durations, as floats, in order. */
  function Durations(rows: seq<Dict>): (d: seq<real>)
    ensures |d| <= |rows|
  {
    if rows == [] then []
    else
      var n := |rows| - 1;
      var dur := Get(rows[n], "duration_sec");
      Durations(rows[..n]) + (if IsNumber(dur) then [AsReal(dur)] else [])
  }

  /** `r.get("rows_fetched") or r.get("rows_processed")` when it is a number. */
  function RowsOf(r: Dict): int
  {
    var rf := Or(Get(r, "rows_fetched"), Get(r, "rows_processed"));
    if IsNumber(rf) then AsInt(rf) else 0
  }

  function RowsProcessed(rows: seq<Dict>): int
  {
    if rows == [] then 0 else RowsProcessed(rows[..|rows| - 1]) + RowsOf(rows[|rows| - 1])
  }

  function Finished(r: Dict, iso: string -> Option<IsoTime>): Option<int>
  {
    ParseTs(Get(r, "finished_at"), iso)
  }

  /** The running `last_finished_at`. */
  function LastFinished(rows: seq<Dict>, iso: string -> Option<IsoTime>): Option<int>
  {
    if rows == [] then None
    else
      var prev := LastFinished(rows[..|rows| - 1], iso);
      var f := Finished(rows[|rows| - 1], iso);
      if f.Some? && (prev.None? || f.value > prev.value) then f else prev
  }

  /** Successes and failures are disjoint kinds of run. */
  lemma {:induction false} CountsWithinRuns(rows: seq<Dict>)
    ensures Count(rows, "success") + Count(rows, "failed") <= |rows|
  {
    if rows != [] {
      CountsWithinRuns(rows[..|rows| - 1]);
    }
  }

  /** `last_finished_at` is the latest finish time that parses, and `None`
      exactly when none does. */
  lemma {:induction false} LastFinishedIsLatest(rows: seq<Dict>, iso: string -> Option<IsoTime>)
    ensures LastFinished(rows, iso).None? <==> forall i :: 0 <= i < |rows| ==> Finished(rows[i], iso).None?
    ensures LastFinished(rows, iso).Some? ==>
              (exists i :: 0 <= i < |rows| && Finished(rows[i], iso) == LastFinished(rows, iso))
              && forall i :: 0 <= i < |rows| && Finished(rows[i], iso).Some? ==>
                   Finished(rows[i], iso).value <= LastFinished(rows, iso).value
  {
    if rows != [] {
      var n := |rows| - 1;
      LastFinishedIsLatest(rows[..n], iso);
      assert forall i :: 0 <= i < n ==> rows[..n][i] == rows[i];
      var prev := LastFinished(rows[..n], iso);
      if prev.Some? && LastFinished(rows, iso) == prev {
        var i :| 0 <= i < n && Finished(rows[..n][i], iso) == prev;
        assert Finished(rows[i], iso) == LastFinished(rows, iso);
      }
    }
  }

  // ---------------------------------------------------------- the summary

  predicate Ascending(s: seq<real>)
  {
    forall i, j :: 0 <= i < j < |s| ==> s[i] <= s[j]
  }

  function Insert(x: real, s: seq<real>): (r: seq<real>)
    requires Ascending(s)
    ensures Ascending(r) && multiset(r) == multiset(s) + multiset{x}
  {
    if s == [] then [x]
    else if x <= s[0] then [x] + s
    else
      var t := Insert(x, s[1..]);
      BoundedMembers(s[0], t, s[1..], x);
      ConsAscending(s[0], t);
      assert s == [s[0]] + s[1..];
      [s[0]] + t
  }

  /** A list whose elements are those of `s` and `x`, all at least `a`, is
      bounded below by `a` element by element. */
  lemma BoundedMembers(a: real, t: seq<real>, s: seq<real>, x: real)
    requires multiset(t) == multiset(s) + multiset{x}
    requires a <= x && forall y :: y in s ==> a <= y
    ensures forall k :: 0 <= k < |t| ==> a <= t[k]
  {
    forall k | 0 <= k < |t| ensures a <= t[k] {
      assert t[k] in multiset(t);
      if t[k] != x {
        assert t[k] in multiset(s);
        assert t[k] in s;
      }
    }
  }

  lemma ConsAscending(a: real, t: seq<real>)
    requires Ascending(t) && forall k :: 0 <= k < |t| ==> a <= t[k]
    ensures Ascending([a] + t)
  {
  }

  /** `sorted(xs)`: ascending, with the same elements. */
  function Sorted(xs: seq<real>): (r: seq<real>)
    ensures Ascending(r) && multiset(r) == multiset(xs) && |r| == |xs|
  {
    if xs == [] then []
    else
      assert xs == [xs[0]] + xs[1..];
      Insert(xs[0], Sorted(xs[1..]))
  }

  function Sum(xs: seq<real>): real
  {
    if xs == [] then 0.0 else Sum(xs[..|xs| - 1]) + xs[|xs| - 1]
  }

  /** `max(xs)`. */
  function MaxOf(xs: seq<real>): (m: real)
    requires xs != []
    ensures m in xs && forall x :: x in xs ==> x <= m
  {
    if |xs| == 1 then xs[0]
    else
      var n := |xs| - 1;
      var p := MaxOf(xs[..n]);
      assert xs == xs[..n] + [xs[n]];
      if xs[n] > p then xs[n] else p
  }

  /** The middle of an ascending list: its middle element, or the mean of
      the two middle ones when the length is even. */
  function MiddleOf(s: seq<real>): real
    requires s != []
  {
    var mid := |s| / 2;
    if |s| % 2 == 1 then s[mid] else (s[mid - 1] + s[mid]) / 2.0
  }

  /** Average, median and maximum duration, each 0.0 without durations. */
  datatype Summary = Summary(avg: real, median: real, max: real)

  function Summarise(d: seq<real>): Summary
  {
    if d == [] then Summary(0.0, 0.0, 0.0)
    else Summary(Sum(d) / |d| as real, MiddleOf(Sorted(d)), MaxOf(d))
  }

  /** The maximum is the last element of the sorted durations. */
  lemma MaxIsLastSorted(d: seq<real>)
    requires d != []
    ensures MaxOf(d) == Sorted(d)[|d| - 1]
  {
    var s := Sorted(d);
    var last := s[|d| - 1];
    SortedMembers(d, last);
    SortedMembers(d, MaxOf(d));
    var k :| 0 <= k < |s| && s[k] == MaxOf(d);
    assert s[k] <= last;
  }

  lemma SortedMembers(d: seq<real>, x: real)
    ensures x in Sorted(d) <==> x in d
  {
    assert x in Sorted(d) <==> x in multiset(Sorted(d));
  }

  /** The median lies between the smallest and the largest duration. */
  lemma MedianWithinRange(d: seq<real>)
    requires d != []
    ensures Sorted(d)[0] <= Summarise(d).median <= Summarise(d).max
    ensures forall x :: x in d ==> Sorted(d)[0] <= x
  {
    MaxIsLastSorted(d);
    var s := Sorted(d);
    forall x | x in d ensures s[0] <= x {
      SortedMembers(d, x);
      var k :| 0 <= k < |s| && s[k] == x;
    }
  }

  /** The average is at most the maximum. */
  lemma {:induction false} SumAtMost(xs: seq<real>, m: real)
    requires forall x :: x in xs ==> x <= m
    ensures Sum(xs) <= |xs| as real * m
  {
    if xs != [] {
      var n := |xs| - 1;
      assert forall x :: x in xs[..n] ==> x in xs;
      SumAtMost(xs[..n], m);
      assert xs[n] in xs;
      assert |xs| as real * m == n as real * m + m;
    }
  }

  lemma AvgAtMostMax(d: seq<real>)
    ensures Summarise(d).avg <= Summarise(d).max
  {
    if d != [] {
      SumAtMost(d, MaxOf(d));
      var n := |d| as real;
      var s := Sum(d);
      assert s <= n * MaxOf(d);
      assert s / n <= MaxOf(d);
    }
  }

  /** The dict `compute_stats` returns. */
  datatype Stats = Stats(runs: nat, successes: nat, failures: nat, summary: Summary, rowsProcessed: int,
                         lastFinished: Option<int>)

  /** `compute_stats(rows)`: the loop over the runs, then the summary of the
      durations; a status that is not a string raises. */
  method ComputeStats(rows: seq<Dict>, iso: string -> Option<IsoTime>) returns (r: Result<Stats>)
    ensures r.Err? <==> exists i :: 0 <= i < |rows| && BadStatus(rows[i])
    ensures r.Ok? ==> r.value == Stats(|rows|, Count(rows, "success"), Count(rows, "failed"),
                                       Summarise(Durations(rows)), RowsProcessed(rows), LastFinished(rows, iso))
  {
    var successes, failures := 0, 0;
    var durations: seq<real> := [];
    var total := 0;
    var last: Option<int> := None;
    var i := 0;
    while i < |rows|
      invariant 0 <= i <= |rows|
      invariant forall j :: 0 <= j < i ==> !BadStatus(rows[j])
      invariant successes == Count(rows[..i], "success") && failures == Count(rows[..i], "failed")
      invariant durations == Durations(rows[..i])
      invariant total == RowsProcessed(rows[..i])
      invariant last == LastFinished(rows[..i], iso)
    {
      var status := Status(rows[i]);
      if status.Err? {
        return Err(status.msg);
      }
      successes, failures, durations, total, last := CountRun(rows, i, iso, status.value, successes, failures, durations, total, last);
      i := i + 1;
    }
    assert rows[..i] == rows;
    r := Ok(Stats(|rows|, successes, failures, Summarise(durations), total, last));
  }

  /** The body of `compute_stats`'s loop for run `i`, whose status reads
      as `status`. */
  method CountRun(rows: seq<Dict>, i: nat, iso: string -> Option<IsoTime>, status: string,
                  successes: nat, failures: nat, durations: seq<real>, total: int, last: Option<int>)
    returns (successes': nat, failures': nat, durations': seq<real>, total': int, last': Option<int>)
    requires i < |rows| && Status(rows[i]) == Ok(status)
    requires successes == Count(rows[..i], "success") && failures == Count(rows[..i], "failed")
    requires durations == Durations(rows[..i]) && total == RowsProcessed(rows[..i])
    requires last == LastFinished(rows[..i], iso)
    ensures successes' == Count(rows[..i + 1], "success") && failures' == Count(rows[..i + 1], "failed")
    ensures durations' == Durations(rows[..i + 1]) && total' == RowsProcessed(rows[..i + 1])
    ensures last' == LastFinished(rows[..i + 1], iso)
  {
    assert rows[..i + 1][..i] == rows[..i];
    var r := rows[i];
    successes', failures', durations', last' := successes, failures, durations, last;
    if status == "success" {
      successes' := successes + 1;
    } else if status == "failed" {
      failures' := failures + 1;
    }
    var dur := Get(r, "duration_sec");
    if IsNumber(dur) {
      durations' := durations + [AsReal(dur)];
    }
    total' := total + RowsOf(r);
    var finished := Finished(r, iso);
    if finished.Some? {
      if last.None? || finished.value > last.value {
        last' := finished;
      }
    }
  }

  // ---------------------------------------------------------- the daily row

  /** The row `upsert_daily_row` writes; `isoformat` renders a finish time. */
  function DailyRow(dateLocal: string, stats: Stats, isoformat: int -> string): (row: Dict)
    ensures row.Keys == {"job_name", "date_local", "runs", "success", "failed", "avg_duration_ms", "rows_total",
                         "last_finished_at"}
    ensures row["job_name"] == JStr(JobName) && row["date_local"] == JStr(dateLocal)
    ensures row["avg_duration_ms"] == (if stats.runs > 0 then JInt(Trunc(stats.summary.avg * 1000.0)) else JNull)
    ensures row["success"] == JInt(stats.successes) && row["failed"] == JInt(stats.failures)
    ensures row["runs"] == JInt(stats.runs) && row["rows_total"] == JInt(stats.rowsProcessed)
    ensures row["last_finished_at"] == (if stats.lastFinished.Some? then JStr(isoformat(stats.lastFinished.value)) else JNull)
  {
    map["job_name" := JStr(JobName), "date_local" := JStr(dateLocal), "runs" := JInt(stats.runs),
        "success" := JInt(stats.successes), "failed" := JInt(stats.failures),
        "avg_duration_ms" := (if stats.runs > 0 then JInt(Trunc(stats.summary.avg * 1000.0)) else JNull),
        "rows_total" := JInt(stats.rowsProcessed),
        "last_finished_at" := (if stats.lastFinished.Some? then JStr(isoformat(stats.lastFinished.value)) else JNull)]
  }

  /** The row is the job's row of that day. */
  predicate IsDay(r: Dict, dateLocal: string)
  {
    Get(r, "job_name") == JStr(JobName) && Get(r, "date_local") == JStr(dateLocal)
  }

  /** The delete of the job's rows of the day. */
  function DeleteDay(table: seq<Dict>, dateLocal: string): (r: seq<Dict>)
    ensures forall x :: x in r <==> x in table && !IsDay(x, dateLocal)
    ensures forall x :: multiset(r)[x] == if IsDay(x, dateLocal) then 0 else multiset(table)[x]
  {
    if table == [] then []
    else
      var n := |table| - 1;
      assert table == table[..n] + [table[n]];
      DeleteDay(table[..n], dateLocal) + (if IsDay(table[n], dateLocal) then [] else [table[n]])
  }

  /** Delete, then insert the new row at the end. */
  function ReplaceDaily(table: seq<Dict>, dateLocal: string, row: Dict): seq<Dict>
  {
    DeleteDay(table, dateLocal) + [row]
  }

  /** How many rows are the job's row of that day. */
  function DayRows(table: seq<Dict>, dateLocal: string): nat
  {
    if table == [] then 0
    else DayRows(table[..|table| - 1], dateLocal) + (if IsDay(table[|table| - 1], dateLocal) then 1 else 0)
  }

  lemma DayRowsSnoc(t: seq<Dict>, x: Dict, dateLocal: string)
    ensures DayRows(t + [x], dateLocal) == DayRows(t, dateLocal) + (if IsDay(x, dateLocal) then 1 else 0)
  {
    assert (t + [x])[..|t|] == t;
  }

  lemma {:induction false} NoDayRowsLeft(table: seq<Dict>, dateLocal: string)
    ensures DayRows(DeleteDay(table, dateLocal), dateLocal) == 0
  {
    if table != [] {
      var n := |table| - 1;
      NoDayRowsLeft(table[..n], dateLocal);
      var d := DeleteDay(table[..n], dateLocal);
      if !IsDay(table[n], dateLocal) {
        assert DeleteDay(table, dateLocal) == d + [table[n]];
        DayRowsSnoc(d, table[n], dateLocal);
      } else {
        assert DeleteDay(table, dateLocal) == d + [];
        assert d + [] == d;
      }
    }
  }

  /** After the write the table holds exactly one row for the job and day,
      the new one, and every other row is kept. */
  lemma OneRowPerDay(table: seq<Dict>, stats: Stats, dateLocal: string, isoformat: int -> string)
    ensures var t := ReplaceDaily(table, dateLocal, DailyRow(dateLocal, stats, isoformat));
            && DayRows(t, dateLocal) == 1
            && t[|t| - 1] == DailyRow(dateLocal, stats, isoformat)
            && forall x :: x in table && !IsDay(x, dateLocal) ==> x in t
  {
    var d := DeleteDay(table, dateLocal);
    var row := DailyRow(dateLocal, stats, isoformat);
    NoDayRowsLeft(table, dateLocal);
    DayRowsSnoc(d, row, dateLocal);
  }

  /** `main` without the HTML: today's runs, their statistics, the daily
      row replaced. */
  method Digest(allRows: seq<Dict>, startUtc: int, endUtc: int, dateLocal: string, iso: string -> Option<IsoTime>,
                isoformat: int -> string, table: seq<Dict>) returns (r: Result<seq<Dict>>)
    ensures r.Ok? <==> forall x :: x in RunsInWindow(allRows, startUtc, endUtc, iso) ==> !BadStatus(x)
    ensures r.Ok? ==> DayRows(r.value, dateLocal) == 1
    ensures r.Ok? ==>
              var rows := RunsInWindow(allRows, startUtc, endUtc, iso);
              var stats := Stats(|rows|, Count(rows, "success"), Count(rows, "failed"),
                                 Summarise(Durations(rows)), RowsProcessed(rows), LastFinished(rows, iso));
              && r.value[|r.value| - 1] == DailyRow(dateLocal, stats, isoformat)
              && (forall x :: x in table && !IsDay(x, dateLocal) ==> x in r.value)
              && r.value == DeleteDay(table, dateLocal) + [DailyRow(dateLocal, stats, isoformat)]
  {
    var rows := FetchJobsForToday(allRows, startUtc, endUtc, iso);
    var stats := ComputeStats(rows, iso);
    if stats.Err? {
      return Err(stats.msg);
    }
    OneRowPerDay(table, stats.value, dateLocal, isoformat);
    r := Ok(ReplaceDaily(table, dateLocal, DailyRow(dateLocal, stats.value, isoformat)));
  }
}
