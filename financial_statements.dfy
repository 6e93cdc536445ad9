// The analyst financial statements worker
// (analyst_financial_statements_worker.py): for each calendar symbol, take
// the two newest quarterly income statements, join the other statements of
// the same report date, add the rating, the analyst estimates and the last
// earnings before today with the close of the day before it, and upsert one
// record per report date.

module FinancialStatements {
  import opened Base
  import opened Text
  import opened Clock

  // ------------------------------------------------ rating and estimates

  /** `data[0] if data else None` inside a bare `try`/`except` that returns
      None: a list gives its first element, a string its first character,
      and a failed fetch, a falsy reply or one that cannot be indexed by 0
      (a dict with string keys, a number) gives None. */
  function FirstOrNone(fetched: Result<Json>): (r: Json)
    ensures fetched.Err? || !Truthy(fetched.value) ==> r == JNull
    ensures fetched.Ok? && fetched.value.JList? && fetched.value.items != [] ==> r == fetched.value.items[0]
    ensures fetched.Ok? && (fetched.value.JObj? || IsNumber(fetched.value)) ==> r == JNull
  {
    match fetched
    case Err(_) => JNull
    case Ok(data) =>
      if !Truthy(data) then JNull
      else match data
        case JList(items) => items[0]
        case JStr(s) => JStr([s[0]])
        case _ => JNull
  }

  /** `if row is None: row = {}` followed by `row.get(...)`: None reads as an
      empty dict, and anything but a dict raises `AttributeError`. */
  function DictOrEmpty(v: Json): (r: Result<Dict>)
    ensures r.Ok? <==> v.JNull? || v.JObj?
    ensures v.JNull? ==> r == Ok(map[])
    ensures v.JObj? ==> r == Ok(v.fields)
  {
    match v
    case JNull => Ok(map[])
    case JObj(fields) => Ok(fields)
    case _ => Err("AttributeError: object has no attribute 'get'")
  }

  // ------------------------------------------------ statements by date

  /** `{r.get("date"): r for r in items}`: later rows replace earlier rows of
      the same date; a row that is not a dict, or whose date cannot be a key,
      raises. */
  function IndexByDate(items: seq<Json>): (r: Result<map<Json, Dict>>)
    ensures r.Ok? <==> forall i :: 0 <= i < |items| ==> items[i].JObj? && Hashable(Get(items[i].fields, "date"))
  {
    if items == [] then Ok(map[])
    else
      var n := |items| - 1;
      match IndexByDate(items[..n])
      case Err(e) => Err(e)
      case Ok(m) =>
        if !items[n].JObj? then Err("AttributeError: object has no attribute 'get'")
        else if !Hashable(Get(items[n].fields, "date")) then Err("TypeError: unhashable type")
        else Ok(m[Get(items[n].fields, "date") := items[n].fields])
  }

  /** The row `IndexByDate` keeps for a date is the last row of that date. */
  predicate LastOfDate(items: seq<Json>, k: Json, i: int)
  {
    && 0 <= i < |items| && items[i].JObj? && Get(items[i].fields, "date") == k
    && forall j :: i < j < |items| && items[j].JObj? ==> Get(items[j].fields, "date") != k
  }

  /** A date is a key exactly when some row has it. */
  lemma {:induction false} IndexByDateKeys(items: seq<Json>, k: Json)
    requires IndexByDate(items).Ok?
    ensures k in IndexByDate(items).value <==> exists i :: 0 <= i < |items| && Get(items[i].fields, "date") == k
    decreases |items|
  {
    if items != [] {
      var n := |items| - 1;
      var pre := items[..n];
      IndexByDateKeys(pre, k);
      var m := IndexByDate(pre).value;
      assert IndexByDate(items).value == m[Get(items[n].fields, "date") := items[n].fields];
      if k in m {
        var i :| 0 <= i < |pre| && Get(pre[i].fields, "date") == k;
        assert items[i] == pre[i];
      }
      if exists i :: 0 <= i < |items| && Get(items[i].fields, "date") == k {
        var i :| 0 <= i < |items| && Get(items[i].fields, "date") == k;
        if i < n {
          assert pre[i] == items[i];
        }
      }
    }
  }

  /** The row kept for a date is the last row of that date. */
  lemma {:induction false} IndexByDateLast(items: seq<Json>, k: Json)
    requires IndexByDate(items).Ok? && k in IndexByDate(items).value
    ensures exists i :: LastOfDate(items, k, i) && items[i].fields == IndexByDate(items).value[k]
    decreases |items|
  {
    var n := |items| - 1;
    var pre := items[..n];
    var m := IndexByDate(pre).value;
    assert IndexByDate(items).value == m[Get(items[n].fields, "date") := items[n].fields];
    if Get(items[n].fields, "date") == k {
      assert LastOfDate(items, k, n);
    } else {
      IndexByDateLast(pre, k);
      var i :| LastOfDate(pre, k, i) && pre[i].fields == m[k];
      assert items[i] == pre[i];
      assert LastOfDate(items, k, i);
    }
  }

  /** `{r.get("date"): r for r in rows or []}` where a failed fetch was
      replaced by `[]`: an empty or failed fetch gives an empty index, and a
      truthy reply that is not a list raises when its elements are read as
      rows. */
  function ByDate(fetched: Result<Json>): (r: Result<map<Json, Dict>>)
    ensures fetched.Err? || !Truthy(fetched.value) ==> r == Ok(map[])
    ensures r.Ok? && r.value != map[] ==> fetched.Ok? && fetched.value.JList? && r == IndexByDate(fetched.value.items)
  {
    if fetched.Err? || !Truthy(fetched.value) then Ok(map[])
    else if !fetched.value.JList? then Err("AttributeError: object has no attribute 'get'")
    else IndexByDate(fetched.value.items)
  }

  /** `by_date.get(report_date)`. */
  function Lookup(m: map<Json, Dict>, k: Json): Option<Dict>
  {
    if k in m then Some(m[k]) else None
  }

  // ------------------------------------------------ last earnings (D11)

  /** A row whose `date` is a string. */
  predicate Dated(row: Dict)
  {
    Get(row, "date").JStr?
  }

  function DateText(row: Dict): string
    requires Dated(row)
  {
    Get(row, "date").s
  }

  /** `[row for row in r if row.get("date") and row["date"] < today]`: a row
      that is not a dict raises, and so does a truthy date that is not a
      string, since it cannot be compared with the text `today`. */
  function PastRows(items: seq<Json>, today: string): (r: Result<seq<Dict>>)
    ensures r.Ok? ==> forall i :: 0 <= i < |items| ==> items[i].JObj?
    ensures r.Ok? ==> forall row :: row in r.value ==>
              JObj(row) in items && Dated(row) && DateText(row) != [] && LexLt(DateText(row), today)
    ensures r.Ok? ==> forall i :: 0 <= i < |items| && Truthy(Get(items[i].fields, "date")) ==>
              Dated(items[i].fields) && (LexLt(DateText(items[i].fields), today) ==> items[i].fields in r.value)
  {
    if items == [] then Ok([])
    else match PastRows(items[1..], today)
      case Err(e) => Err(e)
      case Ok(rest) =>
        if !items[0].JObj? then Err("AttributeError: object has no attribute 'get'")
        else
          var row := items[0].fields;
          if !Truthy(Get(row, "date")) then Ok(rest)
          else if !Dated(row) then Err("TypeError: '<' not supported")
          else if LexLt(DateText(row), today) then Ok([row] + rest)
          else Ok(rest)
  }

  /** `sorted(past, key=lambda x: x["date"], reverse=True)[0]`: the row with
      the greatest date, the first of them when several share it (Python's
      sort is stable, and stays so in reverse). */
  function Newest(past: seq<Dict>): (r: Dict)
    requires past != [] && forall row :: row in past ==> Dated(row)
    ensures r in past
    decreases |past|
  {
    if |past| == 1 then past[0]
    else
      var rest := Newest(past[1..]);
      if LexLt(DateText(past[0]), DateText(rest)) then rest else past[0]
  }

  /** No row of the list is later than `Newest`. */
  lemma {:induction false} NewestIsGreatest(past: seq<Dict>)
    requires past != [] && forall row :: row in past ==> Dated(row)
    ensures forall row :: row in past ==> LexLe(DateText(row), DateText(Newest(past)))
    decreases |past|
  {
    if |past| > 1 {
      var tail := past[1..];
      var rest := Newest(tail);
      NewestIsGreatest(tail);
      var a, b := DateText(past[0]), DateText(rest);
      if LexLt(a, b) {
        forall row | row in past ensures LexLe(DateText(row), b) {
          if row != past[0] {
            assert row in tail;
          }
        }
      } else {
        LexLeTotal(a, b);
        forall row | row in past ensures LexLe(DateText(row), a) {
          if row != past[0] {
            assert row in tail;
            LexLeTransitive(DateText(row), b, a);
          }
        }
      }
    }
  }

  /** Every row before `Newest` is earlier: of the rows sharing the greatest
      date, the first one is taken. */
  lemma {:induction false} NewestIsFirst(past: seq<Dict>)
    requires past != [] && forall row :: row in past ==> Dated(row)
    ensures exists i :: 0 <= i < |past| && past[i] == Newest(past)
                        && forall j :: 0 <= j < i ==> LexLt(DateText(past[j]), DateText(Newest(past)))
    decreases |past|
  {
    if |past| == 1 {
      assert past[0] == Newest(past);
    } else {
      var tail := past[1..];
      var rest := Newest(tail);
      var b := DateText(rest);
      if LexLt(DateText(past[0]), b) {
        NewestIsFirst(tail);
        var i :| 0 <= i < |tail| && tail[i] == rest && forall j :: 0 <= j < i ==> LexLt(DateText(tail[j]), b);
        assert past[i + 1] == rest;
        forall j | 0 <= j < i + 1 ensures LexLt(DateText(past[j]), b) {
          if j > 0 {
            assert past[j] == tail[j - 1];
          }
        }
      } else {
        assert past[0] == Newest(past);
      }
    }
  }

  /** `get_last_earnings` given the reply of the earnings-calendar request
      (an exception there is not caught) and `today` as "%Y-%m-%d". */
  function LastEarnings(fetched: Result<Json>, today: string): (r: Result<Option<Dict>>)
    ensures r.Ok? && r.value.Some? ==> Dated(r.value.value)
  {
    match fetched
    case Err(e) => Err(e)
    case Ok(data) =>
      if !Truthy(data) then Ok(None)
      else if !data.JList? then Err("AttributeError: object has no attribute 'get'")
      else match PastRows(data.items, today)
        case Err(e) => Err(e)
        case Ok(past) =>
          if past == [] then Ok(None)
          else
            NewestIsGreatest(past);
            Ok(Some(Newest(past)))
  }

  /** The row `get_last_earnings` returns is a fetched row dated before
      today, and no fetched row dated before today is later; when it returns
      None, no fetched row is dated before today. */
  lemma LastEarningsIsLatestPast(fetched: Result<Json>, today: string)
    requires LastEarnings(fetched, today).Ok?
    ensures var r := LastEarnings(fetched, today).value;
            r.Some? ==> fetched.Ok? && JObj(r.value) in fetched.value.items
                        && DateText(r.value) != [] && LexLt(DateText(r.value), today)
    ensures var r := LastEarnings(fetched, today).value;
            forall i :: fetched.Ok? && fetched.value.JList? && 0 <= i < |fetched.value.items|
                        && fetched.value.items[i].JObj? && Truthy(Get(fetched.value.items[i].fields, "date")) ==>
              Dated(fetched.value.items[i].fields)
              && (LexLt(DateText(fetched.value.items[i].fields), today) ==>
                    r.Some? && LexLe(DateText(fetched.value.items[i].fields), DateText(r.value)))
  {
    if fetched.Ok? && fetched.value.JList? && Truthy(fetched.value) {
      var past := PastRows(fetched.value.items, today).value;
      if past != [] {
        NewestIsGreatest(past);
      }
    }
  }

  /** A date parser that, like `strptime`, only produces calendar dates. */
  ghost predicate ParsesDates(parseDate: string -> Option<Date>)
  {
    forall s :: parseDate(s).Some? ==> parseDate(s).value.Valid()
  }

  /** `r["historical"][0]["close"]` inside a `try` that returns None on any
      failure. */
  function HistoricalClose(reply: Json): (r: Json)
    ensures r != JNull ==> reply.JObj? && "historical" in reply.fields && reply.fields["historical"].JList?
                           && reply.fields["historical"].items != [] && reply.fields["historical"].items[0].JObj?
                           && r == Get(reply.fields["historical"].items[0].fields, "close")
  {
    if reply.JObj? && "historical" in reply.fields then
      var h := reply.fields["historical"];
      if h.JList? && h.items != [] && h.items[0].JObj? then Get(h.items[0].fields, "close") else JNull
    else JNull
  }

  /** `get_close_before_earnings`: an unparseable date gives None; otherwise
      the daily prices of the day before are requested (from = to = that
      day) and their first close is read. `price` stands for that request,
      whose failure is not caught; the day before 0001-01-01 overflows. */
  function CloseBefore(earningsDate: string, parseDate: string -> Option<Date>,
                       price: string -> Result<Json>): (r: Result<Json>)
    requires ParsesDates(parseDate)
    ensures parseDate(earningsDate).None? ==> r == Ok(JNull)
    ensures parseDate(earningsDate).Some? && parseDate(earningsDate).value != Date(1, 1, 1) ==>
              var day := PrevDay(parseDate(earningsDate).value);
              && DateLt(day, parseDate(earningsDate).value) && NextDay(day) == parseDate(earningsDate).value
              && (r.Ok? <==> price(Iso(day)).Ok?)
              && (r.Ok? ==> r.value == HistoricalClose(price(Iso(day)).value))
  {
    match parseDate(earningsDate)
    case None => Ok(JNull)
    case Some(d) =>
      if d == Date(1, 1, 1) then Err("OverflowError: date value out of range")
      else
        match price(Iso(PrevDay(d)))
        case Err(e) => Err(e)
        case Ok(reply) => Ok(HistoricalClose(reply))
  }

  /** The three D11 columns: last earnings date, its time (BMO / AMC) and the
      close before it. */
  datatype D11 = D11(date: Json, time: Json, closeBefore: Json)

  /** `get_d11`: all None when no earnings row is dated before today. */
  function GetD11(earnings: Result<Json>, today: string, parseDate: string -> Option<Date>,
                  price: string -> Result<Json>): (r: Result<D11>)
    requires ParsesDates(parseDate)
    ensures LastEarnings(earnings, today) == Ok(None) ==> r == Ok(D11(JNull, JNull, JNull))
    ensures r.Ok? && r.value.date != JNull ==>
              && LastEarnings(earnings, today).Ok? && LastEarnings(earnings, today).value.Some?
              && r.value.date == Get(LastEarnings(earnings, today).value.value, "date")
              && r.value.time == Get(LastEarnings(earnings, today).value.value, "time")
              && Ok(r.value.closeBefore) == CloseBefore(DateText(LastEarnings(earnings, today).value.value), parseDate, price)
  {
    match LastEarnings(earnings, today)
    case Err(e) => Err(e)
    case Ok(None) => Ok(D11(JNull, JNull, JNull))
    case Ok(Some(last)) =>
      match CloseBefore(DateText(last), parseDate, price)
      case Err(e) => Err(e)
      case Ok(close) => Ok(D11(Get(last, "date"), Get(last, "time"), close))
  }

  // ------------------------------------------------ the two newest income statements

  /** The reply's elements as dicts; `x.get(...)` raises on any other value. */
  function AsDicts(items: seq<Json>): (r: Result<seq<Dict>>)
    ensures r.Ok? <==> forall i :: 0 <= i < |items| ==> items[i].JObj?
    ensures r.Ok? ==> |r.value| == |items| && forall i :: 0 <= i < |items| ==> items[i] == JObj(r.value[i])
  {
    if items == [] then Ok([])
    else if !items[0].JObj? then Err("AttributeError: object has no attribute 'get'")
    else match AsDicts(items[1..])
      case Err(e) => Err(e)
      case Ok(rest) => Ok([items[0].fields] + rest)
  }

  /** `x.get("date", "")`, the sort key of an income statement. */
  function SortKey(row: Dict): Json
  {
    if "date" in row then row["date"] else JStr("")
  }

  predicate TextKeys(rows: seq<Dict>)
  {
    forall i :: 0 <= i < |rows| ==> SortKey(rows[i]).JStr?
  }

  /** In the order of `sorted(..., reverse=True)`: no row is later than one
      before it. */
  predicate NewestFirst(rows: seq<Dict>)
    requires TextKeys(rows)
  {
    forall i, j :: 0 <= i < j < |rows| ==> LexLe(SortKey(rows[j]).s, SortKey(rows[i]).s)
  }

  /** A row not earlier than any row of a newest-first list can go first. */
  lemma PrependNewest(x: Dict, s: seq<Dict>)
    requires SortKey(x).JStr? && TextKeys(s) && NewestFirst(s)
    requires forall j :: 0 <= j < |s| ==> LexLe(SortKey(s[j]).s, SortKey(x).s)
    ensures TextKeys([x] + s) && NewestFirst([x] + s)
  {
    var r := [x] + s;
    forall i, j | 0 <= i < j < |r| ensures LexLe(SortKey(r[j]).s, SortKey(r[i]).s) {
      assert r[j] == s[j - 1];
      if i > 0 {
        assert r[i] == s[i - 1];
      }
    }
  }

  /** In a newest-first list no row is later than the first. */
  lemma FirstIsNewest(s: seq<Dict>, x: Dict)
    requires TextKeys(s) && NewestFirst(s) && SortKey(x).JStr?
    requires s == [] || LexLe(SortKey(s[0]).s, SortKey(x).s)
    ensures forall j :: 0 <= j < |s| ==> LexLe(SortKey(s[j]).s, SortKey(x).s)
  {
    forall j | 0 < j < |s| ensures LexLe(SortKey(s[j]).s, SortKey(x).s) {
      LexLeTransitive(SortKey(s[j]).s, SortKey(s[0]).s, SortKey(x).s);
    }
  }

  /** Inserting a row earlier than the head into the tail keeps every row
      not later than the head. */
  lemma BelowHead(x: Dict, s: seq<Dict>, t: seq<Dict>)
    requires SortKey(x).JStr? && TextKeys(s) && NewestFirst(s) && s != []
    requires LexLt(SortKey(x).s, SortKey(s[0]).s)
    requires TextKeys(t) && multiset(t) == multiset(s[1..]) + multiset{x}
    ensures forall j :: 0 <= j < |t| ==> LexLe(SortKey(t[j]).s, SortKey(s[0]).s)
  {
    forall j | 0 <= j < |t| ensures LexLe(SortKey(t[j]).s, SortKey(s[0]).s) {
      assert t[j] in multiset(t);
      if t[j] != x {
        assert t[j] in s[1..];
        var m :| 0 <= m < |s[1..]| && s[1..][m] == t[j];
        assert s[m + 1] == t[j];
      }
    }
  }

  /** Puts `x` before the first row that is not later than it, so that rows
      with equal keys keep their order, as Python's stable sort does. */
  function InsertNewest(x: Dict, s: seq<Dict>): (r: seq<Dict>)
    requires SortKey(x).JStr? && TextKeys(s) && NewestFirst(s)
    ensures TextKeys(r) && NewestFirst(r)
    ensures multiset(r) == multiset(s) + multiset{x}
  {
    if s == [] || LexLe(SortKey(s[0]).s, SortKey(x).s) then
      FirstIsNewest(s, x);
      PrependNewest(x, s);
      [x] + s
    else
      LexLeTotal(SortKey(s[0]).s, SortKey(x).s);
      var t := InsertNewest(x, s[1..]);
      BelowHead(x, s, t);
      PrependNewest(s[0], t);
      assert s == [s[0]] + s[1..];
      [s[0]] + t
  }

  /** `sorted(rows, key=lambda x: x.get("date", ""), reverse=True)` once every
      key is a string. */
  function SortNewest(rows: seq<Dict>): (r: seq<Dict>)
    requires TextKeys(rows)
    ensures TextKeys(r) && NewestFirst(r)
    ensures multiset(r) == multiset(rows)
  {
    if rows == [] then []
    else
      assert rows == [rows[0]] + rows[1..];
      InsertNewest(rows[0], SortNewest(rows[1..]))
  }

  /** `sorted(income_list, key=lambda x: x.get("date", ""), reverse=True)[:2]`
      of a truthy reply: a single statement needs no comparison; with two or
      more, a key that is not a string cannot be ordered against the others
      (a missing date reads as "" and a null date as None) and raises. */
  function TopTwo(income: Json): (r: Result<seq<Dict>>)
    ensures r.Ok? ==> income.JList? && AsDicts(income.items).Ok?
    ensures r.Ok? ==> |r.value| == if |income.items| < 2 then |income.items| else 2
  {
    if !income.JList? then Err("AttributeError: object has no attribute 'get'")
    else match AsDicts(income.items)
      case Err(e) => Err(e)
      case Ok(rows) =>
        if |rows| < 2 then Ok(rows)
        else if !TextKeys(rows) then Err("TypeError: '<' not supported")
        else Ok(SortNewest(rows)[..2])
  }

  /** In a newest-first list every row from the third on is not later than
      the second. */
  lemma AfterSecond(sorted: seq<Dict>, x: Dict)
    requires TextKeys(sorted) && NewestFirst(sorted) && |sorted| >= 2
    requires x in sorted[2..]
    ensures LexLe(SortKey(x).s, SortKey(sorted[1]).s)
  {
    var m :| 0 <= m < |sorted[2..]| && sorted[2..][m] == x;
    assert sorted[m + 2] == x;
  }

  /** No row is later than the head of its newest-first arrangement. */
  lemma HeadIsNewest(rows: seq<Dict>, sorted: seq<Dict>)
    requires TextKeys(sorted) && NewestFirst(sorted) && sorted != []
    requires TextKeys(rows) && multiset(sorted) == multiset(rows)
    ensures forall x :: x in rows ==> LexLe(SortKey(x).s, SortKey(sorted[0]).s)
  {
    FirstIsNewest(sorted, sorted[0]);
    forall x | x in rows ensures LexLe(SortKey(x).s, SortKey(sorted[0]).s) {
      assert x in multiset(sorted);
      var m :| 0 <= m < |sorted| && sorted[m] == x;
    }
  }

  /** The rows left out by taking two are not later than the second. */
  lemma RestBelowSecond(rows: seq<Dict>, sorted: seq<Dict>)
    requires TextKeys(sorted) && NewestFirst(sorted) && |sorted| >= 2
    requires TextKeys(rows) && multiset(sorted) == multiset(rows)
    ensures forall x :: x in multiset(rows) - multiset(sorted[..2]) ==> LexLe(SortKey(x).s, SortKey(sorted[1]).s)
  {
    assert sorted == sorted[..2] + sorted[2..];
    assert multiset(rows) - multiset(sorted[..2]) == multiset(sorted[2..]);
    forall x | x in multiset(sorted[2..]) ensures LexLe(SortKey(x).s, SortKey(sorted[1]).s) {
      AfterSecond(sorted, x);
    }
  }

  /** The first two rows of a newest-first arrangement are the two newest. */
  lemma NewestTwo(rows: seq<Dict>, sorted: seq<Dict>)
    requires TextKeys(rows) && TextKeys(sorted) && NewestFirst(sorted) && |sorted| >= 2
    requires multiset(sorted) == multiset(rows)
    ensures multiset(sorted[..2]) <= multiset(rows)
    ensures TextKeys(sorted[..2])
    ensures forall x :: x in rows ==> LexLe(SortKey(x).s, SortKey(sorted[0]).s)
    ensures forall x :: x in multiset(rows) - multiset(sorted[..2]) ==> LexLe(SortKey(x).s, SortKey(sorted[1]).s)
  {
    var top := sorted[..2];
    assert multiset(sorted) == multiset(top) + multiset(sorted[2..]) by {
      assert sorted == top + sorted[2..];
    }
    assert top[0] == sorted[0] && top[1] == sorted[1];
    HeadIsNewest(rows, sorted);
    RestBelowSecond(rows, sorted);
  }

  /** The rows kept are statements of the reply, newest first, and no
      statement left out is later than the second one kept. */
  lemma TopTwoAreNewest(income: Json)
    requires TopTwo(income).Ok?
    ensures var rows := AsDicts(income.items).value;
            var top := TopTwo(income).value;
            && multiset(top) <= multiset(rows)
            && (|rows| >= 2 ==>
                  && TextKeys(rows) && TextKeys(top) && LexLe(SortKey(top[1]).s, SortKey(top[0]).s)
                  && (forall x :: x in rows ==> LexLe(SortKey(x).s, SortKey(top[0]).s))
                  && (forall x :: x in multiset(rows) - multiset(top) ==> LexLe(SortKey(x).s, SortKey(top[1]).s)))
  {
    var rows := AsDicts(income.items).value;
    if |rows| >= 2 {
      NewestTwo(rows, SortNewest(rows));
    }
  }

  // ------------------------------------------------ the record

  const IncomeColumns: seq<(string, string)> := [
    ("fiscal_year", "calendarYear"), ("fiscal_period", "period"), ("currency", "reportedCurrency"),
    ("revenue", "revenue"), ("gross_profit", "grossProfit"), ("operating_income", "operatingIncome"),
    ("net_income", "netIncome"), ("eps_basic", "eps"), ("ebitda", "ebitda"),
    ("operating_expenses", "operatingExpenses")]

  const BalanceColumns: seq<(string, string)> := [
    ("total_assets", "totalAssets"), ("total_liabilities", "totalLiabilities"),
    ("total_equity", "totalStockholdersEquity"), ("cash_and_equivalents", "cashAndCashEquivalents"),
    ("total_current_assets", "totalCurrentAssets"), ("total_current_liabilities", "totalCurrentLiabilities"),
    ("short_term_debt", "shortTermDebt"), ("long_term_debt", "longTermDebt")]

  /** The cash-flow columns other than `share_buybacks` (the provider's
      spelling "Activites" is the key read). */
  const CashColumns: seq<(string, string)> := [
    ("operating_cash_flow", "netCashProvidedByOperatingActivities"),
    ("investing_cash_flow", "netCashUsedForInvestingActivites"),
    ("financing_cash_flow", "netCashUsedProvidedByFinancingActivities"),
    ("free_cash_flow", "freeCashFlow"), ("capital_expenditure", "capitalExpenditure"),
    ("dividends_paid", "dividendsPaid"), ("debt_issued", "debtIssued"), ("debt_repaid", "debtRepayment"),
    ("stock_based_compensation", "stockBasedCompensation")]

  /** The ratio columns, including `roe` and `roa`, which repeat
      `return_on_equity` and `return_on_assets`. */
  const RatioColumns: seq<(string, string)> := RatioColumnsFirst + RatioColumnsLast

  const RatioColumnsFirst: seq<(string, string)> := [
    ("gross_margin", "grossProfitMargin"), ("operating_margin", "operatingProfitMargin"),
    ("net_margin", "netProfitMargin"), ("return_on_equity", "returnOnEquity"),
    ("return_on_assets", "returnOnAssets"), ("current_ratio", "currentRatio"),
    ("debt_to_equity", "debtEquityRatio"), ("interest_coverage", "interestCoverage")]

  const RatioColumnsLast: seq<(string, string)> := [
    ("payout_ratio", "payoutRatio"), ("free_cash_flow_margin", "freeCashFlowMargin"),
    ("roe", "returnOnEquity"), ("roa", "returnOnAssets"), ("inventory_turnover", "inventoryTurnover"),
    ("asset_turnover", "assetTurnover"), ("return_on_tangible_assets", "returnOnTangibleAssets")]

  const GrowthColumns: seq<(string, string)> := [
    ("revenue_growth", "revenueGrowth"), ("gross_profit_growth", "grossProfitGrowth"),
    ("operating_income_growth", "operatingIncomeGrowth"), ("net_income_growth", "netIncomeGrowth"),
    ("eps_growth", "epsGrowth"), ("operating_cash_flow_growth", "operatingCashFlowGrowth"),
    ("free_cash_flow_growth", "freeCashFlowGrowth")]

  /** The key-metric columns other than `ps_ratio`. */
  const MetricColumns: seq<(string, string)> := [
    ("market_cap", "marketCap"), ("enterprise_value", "enterpriseValue"), ("pe_ratio", "peRatio"),
    ("forward_pe_ratio", "peRatioForward"), ("pb_ratio", "pbRatio"),
    ("price_to_free_cash_flow", "pfcfRatio"), ("ev_to_ebitda", "evToEbitda"),
    ("ev_to_sales", "evToSales"), ("dividend_yield", "dividendYield")]

  const RatingColumns: seq<(string, string)> := [
    ("rating", "rating"), ("rating_score", "ratingScore"), ("rating_recommendation", "ratingRecommendation"),
    ("rating_dcf_score", "ratingDetailsDCFScore"), ("rating_roe_score", "ratingDetailsROEScore"),
    ("rating_roa_score", "ratingDetailsROAScore"), ("rating_de_score", "ratingDetailsDEScore"),
    ("rating_pe_score", "ratingDetailsPEScore"), ("rating_pb_score", "ratingDetailsPBScore")]

  const EstimateColumns: seq<(string, string)> := [
    ("estimate_date", "date"), ("estimate_period", "period"), ("estimated_eps_avg", "estimatedEpsAvg"),
    ("estimated_eps_low", "estimatedEpsLow"), ("estimated_eps_high", "estimatedEpsHigh"),
    ("number_analysts_estimated", "numberAnalystEstimated")]

  /** One row of `analyst_input_financial_statements`, held as the
      statements its columns are read from (a missing statement as `{}`);
      `Columns` and the two fallbacks give the column values. */
  datatype Record = Record(
    symbol: Json, reportDate: Json,
    income: Dict, balance: Dict, cash: Dict, ratios: Dict, growth: Dict, metrics: Dict,
    rating: Dict, estimates: Dict, d11: D11)

  /** The statements a record reads. */
  datatype Statement = Income | Balance | CashFlow | Ratios | Growth | Metrics | Rating | Estimates

  /** The statement row a record reads for `st`. */
  function RowOf(rec: Record, st: Statement): Dict
  {
    match st
    case Income => rec.income
    case Balance => rec.balance
    case CashFlow => rec.cash
    case Ratios => rec.ratios
    case Growth => rec.growth
    case Metrics => rec.metrics
    case Rating => rec.rating
    case Estimates => rec.estimates
  }

  /** The (column, key) pairs read from `st`. */
  function PairsOf(st: Statement): seq<(string, string)>
  {
    match st
    case Income => IncomeColumns
    case Balance => BalanceColumns
    case CashFlow => CashColumns
    case Ratios => RatioColumns
    case Growth => GrowthColumns
    case Metrics => MetricColumns
    case Rating => RatingColumns
    case Estimates => EstimateColumns
  }

  /** The columns read from one statement: `{column: row.get(key), ...}`. */
  function Columns(rec: Record, st: Statement): Dict
  {
    Project(RowOf(rec, st), PairsOf(st))
  }

  // No column is listed twice for one statement.
  lemma IncomeColumnsDistinct() ensures DistinctColumns(IncomeColumns) {}
  lemma BalanceColumnsDistinct() ensures DistinctColumns(BalanceColumns) {}
  lemma CashColumnsDistinct() ensures DistinctColumns(CashColumns) {}
  lemma RatioColumnsFirstDistinct() ensures DistinctColumns(RatioColumnsFirst) {}
  lemma RatioColumnsLastDistinct() ensures DistinctColumns(RatioColumnsLast) {}
  lemma RatioColumnsApart()
    ensures forall i, j :: 0 <= i < |RatioColumnsFirst| && 0 <= j < |RatioColumnsLast| ==>
              RatioColumnsFirst[i].0 != RatioColumnsLast[j].0
  {}

  lemma RatioColumnsDistinct() ensures DistinctColumns(RatioColumns)
  {
    RatioColumnsFirstDistinct();
    RatioColumnsLastDistinct();
    RatioColumnsApart();
    DistinctConcat(RatioColumnsFirst, RatioColumnsLast);
  }
  lemma GrowthColumnsDistinct() ensures DistinctColumns(GrowthColumns) {}
  lemma MetricColumnsDistinct() ensures DistinctColumns(MetricColumns) {}
  lemma RatingColumnsDistinct() ensures DistinctColumns(RatingColumns) {}
  lemma EstimateColumnsDistinct() ensures DistinctColumns(EstimateColumns) {}

  lemma PairsDistinct(st: Statement)
    ensures DistinctColumns(PairsOf(st))
  {
    match st
    case Income => IncomeColumnsDistinct();
    case Balance => BalanceColumnsDistinct();
    case CashFlow => CashColumnsDistinct();
    case Ratios => RatioColumnsDistinct();
    case Growth => GrowthColumnsDistinct();
    case Metrics => MetricColumnsDistinct();
    case Rating => RatingColumnsDistinct();
    case Estimates => EstimateColumnsDistinct();
  }

  /** Each column of the record holds `row.get(key)` of its statement, so a
      key the provider did not send reads as None. */
  lemma ColumnReadsKey(rec: Record, st: Statement, k: nat)
    requires k < |PairsOf(st)|
    ensures PairsOf(st)[k].0 in Columns(rec, st)
    ensures Columns(rec, st)[PairsOf(st)[k].0] == Get(RowOf(rec, st), PairsOf(st)[k].1)
  {
    PairsDistinct(st);
    ProjectAt(RowOf(rec, st), PairsOf(st), k);
  }

  /** `share_buybacks`: `commonStockRepurchased`, or when that is falsy
      `repurchaseOfCapitalStock`. */
  function ShareBuybacks(rec: Record): (r: Json)
    ensures Truthy(Get(rec.cash, "commonStockRepurchased")) ==> r == Get(rec.cash, "commonStockRepurchased")
    ensures !Truthy(Get(rec.cash, "commonStockRepurchased")) ==> r == Get(rec.cash, "repurchaseOfCapitalStock")
  {
    Or(Get(rec.cash, "commonStockRepurchased"), Get(rec.cash, "repurchaseOfCapitalStock"))
  }

  /** `ps_ratio`: `psRatio`, or when that is falsy `priceToSalesRatio`. */
  function PsRatio(rec: Record): (r: Json)
    ensures Truthy(Get(rec.metrics, "psRatio")) ==> r == Get(rec.metrics, "psRatio")
    ensures !Truthy(Get(rec.metrics, "psRatio")) ==> r == Get(rec.metrics, "priceToSalesRatio")
  {
    Or(Get(rec.metrics, "psRatio"), Get(rec.metrics, "priceToSalesRatio"))
  }

  /** `if row is None: row = {}` for a statement found by date. */
  function OrEmpty(row: Option<Dict>): Dict
  {
    if row.Some? then row.value else map[]
  }

  /** `build_record_from_row`: a rating or estimates value that is neither
      None nor a dict raises at its first `.get`. */
  function BuildRecord(symbol: Json, income: Dict, balance: Option<Dict>, cash: Option<Dict>,
                       ratios: Option<Dict>, growth: Option<Dict>, metrics: Option<Dict>,
                       rating: Json, estimates: Json, d11: D11): (r: Result<Record>)
    ensures r.Ok? <==> DictOrEmpty(rating).Ok? && DictOrEmpty(estimates).Ok?
    ensures r.Ok? ==> r.value.symbol == symbol && r.value.reportDate == Get(income, "date") && r.value.d11 == d11
    ensures r.Ok? ==> && (balance.None? ==> r.value.balance == map[]) && (cash.None? ==> r.value.cash == map[])
                      && (ratios.None? ==> r.value.ratios == map[]) && (growth.None? ==> r.value.growth == map[])
                      && (metrics.None? ==> r.value.metrics == map[])
                      && (rating.JNull? ==> r.value.rating == map[]) && (estimates.JNull? ==> r.value.estimates == map[])
  {
    match (DictOrEmpty(rating), DictOrEmpty(estimates))
    case (Ok(ra), Ok(es)) =>
      Ok(Record(symbol, Get(income, "date"), income, OrEmpty(balance), OrEmpty(cash), OrEmpty(ratios),
                OrEmpty(growth), OrEmpty(metrics), ra, es, d11))
    case (Err(e), _) => Err(e)
    case (_, Err(e)) => Err(e)
  }

  /** A statement read as `{}` (no row for the report date, or a None rating
      or estimates) gives None in every one of its columns, fallbacks
      included. */
  lemma MissingStatementReadsNone(rec: Record, st: Statement, c: string)
    requires RowOf(rec, st) == map[]
    ensures c in Columns(rec, st) ==> Columns(rec, st)[c] == JNull
    ensures st == CashFlow ==> ShareBuybacks(rec) == JNull
    ensures st == Metrics ==> PsRatio(rec) == JNull
  {
    if c in Columns(rec, st) {
      ProjectEmpty(PairsOf(st), c);
    }
  }

  // ------------------------------------------------ one symbol

  /** What `process_symbol` has gathered before its loop. */
  datatype Context = Context(
    symbol: Json,
    balance: map<Json, Dict>, cash: map<Json, Dict>, ratios: map<Json, Dict>,
    growth: map<Json, Dict>, metrics: map<Json, Dict>,
    rating: Json, estimates: Json, d11: D11)

  /** The record of one income statement: None when it has no date; a date
      that cannot be a dict key raises at the first `by_date.get`. */
  function RecordFor(row: Dict, ctx: Context): (r: Result<Option<Record>>)
    ensures !Truthy(Get(row, "date")) ==> r == Ok(None)
    ensures r.Ok? && r.value.Some? ==>
              && Truthy(Get(row, "date")) && r.value.value.reportDate == Get(row, "date")
              && r.value.value.symbol == ctx.symbol
  {
    var date := Get(row, "date");
    if !Truthy(date) then Ok(None)
    else if !Hashable(date) then Err("TypeError: unhashable type")
    else
      match BuildRecord(ctx.symbol, row, Lookup(ctx.balance, date), Lookup(ctx.cash, date),
                        Lookup(ctx.ratios, date), Lookup(ctx.growth, date), Lookup(ctx.metrics, date),
                        ctx.rating, ctx.estimates, ctx.d11)
      case Err(e) => Err(e)
      case Ok(rec) => Ok(Some(rec))
  }

  /** `analyst_input_financial_statements`, keyed by the upsert's conflict
      columns (symbol, report_date). */
  type Table = map<(Json, Json), Record>

  function KeyOf(rec: Record): (Json, Json)
  {
    (rec.symbol, rec.reportDate)
  }

  /** Every record is stored under its own (symbol, report_date). */
  predicate Keyed(t: Table)
  {
    forall k :: k in t ==> KeyOf(t[k]) == k
  }

  /** The merge loop: the records of `rows` upserted in order into `t`; an
      exception ends it, keeping the upserts made before it. */
  function MergeRows(rows: seq<Dict>, ctx: Context, t: Table): (r: (Option<string>, Table))
    decreases |rows|
  {
    if rows == [] then (None, t)
    else match RecordFor(rows[0], ctx)
      case Err(e) => (Some(e), t)
      case Ok(None) => MergeRows(rows[1..], ctx, t)
      case Ok(Some(rec)) => MergeRows(rows[1..], ctx, t[KeyOf(rec) := rec])
  }

  /** Two tables agree on every row of another symbol. */
  predicate OthersUntouched(t: Table, t': Table, symbol: Json)
  {
    && (forall k :: k in t && k.0 != symbol ==> k in t' && t'[k] == t[k])
    && (forall k :: k in t' && k.0 != symbol ==> k in t)
  }

  /** The loop writes only rows of its own symbol, each under its own key,
      and removes none. */
  lemma {:induction false} MergeRowsWritesOwnSymbol(rows: seq<Dict>, ctx: Context, t: Table)
    requires Keyed(t)
    ensures var r := MergeRows(rows, ctx, t).1;
            Keyed(r) && t.Keys <= r.Keys && OthersUntouched(t, r, ctx.symbol)
    decreases |rows|
  {
    if rows != [] {
      match RecordFor(rows[0], ctx)
      case Err(_) =>
      case Ok(None) => MergeRowsWritesOwnSymbol(rows[1..], ctx, t);
      case Ok(Some(rec)) =>
        var t1 := t[KeyOf(rec) := rec];
        MergeRowsWritesOwnSymbol(rows[1..], ctx, t1);
    }
  }

  /** When no exception ends the loop, every dated statement has a record
      under (symbol, its date). */
  lemma {:induction false} MergeRowsWritesEveryDate(rows: seq<Dict>, ctx: Context, t: Table, i: nat)
    requires MergeRows(rows, ctx, t).0.None?
    requires i < |rows| && Truthy(Get(rows[i], "date"))
    ensures (ctx.symbol, Get(rows[i], "date")) in MergeRows(rows, ctx, t).1
    decreases |rows|
  {
    var t1 := match RecordFor(rows[0], ctx).value
              case None => t
              case Some(rec) => t[KeyOf(rec) := rec];
    if i == 0 {
      MergeRowsKeepsKeys(rows[1..], ctx, t1);
    } else {
      assert rows[1..][i - 1] == rows[i];
      MergeRowsWritesEveryDate(rows[1..], ctx, t1, i - 1);
    }
  }

  /** When no exception ends the loop, the row under (symbol, date) is the
      record of the last statement with that date: a later statement of the
      same date overwrites an earlier one. */
  lemma {:induction false} MergeRowsStoresLast(rows: seq<Dict>, ctx: Context, t: Table, i: nat)
    requires MergeRows(rows, ctx, t).0.None?
    requires i < |rows| && Truthy(Get(rows[i], "date"))
    requires forall j :: i < j < |rows| ==> Get(rows[j], "date") != Get(rows[i], "date")
    ensures RecordFor(rows[i], ctx).Ok? && RecordFor(rows[i], ctx).value.Some?
    ensures var k := (ctx.symbol, Get(rows[i], "date"));
            k in MergeRows(rows, ctx, t).1 && MergeRows(rows, ctx, t).1[k] == RecordFor(rows[i], ctx).value.value
    decreases |rows|
  {
    var t1 := match RecordFor(rows[0], ctx).value
              case None => t
              case Some(rec) => t[KeyOf(rec) := rec];
    if i == 0 {
      forall j | 0 <= j < |rows[1..]|
        ensures Get(rows[1..][j], "date") != Get(rows[0], "date")
      {
        assert rows[1..][j] == rows[j + 1];
      }
      MergeRowsLeaves(rows[1..], ctx, t1, Get(rows[0], "date"));
    } else {
      assert rows[1..][i - 1] == rows[i];
      forall j | i - 1 < j < |rows[1..]|
        ensures Get(rows[1..][j], "date") != Get(rows[1..][i - 1], "date")
      {
        assert rows[1..][j] == rows[j + 1];
      }
      MergeRowsStoresLast(rows[1..], ctx, t1, i - 1);
    }
  }

  /** A date that no statement carries keeps its row. */
  lemma {:induction false} MergeRowsLeaves(rows: seq<Dict>, ctx: Context, t: Table, d: Json)
    requires forall j :: 0 <= j < |rows| ==> Get(rows[j], "date") != d
    ensures (ctx.symbol, d) in t ==>
              (ctx.symbol, d) in MergeRows(rows, ctx, t).1 && MergeRows(rows, ctx, t).1[(ctx.symbol, d)] == t[(ctx.symbol, d)]
    decreases |rows|
  {
    if rows != [] {
      assert forall j :: 0 <= j < |rows[1..]| ==> rows[1..][j] == rows[j + 1];
      match RecordFor(rows[0], ctx)
      case Err(_) =>
      case Ok(None) => MergeRowsLeaves(rows[1..], ctx, t, d);
      case Ok(Some(rec)) => MergeRowsLeaves(rows[1..], ctx, t[KeyOf(rec) := rec], d);
    }
  }

  /** An upsert never removes a row. */
  lemma {:induction false} MergeRowsKeepsKeys(rows: seq<Dict>, ctx: Context, t: Table)
    ensures t.Keys <= MergeRows(rows, ctx, t).1.Keys
    decreases |rows|
  {
    if rows != [] {
      match RecordFor(rows[0], ctx)
      case Err(_) =>
      case Ok(None) => MergeRowsKeepsKeys(rows[1..], ctx, t);
      case Ok(Some(rec)) => MergeRowsKeepsKeys(rows[1..], ctx, t[KeyOf(rec) := rec]);
    }
  }

  /** The by-date index a joined statement is looked up in. */
  function IndexOf(ctx: Context, st: Statement): map<Json, Dict>
  {
    match st
    case Balance => ctx.balance
    case CashFlow => ctx.cash
    case Ratios => ctx.ratios
    case Growth => ctx.growth
    case Metrics => ctx.metrics
    case _ => map[]
  }

  predicate Joined(st: Statement)
  {
    st.Balance? || st.CashFlow? || st.Ratios? || st.Growth? || st.Metrics?
  }

  /** The rows of a statement reply, none when the fetch failed or the
      reply is not a list. */
  function FetchedRows(fetched: Result<Json>): seq<Json>
  {
    if fetched.Ok? && fetched.value.JList? then fetched.value.items else []
  }

  /** A joined statement is matched on the exact report date: the record
      holds the last fetched row of that date, or `{}` when no fetched row
      has it. */
  lemma JoinsByReportDate(row: Dict, ctx: Context, st: Statement, fetched: Result<Json>)
    requires Joined(st) && ByDate(fetched) == Ok(IndexOf(ctx, st))
    requires RecordFor(row, ctx).Ok? && RecordFor(row, ctx).value.Some?
    ensures var rec := RecordFor(row, ctx).value.value;
            var rows := FetchedRows(fetched);
            && IndexByDate(rows).Ok?
            && ((exists i :: LastOfDate(rows, rec.reportDate, i) && RowOf(rec, st) == rows[i].fields)
                || (RowOf(rec, st) == map[] && forall i :: 0 <= i < |rows| ==> Get(rows[i].fields, "date") != rec.reportDate))
  {
    var rec := RecordFor(row, ctx).value.value;
    var rows := FetchedRows(fetched);
    var m := IndexOf(ctx, st);
    assert m == IndexByDate(rows).value;
    var date := Get(row, "date");
    assert RowOf(rec, st) == OrEmpty(Lookup(m, date));
    IndexByDateKeys(rows, date);
    if date in m {
      IndexByDateLast(rows, date);
    }
  }

  /** The fetches `process_symbol` makes, in its order; a failed request is
      an `Err`. `price` is the daily-price request for one day. */
  datatype Fetches = Fetches(
    income: Result<Json>, balance: Result<Json>, cash: Result<Json>, ratios: Result<Json>,
    growth: Result<Json>, metrics: Result<Json>, rating: Result<Json>, estimates: Result<Json>,
    earnings: Result<Json>, price: string -> Result<Json>)

  /** `process_symbol` up to its loop: None when the income fetch fails or is
      empty (it returns), else the two newest income statements and the
      context; an exception in between ends it. */
  function Prepare(symbol: Json, f: Fetches, today: string, parseDate: string -> Option<Date>)
    : (r: Result<Option<(seq<Dict>, Context)>>)
    requires ParsesDates(parseDate)
    ensures f.income.Err? || !Truthy(f.income.value) ==> r == Ok(None)
    ensures r.Ok? && r.value.Some? ==>
              var ctx := r.value.value.1;
              && f.income.Ok? && TopTwo(f.income.value) == Ok(r.value.value.0)
              && ctx.symbol == symbol && ctx.rating == FirstOrNone(f.rating) && ctx.estimates == FirstOrNone(f.estimates)
              && ByDate(f.balance) == Ok(ctx.balance) && ByDate(f.cash) == Ok(ctx.cash)
              && ByDate(f.ratios) == Ok(ctx.ratios) && ByDate(f.growth) == Ok(ctx.growth)
              && ByDate(f.metrics) == Ok(ctx.metrics)
              && GetD11(f.earnings, today, parseDate, f.price) == Ok(ctx.d11)
  {
    if f.income.Err? || !Truthy(f.income.value) then Ok(None)
    else match TopTwo(f.income.value)
      case Err(e) => Err(e)
      case Ok(rows) =>
        match (ByDate(f.balance), ByDate(f.cash), ByDate(f.ratios), ByDate(f.growth), ByDate(f.metrics))
        case (Ok(b), Ok(c), Ok(ra), Ok(g), Ok(m)) =>
          (match GetD11(f.earnings, today, parseDate, f.price)
           case Err(e) => Err(e)
           case Ok(d11) => Ok(Some((rows, Context(symbol, b, c, ra, g, m, FirstOrNone(f.rating), FirstOrNone(f.estimates), d11)))))
        case _ => Err("a statement reply could not be indexed by date")
  }

  /** `process_symbol`: the error that ended it, if any, and the table. */
  function Processed(symbol: Json, f: Fetches, today: string, parseDate: string -> Option<Date>, t: Table)
    : (r: (Option<string>, Table))
    requires ParsesDates(parseDate)
    ensures f.income.Err? || !Truthy(f.income.value) ==> r == (None, t)
  {
    match Prepare(symbol, f, today, parseDate)
    case Err(e) => (Some(e), t)
    case Ok(None) => (None, t)
    case Ok(Some(p)) => MergeRows(p.0, p.1, t)
  }

  /** Processing a symbol touches no row of another symbol, keeps every row
      under its own key and removes none. */
  lemma ProcessedWritesOwnSymbol(symbol: Json, f: Fetches, today: string, parseDate: string -> Option<Date>, t: Table)
    requires ParsesDates(parseDate) && Keyed(t)
    ensures var r := Processed(symbol, f, today, parseDate, t).1;
            Keyed(r) && t.Keys <= r.Keys && OthersUntouched(t, r, symbol)
  {
    var p := Prepare(symbol, f, today, parseDate);
    if p.Ok? && p.value.Some? {
      MergeRowsWritesOwnSymbol(p.value.value.0, p.value.value.1, t);
    }
  }

  /** `process_symbol`: the fetches and indexes, then the merge loop. */
  method ProcessSymbol(symbol: Json, f: Fetches, today: string, parseDate: string -> Option<Date>, table: Table)
    returns (error: Option<string>, table': Table)
    requires ParsesDates(parseDate)
    ensures (error, table') == Processed(symbol, f, today, parseDate, table)
  {
    var prep := Prepare(symbol, f, today, parseDate);
    if prep.Err? {
      return Some(prep.msg), table;
    }
    if prep.value.None? {
      return None, table;
    }
    error, table' := MergeLoop(prep.value.value.0, prep.value.value.1, table);
  }

  /** `for income_row in income_rows`: a row without a date is skipped, the
      others are upserted on (symbol, report_date). */
  method MergeLoop(rows: seq<Dict>, ctx: Context, table: Table) returns (error: Option<string>, table': Table)
    ensures (error, table') == MergeRows(rows, ctx, table)
  {
    table' := table;
    var i := 0;
    while i < |rows|
      invariant 0 <= i <= |rows|
      invariant MergeRows(rows[i..], ctx, table') == MergeRows(rows, ctx, table)
    {
      assert rows[i..][1..] == rows[i + 1..];
      var rec := RecordFor(rows[i], ctx);
      if rec.Err? {
        return Some(rec.msg), table';
      }
      if rec.value.Some? {
        table' := table'[KeyOf(rec.value.value) := rec.value.value];
      }
      i := i + 1;
    }
    error := None;
  }

  // ------------------------------------------------ the worker

  /** `[row["symbol"] for row in res.data]`: None when a row has no symbol
      (the `KeyError` ends the worker). */
  function CalendarSymbols(rows: seq<Dict>): (r: Option<seq<Json>>)
    ensures r.Some? <==> forall i :: 0 <= i < |rows| ==> "symbol" in rows[i]
    ensures r.Some? ==> |r.value| == |rows| && forall i :: 0 <= i < |rows| ==> r.value[i] == rows[i]["symbol"]
  {
    if rows == [] then Some([])
    else if "symbol" !in rows[0] then None
    else match CalendarSymbols(rows[1..])
      case None => None
      case Some(rest) => Some([rows[0]["symbol"]] + rest)
  }

  /** Every symbol in turn, an exception in one not stopping the others. */
  function RunAll(symbols: seq<Json>, fetches: Json -> Fetches, today: string,
                  parseDate: string -> Option<Date>, t: Table): Table
    requires ParsesDates(parseDate)
  {
    if symbols == [] then t
    else
      var n := |symbols| - 1;
      Processed(symbols[n], fetches(symbols[n]), today, parseDate, RunAll(symbols[..n], fetches, today, parseDate, t)).1
  }

  /** A row of a symbol that is not processed is left as it was, and the run
      keeps every row under its own key. */
  lemma {:induction false} RunAllLeavesOthers(symbols: seq<Json>, fetches: Json -> Fetches, today: string,
                                              parseDate: string -> Option<Date>, t: Table, k: (Json, Json))
    requires ParsesDates(parseDate) && Keyed(t)
    ensures Keyed(RunAll(symbols, fetches, today, parseDate, t))
    ensures k in t && k.0 !in symbols ==>
              k in RunAll(symbols, fetches, today, parseDate, t) && RunAll(symbols, fetches, today, parseDate, t)[k] == t[k]
    decreases |symbols|
  {
    if symbols != [] {
      var n := |symbols| - 1;
      RunAllLeavesOthers(symbols[..n], fetches, today, parseDate, t, k);
      var prev := RunAll(symbols[..n], fetches, today, parseDate, t);
      ProcessedWritesOwnSymbol(symbols[n], fetches(symbols[n]), today, parseDate, prev);
      if k.0 !in symbols {
        assert k.0 !in symbols[..n];
      }
    }
  }

  lemma RunAllNext(symbols: seq<Json>, i: nat, fetches: Json -> Fetches, today: string,
                   parseDate: string -> Option<Date>, t: Table)
    requires ParsesDates(parseDate) && i < |symbols|
    ensures RunAll(symbols[..i + 1], fetches, today, parseDate, t)
            == Processed(symbols[i], fetches(symbols[i]), today, parseDate, RunAll(symbols[..i], fetches, today, parseDate, t)).1
  {
    assert symbols[..i + 1][..i] == symbols[..i];
  }

  /** `run_worker`: `fetches(symbol)` stands for the requests made for that
      symbol and `today` for the date `get_last_earnings` reads. */
  method RunWorker(calendar: seq<Dict>, fetches: Json -> Fetches, today: string,
                   parseDate: string -> Option<Date>, table: Table) returns (table': Table)
    requires ParsesDates(parseDate)
    ensures CalendarSymbols(calendar).None? ==> table' == table
    ensures CalendarSymbols(calendar).Some? ==> table' == RunAll(CalendarSymbols(calendar).value, fetches, today, parseDate, table)
  {
    var symbols := CalendarSymbols(calendar);
    if symbols.None? {
      return table;
    }
    var s := symbols.value;
    table' := table;
    for i := 0 to |s|
      invariant table' == RunAll(s[..i], fetches, today, parseDate, table)
    {
      var _, t := ProcessSymbol(s[i], fetches(s[i]), today, parseDate, table');
      RunAllNext(s, i, fetches, today, parseDate, table);
      table' := t;
    }
    assert s[..|s|] == s;
  }
}
