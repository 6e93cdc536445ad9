// The daily reset of the earnings calendar (earnings_calendar_us_sync_reset.py):
// fetch today's calendar, keep six fields of each entry, keep US tickers,
// delete the table's rows and insert the kept rows in chunks of 200.
// The table has no conflict key, so it is a list of rows.

module EarningsCalendar {
  import opened Base
  import opened Symbols
  import Batching

  /** The chunk size of `insert_new_rows`. */
  const ChunkSize := 200

  /** The row kept of one calendar entry. */
  function CalendarRow(item: Dict): (row: Dict)
    ensures row.Keys == {"symbol", "date", "eps", "eps_estimated", "revenue", "time"}
    ensures row["symbol"] == Get(item, "symbol") && row["eps_estimated"] == Get(item, "epsEstimated")
  {
    map["date" := Get(item, "date"), "eps" := Get(item, "eps"), "revenue" := Get(item, "revenue"),
        "time" := Get(item, "time"), "eps_estimated" := Get(item, "epsEstimated"), "symbol" := Get(item, "symbol")]
  }

  /** The loop of `main` that builds the rows from the response: iterating
      a list gives its entries, a dict its keys and a string its characters,
      and `.get` on anything but a dict raises; `len` of any other value
      raises. */
  function CalendarRows(calendar: Json): (r: Result<seq<Dict>>)
    ensures calendar.JList? ==>
              (r.Ok? <==> forall i :: 0 <= i < |calendar.items| ==> calendar.items[i].JObj?)
    ensures calendar.JList? && r.Ok? ==>
              |r.value| == |calendar.items|
              && forall i :: 0 <= i < |r.value| ==> r.value[i] == CalendarRow(calendar.items[i].fields)
    ensures !calendar.JList? ==> (r.Ok? <==> calendar == JObj(map[]) || calendar == JStr(""))
    ensures !calendar.JList? && r.Ok? ==> r.value == []
  {
    match calendar
    case JList(items) => ListRows(items)
    case JObj(fields) => if fields == map[] then Ok([]) else Err("'str' object has no attribute 'get'")
    case JStr(s) => if s == [] then Ok([]) else Err("'str' object has no attribute 'get'")
    case _ => Err("object has no len()")
  }

  /** The rows of a list of entries, in order; one entry that is not a dict
      raises. */
  function ListRows(items: seq<Json>): (r: Result<seq<Dict>>)
    ensures r.Ok? <==> forall i :: 0 <= i < |items| ==> items[i].JObj?
    ensures r.Ok? ==> |r.value| == |items| && forall i :: 0 <= i < |items| ==> r.value[i] == CalendarRow(items[i].fields)
  {
    if items == [] then Ok([])
    else
      var n := |items| - 1;
      match ListRows(items[..n])
      case Err(e) =>
        assert exists i :: 0 <= i < n && !items[..n][i].JObj?;
        Err(e)
      case Ok(prev) =>
        if items[n].JObj? then Ok(prev + [CalendarRow(items[n].fields)])
        else Err("object has no attribute 'get'")
  }

  /** The list comprehension that keeps US tickers; testing `"." in symbol`
      on a truthy symbol that is not a string, a list or a dict raises, and
      a list or dict symbol is kept when it passes the filter. */
  function UsRows(rows: seq<Dict>): (r: Result<seq<Dict>>)
    ensures r.Err? <==> exists i :: 0 <= i < |rows| && UsTicker(Get(rows[i], "symbol")).Err?
    ensures r.Ok? ==> forall row :: row in r.value <==> row in rows && UsTicker(Get(row, "symbol")) == Ok(true)
  {
    if rows == [] then Ok([])
    else
      var n := |rows| - 1;
      assert forall i :: 0 <= i < n ==> rows[..n][i] == rows[i];
      assert rows == rows[..n] + [rows[n]];
      match UsRows(rows[..n])
      case Err(e) => Err(e)
      case Ok(prev) =>
        match UsTicker(Get(rows[n], "symbol"))
        case Err(e) => Err(e)
        case Ok(keep) => Ok(if keep then prev + [rows[n]] else prev)
  }

  /** Each row that passes the filter is kept as many times as the calendar
      holds it, and no other row is kept. */
  lemma {:induction false} UsRowsCounts(rows: seq<Dict>)
    requires UsRows(rows).Ok?
    ensures forall row :: multiset(UsRows(rows).value)[row] ==
              if UsTicker(Get(row, "symbol")) == Ok(true) then multiset(rows)[row] else 0
  {
    if rows != [] {
      var n := |rows| - 1;
      UsRowsCounts(rows[..n]);
      assert rows == rows[..n] + [rows[n]];
    }
  }

  /** The kept rows come in the calendar's order: `UsRows` is a
      subsequence of its input. */
  lemma {:induction false} UsRowsInOrder(rows: seq<Dict>, i: nat, j: nat)
    requires UsRows(rows).Ok? && i < j < |UsRows(rows).value|
    ensures exists a, b :: 0 <= a < b < |rows| && rows[a] == UsRows(rows).value[i] && rows[b] == UsRows(rows).value[j]
  {
    var n := |rows| - 1;
    var prev := UsRows(rows[..n]).value;
    var out := UsRows(rows).value;
    if j < |prev| {
      UsRowsInOrder(rows[..n], i, j);
      var a, b :| 0 <= a < b < n && rows[..n][a] == prev[i] && rows[..n][b] == prev[j];
      assert rows[a] == out[i] && rows[b] == out[j];
    } else {
      assert out == prev + [rows[n]] && j == |prev|;
      assert out[i] == prev[i] && prev[i] in rows[..n];
      var a :| 0 <= a < n && rows[..n][a] == prev[i];
      assert rows[a] == out[i] && rows[n] == out[j];
    }
  }

  /** `delete().neq("symbol", "")`: the filter keeps rows whose symbol is
      empty or null, so those survive the delete. */
  function DeleteAll(table: seq<Dict>): (r: seq<Dict>)
    ensures forall row :: row in r <==> row in table && !(Get(row, "symbol").JStr? && Get(row, "symbol").s != "")
    ensures forall row :: multiset(r)[row] ==
              if Get(row, "symbol").JStr? && Get(row, "symbol").s != "" then 0 else multiset(table)[row]
  {
    if table == [] then []
    else
      var n := |table| - 1;
      assert table == table[..n] + [table[n]];
      var row := table[n];
      DeleteAll(table[..n]) + (if Get(row, "symbol").JStr? && Get(row, "symbol").s != "" then [] else [row])
  }

  /** `main`: the response, then the rows, then the US filter; only when all
      three succeed is the table reset and refilled, so an exception before
      that leaves the table as it was. */
  method SyncReset(fetched: Result<Json>, table: seq<Dict>)
    returns (r: Result<nat>, table': seq<Dict>, chunks: seq<seq<Dict>>)
    ensures fetched.Err? ==> r.Err? && table' == table
    ensures r.Err? ==> table' == table && chunks == []
    ensures fetched.Ok? && CalendarRows(fetched.value).Err? ==> r.Err?
    ensures fetched.Ok? && CalendarRows(fetched.value).Ok? ==>
              var rows := CalendarRows(fetched.value).value;
              (r.Ok? <==> UsRows(rows).Ok?)
              && (r.Ok? ==> table' == DeleteAll(table) + UsRows(rows).value
                            && r.value == |UsRows(rows).value|
                            && chunks == Batching.Chunks(UsRows(rows).value, ChunkSize))
  {
    if fetched.Err? {
      return Err(fetched.msg), table, [];
    }
    var rows := CalendarRows(fetched.value);
    if rows.Err? {
      return Err(rows.msg), table, [];
    }
    var us := UsRows(rows.value);
    if us.Err? {
      return Err(us.msg), table, [];
    }
    table' := DeleteAll(table);
    var total;
    table', total, chunks := Batching.InsertInChunks(us.value, ChunkSize, table');
    r := Ok(total);
  }

  /** After a reset every row with a symbol is one of today's US tickers. */
  lemma ResetHoldsOnlyToday(fetched: Json, table: seq<Dict>, rows: seq<Dict>, row: Dict)
    requires CalendarRows(fetched) == Ok(rows) && UsRows(rows).Ok?
    requires row in DeleteAll(table) + UsRows(rows).value
    requires Get(row, "symbol").JStr? && Get(row, "symbol").s != ""
    ensures row in rows && UsTicker(Get(row, "symbol")) == Ok(true)
  {
  }
}
