// The earnings-news fetcher (fmp_earnings_news_fetcher.py): for each symbol
// of the earnings calendar, fetch its latest news and upsert, keyed on the
// article's url, the items that name the symbol in the title, speak of
// earnings, are not known noise, and were published within three days of
// the report date.

module EarningsNews {
  import opened Base
  import opened Text
  import opened Clock
  import KeyedTable

  const EarningsKeywords: seq<string> := [
    "earnings", "quarter", "q1", "q2", "q3", "q4", "revenue", "eps", "guidance", "outlook", "results",
    "fiscal", "conference call", "transcript", "beats", "misses"]

  const NegativeKeywords: seq<string> := [
    "dividend", "shares purchased", "shares sold", "position cut", "position increased", "insider",
    "hedge fund", "etf", "top stocks", "best stocks", "million investment", "acquired", "sold by",
    "retirement system", "wealth advisors"]

  /** `news.get(key, "")` where a string is needed: a missing key gives "",
      a string itself, and anything else raises when `.lower()` is called. */
  function TitleOf(news: Dict): (r: Result<string>)
    ensures r.Ok? <==> "title" !in news || news["title"].JStr?
  {
    if "title" !in news then Ok("")
    else if news["title"].JStr? then Ok(news["title"].s)
    else Err("'title' has no lower()")
  }

  /** How an f-string shows `news.get('text', '')`: a missing key as "", a
      string as itself, any other value by `show` (Python's `str`). */
  function BodyText(news: Dict, show: Json -> string): string
  {
    if "text" !in news then ""
    else if news["text"].JStr? then news["text"].s
    else show(news["text"])
  }

  /** `(pub - earn).days`: whole days, rounded down, between two naive
      datetimes. */
  function DaysBetween(pub: Instant, earn: Instant): int
  {
    (Ord(pub) - Ord(earn)) / MicrosPerDay
  }

  /** `abs((pub - earn).days) > 3` is false exactly when `pub` is at most
      three days before `earn` or less than four days after it: the day count
      rounds down, so the window is not symmetric. */
  lemma WithinThreeDays(pub: Instant, earn: Instant)
    ensures (-3 <= DaysBetween(pub, earn) <= 3) <==>
              (-3 * MicrosPerDay <= Ord(pub) - Ord(earn) < 4 * MicrosPerDay)
  {
    var d := Ord(pub) - Ord(earn);
    var q := d / MicrosPerDay;
    assert q * MicrosPerDay <= d < q * MicrosPerDay + MicrosPerDay;
    if -3 <= q <= 3 {
      assert -3 * MicrosPerDay <= q * MicrosPerDay;
      assert q * MicrosPerDay + MicrosPerDay <= 4 * MicrosPerDay;
    }
  }

  /** The date test: it applies only when both dates are truthy, and any
      failure inside it (a value that is not a string, a string `parse`,
      standing for `fromisoformat`, rejects) lets the item through. */
  predicate OutsideWindow(news: Dict, earningsDate: Json, parse: string -> Option<Instant>)
  {
    && Truthy(earningsDate) && Truthy(Get(news, "publishedDate"))
    && Get(news, "publishedDate").JStr? && earningsDate.JStr?
    && var p := Get(news, "publishedDate").s;
    && parse(if |p| <= 19 then p else p[..19]).Some? && parse(earningsDate.s).Some?
    && var days := DaysBetween(parse(if |p| <= 19 then p else p[..19]).value, parse(earningsDate.s).value);
    && (days < -3 || days > 3)
  }

  /** `is_earnings_related`. */
  function IsEarningsRelated(news: Dict, earningsDate: Json, symbol: string, show: Json -> string,
                             parse: string -> Option<Instant>): (r: Result<bool>)
    ensures r.Err? <==> !TitleOf(news).Ok?
  {
    match TitleOf(news)
    case Err(e) => Err(e)
    case Ok(t) =>
      var title := Lower(t);
      var text := Lower(title + " " + BodyText(news, show));
      if !Contains(title, Lower(symbol)) then Ok(false)
      else if !ContainsAny(text, EarningsKeywords) then Ok(false)
      else if ContainsAny(text, NegativeKeywords) then Ok(false)
      else Ok(!OutsideWindow(news, earningsDate, parse))
  }

  /** An item is related exactly when the lower-cased title holds the
      lower-cased symbol, the lower-cased title and body hold an earnings
      keyword and no noise keyword, and the date test does not reject it. */
  lemma RelatedIff(news: Dict, earningsDate: Json, symbol: string, show: Json -> string,
                   parse: string -> Option<Instant>)
    requires TitleOf(news).Ok?
    ensures var title := Lower(TitleOf(news).value);
            var text := Lower(title + " " + BodyText(news, show));
            IsEarningsRelated(news, earningsDate, symbol, show, parse) == Ok(
              Contains(title, Lower(symbol)) && ContainsAny(text, EarningsKeywords)
              && !ContainsAny(text, NegativeKeywords) && !OutsideWindow(news, earningsDate, parse))
  {
  }

  /** Lower-casing works character by character. */
  lemma LowerConcat(a: string, b: string)
    ensures Lower(a + b) == Lower(a) + Lower(b)
  {
  }

  /** An earnings keyword in the title is enough for the keyword test,
      whatever the body says. */
  lemma TitleKeywordSuffices(news: Dict, show: Json -> string, k: string)
    requires TitleOf(news).Ok? && k in EarningsKeywords
    requires Contains(Lower(TitleOf(news).value), k)
    ensures ContainsAny(Lower(Lower(TitleOf(news).value) + " " + BodyText(news, show)), EarningsKeywords)
  {
    var title := Lower(TitleOf(news).value);
    var rest := " " + BodyText(news, show);
    assert title + " " + BodyText(news, show) == title + rest;
    LowerConcat(title, rest);
    assert Lower(title) == title;
    var text := Lower(title + rest);
    assert text[..|title|] == title;
    ContainsInSlice(text, 0, |title|, k);
    ContainsAnyIff(text, EarningsKeywords);
  }

  /** The row upserted for an accepted item; `fetchedAt` is the clock
      reading. */
  function NewsRow(symbol: Json, news: Dict, earningsDate: Json, fetchedAt: string): (row: Dict)
    ensures "url" in row && row["url"] == Get(news, "url")
    ensures "symbol" in row && row["symbol"] == symbol
    ensures "body" in row && row["body"] == Get(news, "text")
    ensures "earnings_date" in row && row["earnings_date"] == earningsDate
  {
    map["title" := Get(news, "title"), "site" := Get(news, "site"), "published_at" := Get(news, "publishedDate"),
        "fetched_at" := JStr(fetchedAt), "earnings_date" := earningsDate, "body" := Get(news, "text"),
        "symbol" := symbol, "url" := Get(news, "url")]
  }

  /** What the inner loop does with one item. */
  datatype ItemAction = Raise(msg: string) | Skip | Write(url: Json, row: Dict)

  /** One item of the inner loop: an item that is not a dict, or a symbol
      that is not a string, raises; an unrelated item is skipped; a related
      one is upserted keyed on its url. */
  function Act(news: Json, symbol: Json, earningsDate: Json, show: Json -> string,
               parse: string -> Option<Instant>, fetchedAt: string): (a: ItemAction)
    ensures a.Write? <==>
              news.JObj? && symbol.JStr? && IsEarningsRelated(news.fields, earningsDate, symbol.s, show, parse) == Ok(true)
    ensures a.Write? ==> a.row == NewsRow(symbol, news.fields, earningsDate, fetchedAt) && a.url == Get(news.fields, "url")
  {
    if !news.JObj? then Raise("'news' has no get()")
    else if !symbol.JStr? then Raise("'symbol' has no lower()")
    else
      match IsEarningsRelated(news.fields, earningsDate, symbol.s, show, parse)
      case Err(e) => Raise(e)
      case Ok(ok) =>
        if ok then
          var row := NewsRow(symbol, news.fields, earningsDate, fetchedAt);
          Write(row["url"], row)
        else Skip
  }

  /** The upserts after one more item. */
  function Take(prev: seq<(Json, Dict)>, a: ItemAction): Result<seq<(Json, Dict)>>
  {
    match a
    case Raise(e) => Err(e)
    case Skip => Ok(prev)
    case Write(url, row) => Ok(prev + [(url, row)])
  }

  /** The inner loop over the fetched items: the upserts made, in order,
      keyed on url; an item that is not a dict, or a symbol or title that is
      not a string, raises and ends the job. */
  function Accepted(items: seq<Json>, symbol: Json, earningsDate: Json, show: Json -> string,
                    parse: string -> Option<Instant>, fetchedAt: string): (r: Result<seq<(Json, Dict)>>)
    ensures r.Ok? ==> |r.value| <= |items|
  {
    if items == [] then Ok([])
    else
      var n := |items| - 1;
      match Accepted(items[..n], symbol, earningsDate, show, parse, fetchedAt)
      case Err(e) => Err(e)
      case Ok(prev) => Take(prev, Act(items[n], symbol, earningsDate, show, parse, fetchedAt))
  }

  /** Every upsert is keyed on the url its row holds. */
  lemma {:induction false} AcceptedKeyedOnUrl(items: seq<Json>, symbol: Json, earningsDate: Json,
                                              show: Json -> string, parse: string -> Option<Instant>,
                                              fetchedAt: string)
    requires Accepted(items, symbol, earningsDate, show, parse, fetchedAt).Ok?
    ensures var u := Accepted(items, symbol, earningsDate, show, parse, fetchedAt).value;
            forall j :: 0 <= j < |u| ==> "url" in u[j].1 && u[j].0 == u[j].1["url"]
  {
    if items != [] {
      var n := |items| - 1;
      AcceptedKeyedOnUrl(items[..n], symbol, earningsDate, show, parse, fetchedAt);
    }
  }

  lemma AcceptedNext(items: seq<Json>, i: nat, symbol: Json, earningsDate: Json, show: Json -> string,
                     parse: string -> Option<Instant>, fetchedAt: string)
    requires i < |items| && Accepted(items[..i], symbol, earningsDate, show, parse, fetchedAt).Ok?
    ensures Accepted(items[..i + 1], symbol, earningsDate, show, parse, fetchedAt)
              == Take(Accepted(items[..i], symbol, earningsDate, show, parse, fetchedAt).value,
                      Act(items[i], symbol, earningsDate, show, parse, fetchedAt))
  {
    assert items[..i + 1][..i] == items[..i];
  }

  /** The upserts the inner loop makes before it ends, by running out of
      items or by the first exception; those made stay in the table. */
  function UpsertsMade(items: seq<Json>, symbol: Json, earningsDate: Json, show: Json -> string,
                       parse: string -> Option<Instant>, fetchedAt: string): seq<(Json, Dict)>
  {
    if items == [] then []
    else
      var n := |items| - 1;
      match Accepted(items[..n], symbol, earningsDate, show, parse, fetchedAt)
      case Err(_) => UpsertsMade(items[..n], symbol, earningsDate, show, parse, fetchedAt)
      case Ok(prev) =>
        match Act(items[n], symbol, earningsDate, show, parse, fetchedAt)
        case Write(url, row) => prev + [(url, row)]
        case _ => prev
  }

  /** When no item raises, the upserts made are all the accepted ones. */
  lemma UpsertsMadeWhenAccepted(items: seq<Json>, symbol: Json, earningsDate: Json, show: Json -> string,
                                parse: string -> Option<Instant>, fetchedAt: string)
    requires Accepted(items, symbol, earningsDate, show, parse, fetchedAt).Ok?
    ensures UpsertsMade(items, symbol, earningsDate, show, parse, fetchedAt)
            == Accepted(items, symbol, earningsDate, show, parse, fetchedAt).value
  {
  }

  /** Once an item has raised, the upserts made are those made before it. */
  lemma {:induction false} UpsertsMadeStopped(items: seq<Json>, i: nat, symbol: Json, earningsDate: Json,
                                              show: Json -> string, parse: string -> Option<Instant>,
                                              fetchedAt: string)
    requires i <= |items| && Accepted(items[..i], symbol, earningsDate, show, parse, fetchedAt).Err?
    ensures UpsertsMade(items, symbol, earningsDate, show, parse, fetchedAt)
            == UpsertsMade(items[..i], symbol, earningsDate, show, parse, fetchedAt)
    decreases |items|
  {
    if i < |items| {
      var n := |items| - 1;
      assert items[..n][..i] == items[..i];
      AcceptedStopped(items[..n], i, symbol, earningsDate, show, parse, fetchedAt);
      UpsertsMadeStopped(items[..n], i, symbol, earningsDate, show, parse, fetchedAt);
    } else {
      assert items[..i] == items;
    }
  }

  /** The upserts made when item `i` raises are those of the items before it. */
  lemma UpsertsMadeAtRaise(items: seq<Json>, i: nat, upserts: seq<(Json, Dict)>, symbol: Json, earningsDate: Json,
                           show: Json -> string, parse: string -> Option<Instant>, fetchedAt: string)
    requires i < |items| && Accepted(items[..i], symbol, earningsDate, show, parse, fetchedAt) == Ok(upserts)
    requires Accepted(items[..i + 1], symbol, earningsDate, show, parse, fetchedAt).Err?
    ensures UpsertsMade(items, symbol, earningsDate, show, parse, fetchedAt) == upserts
  {
    UpsertsMadeStopped(items, i + 1, symbol, earningsDate, show, parse, fetchedAt);
    AcceptedNext(items, i, symbol, earningsDate, show, parse, fetchedAt);
    assert items[..i + 1][..i] == items[..i];
  }

  /** Every upserted item passed the filter. */
  lemma {:induction false} AcceptedAreRelated(items: seq<Json>, symbol: Json, earningsDate: Json,
                                              show: Json -> string, parse: string -> Option<Instant>,
                                              fetchedAt: string, j: nat)
    requires Accepted(items, symbol, earningsDate, show, parse, fetchedAt).Ok?
    requires j < |Accepted(items, symbol, earningsDate, show, parse, fetchedAt).value|
    ensures exists i :: 0 <= i < |items| && items[i].JObj? && symbol.JStr?
              && IsEarningsRelated(items[i].fields, earningsDate, symbol.s, show, parse) == Ok(true)
              && Accepted(items, symbol, earningsDate, show, parse, fetchedAt).value[j].1
                   == NewsRow(symbol, items[i].fields, earningsDate, fetchedAt)
  {
    var n := |items| - 1;
    var prev := Accepted(items[..n], symbol, earningsDate, show, parse, fetchedAt).value;
    if j < |prev| {
      AcceptedAreRelated(items[..n], symbol, earningsDate, show, parse, fetchedAt, j);
      var i :| 0 <= i < n && items[..n][i].JObj? && symbol.JStr?
                && IsEarningsRelated(items[..n][i].fields, earningsDate, symbol.s, show, parse) == Ok(true)
                && prev[j].1 == NewsRow(symbol, items[..n][i].fields, earningsDate, fetchedAt);
      assert items[..n][i] == items[i];
    } else {
      assert IsEarningsRelated(items[n].fields, earningsDate, symbol.s, show, parse) == Ok(true);
    }
  }

  /** The upserts of the first `k` items begin the upserts of all of them. */
  lemma {:induction false} AcceptedPrefix(items: seq<Json>, k: nat, symbol: Json, earningsDate: Json,
                                          show: Json -> string, parse: string -> Option<Instant>, fetchedAt: string)
    requires k <= |items| && Accepted(items, symbol, earningsDate, show, parse, fetchedAt).Ok?
    ensures Accepted(items[..k], symbol, earningsDate, show, parse, fetchedAt).Ok?
    ensures Accepted(items[..k], symbol, earningsDate, show, parse, fetchedAt).value
            <= Accepted(items, symbol, earningsDate, show, parse, fetchedAt).value
    decreases |items|
  {
    if k == |items| {
      assert items[..k] == items;
    } else {
      var n := |items| - 1;
      AcceptedPrefix(items[..n], k, symbol, earningsDate, show, parse, fetchedAt);
      assert items[..n][..k] == items[..k];
    }
  }

  /** The upserts up to and including item `i` begin the upserts of all
      items, and extend those before it by what item `i` does. */
  lemma AcceptedThrough(items: seq<Json>, symbol: Json, earningsDate: Json, show: Json -> string,
                        parse: string -> Option<Instant>, fetchedAt: string, i: nat)
    requires Accepted(items, symbol, earningsDate, show, parse, fetchedAt).Ok? && i < |items|
    ensures Accepted(items[..i], symbol, earningsDate, show, parse, fetchedAt).Ok?
    ensures Accepted(items[..i + 1], symbol, earningsDate, show, parse, fetchedAt).Ok?
    ensures Accepted(items[..i + 1], symbol, earningsDate, show, parse, fetchedAt).value
            <= Accepted(items, symbol, earningsDate, show, parse, fetchedAt).value
    ensures Accepted(items[..i + 1], symbol, earningsDate, show, parse, fetchedAt)
            == Take(Accepted(items[..i], symbol, earningsDate, show, parse, fetchedAt).value,
                    Act(items[i], symbol, earningsDate, show, parse, fetchedAt))
  {
    AcceptedPrefix(items, i, symbol, earningsDate, show, parse, fetchedAt);
    AcceptedPrefix(items, i + 1, symbol, earningsDate, show, parse, fetchedAt);
    AcceptedNext(items, i, symbol, earningsDate, show, parse, fetchedAt);
  }

  /** Every item the filter accepts is upserted, keyed on its url, right
      after the upserts of the items before it. */
  lemma AcceptedWritesEvery(items: seq<Json>, symbol: Json, earningsDate: Json, show: Json -> string,
                            parse: string -> Option<Instant>, fetchedAt: string, i: nat)
    requires Accepted(items, symbol, earningsDate, show, parse, fetchedAt).Ok?
    requires i < |items| && Act(items[i], symbol, earningsDate, show, parse, fetchedAt).Write?
    ensures Accepted(items[..i], symbol, earningsDate, show, parse, fetchedAt).Ok?
    ensures var before := |Accepted(items[..i], symbol, earningsDate, show, parse, fetchedAt).value|;
            var u := Accepted(items, symbol, earningsDate, show, parse, fetchedAt).value;
            before < |u| && u[before] == (Get(items[i].fields, "url"), NewsRow(symbol, items[i].fields, earningsDate, fetchedAt))
  {
    AcceptedThrough(items, symbol, earningsDate, show, parse, fetchedAt, i);
    var a := Accepted(items[..i], symbol, earningsDate, show, parse, fetchedAt).value;
    var b := Accepted(items[..i + 1], symbol, earningsDate, show, parse, fetchedAt).value;
    assert b[|a|] == Accepted(items, symbol, earningsDate, show, parse, fetchedAt).value[|a|];
  }

  /** What iterating the response gives: a list its items; an empty dict or
      string nothing; a non-empty dict or string yields keys or characters,
      which have no `get`; anything else is not iterable. */
  function NewsItems(fetched: Json): Result<seq<Json>>
  {
    match fetched
    case JList(items) => Ok(items)
    case JObj(f) => if f == map[] then Ok([]) else Err("'str' object has no attribute 'get'")
    case JStr(s) => if s == [] then Ok([]) else Err("'str' object has no attribute 'get'")
    case _ => Err("object is not iterable")
  }

  /** The upserts one calendar row leads to: a missing column raises, a
      failed fetch is skipped, and otherwise the accepted items. */
  function ItemUpserts(item: Dict, fetch: Json -> Result<Json>, show: Json -> string,
                       parse: string -> Option<Instant>, fetchedAt: string): (r: Result<seq<(Json, Dict)>>)
    ensures "symbol" !in item || "report_date" !in item ==> r.Err?
    ensures "symbol" in item && "report_date" in item && fetch(item["symbol"]).Err? ==> r == Ok([])
  {
    if "symbol" !in item || "report_date" !in item then Err("KeyError")
    else
      match fetch(item["symbol"])
      case Err(_) => Ok([])
      case Ok(fetched) =>
        match NewsItems(fetched)
        case Err(e) => Err(e)
        case Ok(items) => Accepted(items, item["symbol"], item["report_date"], show, parse, fetchedAt)
  }

  /** The upserts one calendar row makes before it ends: none when it
      raises before its inner loop or its fetch fails. */
  function ItemUpsertsMade(item: Dict, fetch: Json -> Result<Json>, show: Json -> string,
                           parse: string -> Option<Instant>, fetchedAt: string): seq<(Json, Dict)>
  {
    if "symbol" !in item || "report_date" !in item then []
    else
      match fetch(item["symbol"])
      case Err(_) => []
      case Ok(fetched) =>
        match NewsItems(fetched)
        case Err(_) => []
        case Ok(items) => UpsertsMade(items, item["symbol"], item["report_date"], show, parse, fetchedAt)
  }

  /** One pass of `main`'s loop for one calendar row, upserting into
      `table`: the number `inserted` reaches and the new table. */
  method ProcessItem(item: Dict, fetch: Json -> Result<Json>, show: Json -> string,
                     parse: string -> Option<Instant>, fetchedAt: string, table: map<Json, Dict>)
    returns (r: Result<nat>, table': map<Json, Dict>)
    ensures r.Ok? <==> ItemUpserts(item, fetch, show, parse, fetchedAt).Ok?
    ensures r.Ok? ==> var u := ItemUpserts(item, fetch, show, parse, fetchedAt).value;
              r.value == |u| && table' == KeyedTable.UpsertAll(table, u)
    ensures r.Err? ==> table' == KeyedTable.UpsertAll(table, ItemUpsertsMade(item, fetch, show, parse, fetchedAt))
  {
    if "symbol" !in item || "report_date" !in item {
      return Err("KeyError"), table;
    }
    var symbol := item["symbol"];
    var earningsDate := item["report_date"];
    var fetched := fetch(symbol);
    if fetched.Err? {
      return Ok(0), table;
    }
    var listed := NewsItems(fetched.value);
    if listed.Err? {
      return Err(listed.msg), table;
    }
    r, table' := UpsertRelated(listed.value, symbol, earningsDate, show, parse, fetchedAt, table);
  }

  /** The inner `for` loop: upsert each related item, counting them in
      `inserted`. */
  method UpsertRelated(items: seq<Json>, symbol: Json, earningsDate: Json, show: Json -> string,
                       parse: string -> Option<Instant>, fetchedAt: string, table: map<Json, Dict>)
    returns (r: Result<nat>, table': map<Json, Dict>)
    ensures r.Ok? <==> Accepted(items, symbol, earningsDate, show, parse, fetchedAt).Ok?
    ensures r.Ok? ==> var u := Accepted(items, symbol, earningsDate, show, parse, fetchedAt).value;
              r.value == |u| && table' == KeyedTable.UpsertAll(table, u)
    ensures r.Err? ==> table' == KeyedTable.UpsertAll(table, UpsertsMade(items, symbol, earningsDate, show, parse, fetchedAt))
  {
    var inserted := 0;
    var upserts: seq<(Json, Dict)> := [];
    table' := table;
    var i := 0;
    while i < |items|
      invariant Handled(items, i, symbol, earningsDate, show, parse, fetchedAt, table, table', upserts, inserted)
    {
      var error;
      error, table', upserts, inserted := UpsertItem(items, i, symbol, earningsDate, show, parse, fetchedAt,
                                                     table, table', upserts, inserted);
      if error.Some? {
        return Err(error.value), table';
      }
      i := i + 1;
    }
    assert items[..i] == items;
    r := Ok(inserted);
  }

  /** The inner loop has handled the first `i` items without an exception:
      it has made their accepted upserts, in order, and counted them. */
  predicate Handled(items: seq<Json>, i: nat, symbol: Json, earningsDate: Json, show: Json -> string,
                    parse: string -> Option<Instant>, fetchedAt: string, table: map<Json, Dict>,
                    table': map<Json, Dict>, upserts: seq<(Json, Dict)>, inserted: nat)
  {
    && i <= |items| && Accepted(items[..i], symbol, earningsDate, show, parse, fetchedAt) == Ok(upserts)
    && inserted == |upserts| && table' == KeyedTable.UpsertAll(table, upserts)
  }

  /** The body of the inner loop for item `i`: the exception it raises, or
      the upsert and count of a related item. */
  method UpsertItem(items: seq<Json>, i: nat, symbol: Json, earningsDate: Json, show: Json -> string,
                    parse: string -> Option<Instant>, fetchedAt: string, table: map<Json, Dict>,
                    table': map<Json, Dict>, upserts: seq<(Json, Dict)>, inserted: nat)
    returns (error: Option<string>, table'': map<Json, Dict>, upserts': seq<(Json, Dict)>, inserted': nat)
    requires i < |items| && Handled(items, i, symbol, earningsDate, show, parse, fetchedAt, table, table', upserts, inserted)
    ensures error.Some? <==> Accepted(items[..i + 1], symbol, earningsDate, show, parse, fetchedAt).Err?
    ensures error.None? ==> Handled(items, i + 1, symbol, earningsDate, show, parse, fetchedAt, table, table'', upserts', inserted')
    ensures error.Some? ==> table'' == table' && Accepted(items, symbol, earningsDate, show, parse, fetchedAt).Err?
                            && UpsertsMade(items, symbol, earningsDate, show, parse, fetchedAt) == upserts
  {
    AcceptedNext(items, i, symbol, earningsDate, show, parse, fetchedAt);
    if Accepted(items[..i + 1], symbol, earningsDate, show, parse, fetchedAt).Err? {
      AcceptedStopped(items, i + 1, symbol, earningsDate, show, parse, fetchedAt);
      UpsertsMadeAtRaise(items, i, upserts, symbol, earningsDate, show, parse, fetchedAt);
    }
    error, table'', upserts', inserted' := None, table', upserts, inserted;
    match Act(items[i], symbol, earningsDate, show, parse, fetchedAt) {
      case Raise(e) => error := Some(e);
      case Skip =>
      case Write(url, row) =>
        KeyedTable.UpsertAllSnoc(table, upserts, url, row);
        table'' := KeyedTable.Upsert(table', url, row);
        upserts' := upserts + [(url, row)];
        inserted' := inserted + 1;
    }
  }

  /** Once an item has raised, later items change nothing. */
  lemma {:induction false} AcceptedStopped(items: seq<Json>, i: nat, symbol: Json, earningsDate: Json,
                                           show: Json -> string, parse: string -> Option<Instant>, fetchedAt: string)
    requires i <= |items| && Accepted(items[..i], symbol, earningsDate, show, parse, fetchedAt).Err?
    ensures Accepted(items, symbol, earningsDate, show, parse, fetchedAt).Err?
    decreases |items|
  {
    if i < |items| {
      var n := |items| - 1;
      assert items[..n][..i] == items[..i];
      AcceptedStopped(items[..n], i, symbol, earningsDate, show, parse, fetchedAt);
    } else {
      assert items[..i] == items;
    }
  }

  /** The upserts of the whole run over the calendar rows, in order. */
  function AllUpserts(earnings: seq<Dict>, fetch: Json -> Result<Json>, show: Json -> string,
                      parse: string -> Option<Instant>, fetchedAt: string): Result<seq<(Json, Dict)>>
  {
    if earnings == [] then Ok([])
    else
      var n := |earnings| - 1;
      match AllUpserts(earnings[..n], fetch, show, parse, fetchedAt)
      case Err(e) => Err(e)
      case Ok(prev) =>
        match ItemUpserts(earnings[n], fetch, show, parse, fetchedAt)
        case Err(e) => Err(e)
        case Ok(u) => Ok(prev + u)
  }

  /** The upserts the whole run makes before it ends, by running out of
      calendar rows or by the first exception. */
  function AllUpsertsMade(earnings: seq<Dict>, fetch: Json -> Result<Json>, show: Json -> string,
                          parse: string -> Option<Instant>, fetchedAt: string): seq<(Json, Dict)>
  {
    if earnings == [] then []
    else
      var n := |earnings| - 1;
      match AllUpserts(earnings[..n], fetch, show, parse, fetchedAt)
      case Err(_) => AllUpsertsMade(earnings[..n], fetch, show, parse, fetchedAt)
      case Ok(prev) => prev + ItemUpsertsMade(earnings[n], fetch, show, parse, fetchedAt)
  }

  /** A calendar row that raises nothing makes exactly its accepted
      upserts. */
  lemma ItemUpsertsMadeWhenOk(item: Dict, fetch: Json -> Result<Json>, show: Json -> string,
                              parse: string -> Option<Instant>, fetchedAt: string)
    requires ItemUpserts(item, fetch, show, parse, fetchedAt).Ok?
    ensures ItemUpsertsMade(item, fetch, show, parse, fetchedAt) == ItemUpserts(item, fetch, show, parse, fetchedAt).value
  {
    if "symbol" in item && "report_date" in item && fetch(item["symbol"]).Ok? && NewsItems(fetch(item["symbol"]).value).Ok? {
      UpsertsMadeWhenAccepted(NewsItems(fetch(item["symbol"]).value).value, item["symbol"], item["report_date"],
                              show, parse, fetchedAt);
    }
  }

  /** When no calendar row raises, the upserts made are those of all rows in
      order. */
  lemma {:induction false} AllUpsertsMadeWhenOk(earnings: seq<Dict>, fetch: Json -> Result<Json>, show: Json -> string,
                                                parse: string -> Option<Instant>, fetchedAt: string)
    requires AllUpserts(earnings, fetch, show, parse, fetchedAt).Ok?
    ensures AllUpsertsMade(earnings, fetch, show, parse, fetchedAt) == AllUpserts(earnings, fetch, show, parse, fetchedAt).value
  {
    if earnings != [] {
      var n := |earnings| - 1;
      ItemUpsertsMadeWhenOk(earnings[n], fetch, show, parse, fetchedAt);
    }
  }

  /** Once a calendar row has raised, the upserts made are those made up
      to it. */
  lemma {:induction false} AllUpsertsMadeStopped(earnings: seq<Dict>, i: nat, fetch: Json -> Result<Json>,
                                                 show: Json -> string, parse: string -> Option<Instant>,
                                                 fetchedAt: string)
    requires i <= |earnings| && AllUpserts(earnings[..i], fetch, show, parse, fetchedAt).Err?
    ensures AllUpsertsMade(earnings, fetch, show, parse, fetchedAt)
            == AllUpsertsMade(earnings[..i], fetch, show, parse, fetchedAt)
    decreases |earnings|
  {
    if i < |earnings| {
      var n := |earnings| - 1;
      assert earnings[..n][..i] == earnings[..i];
      AllUpsertsStopped(earnings[..n], i, fetch, show, parse, fetchedAt);
      AllUpsertsMadeStopped(earnings[..n], i, fetch, show, parse, fetchedAt);
    } else {
      assert earnings[..i] == earnings;
    }
  }

  /** The upserts made when calendar row `i` raises are those of the rows
      before it followed by those row `i` made before raising. */
  lemma AllUpsertsMadeAtRaise(earnings: seq<Dict>, i: nat, done: seq<(Json, Dict)>, fetch: Json -> Result<Json>,
                              show: Json -> string, parse: string -> Option<Instant>, fetchedAt: string)
    requires i < |earnings| && AllUpserts(earnings[..i], fetch, show, parse, fetchedAt) == Ok(done)
    requires ItemUpserts(earnings[i], fetch, show, parse, fetchedAt).Err?
    ensures AllUpsertsMade(earnings, fetch, show, parse, fetchedAt)
            == done + ItemUpsertsMade(earnings[i], fetch, show, parse, fetchedAt)
  {
    assert earnings[..i + 1][..i] == earnings[..i];
    AllUpsertsMadeStopped(earnings, i + 1, fetch, show, parse, fetchedAt);
  }

  /** `main`: every calendar row in turn; an exception ends the job with the
      upserts made so far in place. */
  method FetchAll(earnings: seq<Dict>, fetch: Json -> Result<Json>, show: Json -> string,
              parse: string -> Option<Instant>, fetchedAt: string, table: map<Json, Dict>)
    returns (ok: bool, table': map<Json, Dict>)
    ensures ok <==> AllUpserts(earnings, fetch, show, parse, fetchedAt).Ok?
    ensures ok ==> table' == KeyedTable.UpsertAll(table, AllUpserts(earnings, fetch, show, parse, fetchedAt).value)
    ensures !ok ==> table' == KeyedTable.UpsertAll(table, AllUpsertsMade(earnings, fetch, show, parse, fetchedAt))
  {
    table' := table;
    ghost var done: seq<(Json, Dict)> := [];
    var i := 0;
    while i < |earnings|
      invariant 0 <= i <= |earnings|
      invariant AllUpserts(earnings[..i], fetch, show, parse, fetchedAt) == Ok(done)
      invariant table' == KeyedTable.UpsertAll(table, done)
    {
      assert earnings[..i + 1][..i] == earnings[..i];
      var r;
      r, table' := ProcessItem(earnings[i], fetch, show, parse, fetchedAt, table');
      if r.Err? {
        AllUpsertsStopped(earnings, i + 1, fetch, show, parse, fetchedAt);
        AllUpsertsMadeAtRaise(earnings, i, done, fetch, show, parse, fetchedAt);
        KeyedTable.UpsertAllConcat(table, done, ItemUpsertsMade(earnings[i], fetch, show, parse, fetchedAt));
        return false, table';
      }
      var u := ItemUpserts(earnings[i], fetch, show, parse, fetchedAt).value;
      KeyedTable.UpsertAllConcat(table, done, u);
      done := done + u;
      i := i + 1;
    }
    assert earnings[..i] == earnings;
    ok := true;
  }

  /** Once a row has raised, later rows change nothing. */
  lemma {:induction false} AllUpsertsStopped(earnings: seq<Dict>, i: nat, fetch: Json -> Result<Json>,
                                             show: Json -> string, parse: string -> Option<Instant>, fetchedAt: string)
    requires i <= |earnings| && AllUpserts(earnings[..i], fetch, show, parse, fetchedAt).Err?
    ensures AllUpserts(earnings, fetch, show, parse, fetchedAt).Err?
    decreases |earnings|
  {
    if i < |earnings| {
      var n := |earnings| - 1;
      assert earnings[..n][..i] == earnings[..i];
      AllUpsertsStopped(earnings[..n], i, fetch, show, parse, fetchedAt);
    } else {
      assert earnings[..i] == earnings;
    }
  }
}
