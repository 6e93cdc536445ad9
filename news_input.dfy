// The news revalidation input builder (news_revalidation_input_builder.py):
// for every symbol with stored news, pair its latest financial score with a
// numbered block of its latest headlines and upsert the pair into
// `news_revalidation_input`, unprocessed.

module NewsInput {
  import opened Base
  import opened Text
  import KeyedTable

  /** The symbol values as text: every one must be a string for `sorted`. */
  function Texts(vals: seq<Json>): (r: Result<seq<string>>)
    ensures r.Ok? <==> forall i :: 0 <= i < |vals| ==> vals[i].JStr?
    ensures r.Ok? ==> |r.value| == |vals| && forall i :: 0 <= i < |vals| ==> vals[i] == JStr(r.value[i])
  {
    if vals == [] then Ok([])
    else
      var n := |vals| - 1;
      match Texts(vals[..n])
      case Err(e) => Err(e)
      case Ok(prev) =>
        if vals[n].JStr? then Ok(prev + [vals[n].s])
        else Err("TypeError: '<' not supported between instances")
  }

  /** `get_symbols_with_news`: `sorted({r["symbol"] for r in rows if r.get("symbol")})`. */
  function SymbolsWithNews(rows: seq<Dict>): (r: Result<seq<string>>)
  {
    match Texts(TruthyColumn(rows, "symbol"))
    case Err(e) => Err(e)
    case Ok(names) => Ok(SortedUnique(names))
  }

  /** The symbols come out ascending, each once, and are exactly the
      non-empty symbol strings of the news rows. */
  lemma SymbolsWithNewsAre(rows: seq<Dict>, x: string)
    requires forall i :: 0 <= i < |rows| ==> Get(rows[i], "symbol").JNull? || Get(rows[i], "symbol").JStr?
    ensures SymbolsWithNews(rows).Ok?
    ensures StrictlyAscending(SymbolsWithNews(rows).value)
    ensures x in SymbolsWithNews(rows).value <==> x != [] && exists i :: 0 <= i < |rows| && Get(rows[i], "symbol") == JStr(x)
  {
    var vals := TruthyColumn(rows, "symbol");
    forall i | 0 <= i < |vals| ensures vals[i].JStr? {
      TruthyColumnKept(rows, "symbol", vals[i]);
    }
    var names := Texts(vals).value;
    TruthyColumnKept(rows, "symbol", JStr(x));
    if x in names {
      var j :| 0 <= j < |names| && names[j] == x;
      assert vals[j] == JStr(x);
    }
    if x != [] && exists i :: 0 <= i < |rows| && Get(rows[i], "symbol") == JStr(x) {
      var j :| 0 <= j < |vals| && vals[j] == JStr(x);
      assert names[j] == x;
    }
  }

  /** A symbol that is neither None nor a string stops the run. */
  lemma SymbolsWithNewsFails(rows: seq<Dict>, i: nat)
    requires i < |rows| && Truthy(Get(rows[i], "symbol")) && !Get(rows[i], "symbol").JStr?
    ensures SymbolsWithNews(rows).Err?
  {
    TruthyColumnKept(rows, "symbol", Get(rows[i], "symbol"));
  }

  /** A news row enters the block only with a truthy title and body. */
  predicate HasText(row: Dict)
  {
    Truthy(Get(row, "title")) && Truthy(Get(row, "body"))
  }

  /** The entry of the row at 1-based position `n`. */
  function Entry(n: nat, row: Dict, show: Json -> string): (r: string)
    ensures r != [] && r[0] == '['
  {
    "[" + NatToString(n) + "]\nSource: " + Str(Get(row, "site"), show)
    + "\nTitle: " + Str(Get(row, "title"), show)
    + "\nBody: " + Str(Get(row, "body"), show) + "\n"
  }

  /** The 0-based positions of the rows that enter the block, ascending. */
  function Kept(rows: seq<Dict>): (r: seq<nat>)
    ensures forall j :: 0 <= j < |r| ==> r[j] < |rows| && HasText(rows[r[j]])
    ensures forall j, k :: 0 <= j < k < |r| ==> r[j] < r[k]
    ensures forall i :: 0 <= i < |rows| && HasText(rows[i]) ==> i in r
  {
    if rows == [] then []
    else
      var n := |rows| - 1;
      var prev := Kept(rows[..n]);
      assert forall j :: 0 <= j < |prev| ==> rows[prev[j]] == rows[..n][prev[j]];
      assert forall i :: 0 <= i < n ==> rows[i] == rows[..n][i];
      prev + (if HasText(rows[n]) then [n] else [])
  }

  /** The entries of the loop in `collect_news_block`, built row by row;
      `entry` formats a row given its 1-based position. */
  function Entries(rows: seq<Dict>, entry: (nat, Dict) -> string): seq<string>
  {
    if rows == [] then []
    else
      var n := |rows| - 1;
      Entries(rows[..n], entry) + (if HasText(rows[n]) then [entry(n + 1, rows[n])] else [])
  }

  /** There is one entry per kept row. */
  lemma {:induction false} EntriesCount(rows: seq<Dict>, entry: (nat, Dict) -> string)
    ensures |Entries(rows, entry)| == |Kept(rows)|
  {
    if rows != [] {
      EntriesCount(rows[..|rows| - 1], entry);
    }
  }

  /** Entry j is the j-th kept row, numbered by its position among all rows
      (counted from 1), so a skipped row leaves a gap in the numbering. */
  lemma {:induction false} EntriesNumbered(rows: seq<Dict>, entry: (nat, Dict) -> string, j: nat)
    requires j < |Kept(rows)|
    ensures |Entries(rows, entry)| == |Kept(rows)|
    ensures Entries(rows, entry)[j] == entry(Kept(rows)[j] + 1, rows[Kept(rows)[j]])
  {
    EntriesCount(rows, entry);
    var n := |rows| - 1;
    var prev := Kept(rows[..n]);
    EntriesCount(rows[..n], entry);
    if j < |prev| {
      EntriesNumbered(rows[..n], entry, j);
      assert rows[prev[j]] == rows[..n][prev[j]];
    }
  }

  /** The formatter of `collect_news_block`. */
  function Formatter(show: Json -> string): (nat, Dict) -> string
  {
    (n: nat, row: Dict) => Entry(n, row, show)
  }

  /** `collect_news_block` over the query's rows (newest first, at most five):
      the entries joined by newlines and stripped. */
  function NewsBlock(rows: seq<Dict>, show: Json -> string): string
  {
    if rows == [] then "" else Strip(Join(Entries(rows, Formatter(show)), "\n"))
  }

  lemma JoinStartsWith(parts: seq<string>, sep: string)
    requires parts != [] && parts[0] != []
    ensures Join(parts, sep) != [] && Join(parts, sep)[0] == parts[0][0]
  {
  }

  /** Stripping cannot empty a text that starts with a visible character. */
  lemma StripKeepsVisibleStart(s: string)
    requires s != [] && !IsSpace(s[0])
    ensures Strip(s) != []
  {
    assert TrimLeft(s, IsSpace) == s;
  }

  /** A kept row gives the block a first entry, which stripping keeps. */
  lemma NewsBlockNonEmpty(rows: seq<Dict>, show: Json -> string)
    requires Kept(rows) != []
    ensures NewsBlock(rows, show) != []
  {
    var parts := Entries(rows, Formatter(show));
    EntriesNumbered(rows, Formatter(show), 0);
    var first := Entry(Kept(rows)[0] + 1, rows[Kept(rows)[0]], show);
    assert parts[0] == first && first[0] == '[';
    JoinStartsWith(parts, "\n");
    StripKeepsVisibleStart(Join(parts, "\n"));
  }

  /** The block is empty exactly when no row has both a title and a body. */
  lemma NewsBlockEmptyIff(rows: seq<Dict>, show: Json -> string)
    ensures NewsBlock(rows, show) == [] <==> Kept(rows) == []
  {
    if Kept(rows) != [] {
      NewsBlockNonEmpty(rows, show);
    } else {
      EntriesCount(rows, Formatter(show));
    }
  }

  /** One more row adds its entry, if it has one. */
  lemma EntriesNext(rows: seq<Dict>, i: nat, entry: (nat, Dict) -> string)
    requires i < |rows|
    ensures Entries(rows[..i + 1], entry)
            == Entries(rows[..i], entry) + (if HasText(rows[i]) then [entry(i + 1, rows[i])] else [])
  {
    assert rows[..i + 1][..i] == rows[..i];
  }

  /** The loop of `collect_news_block`. */
  method CollectNewsBlock(rows: seq<Dict>, show: Json -> string) returns (block: string)
    ensures block == NewsBlock(rows, show)
  {
    if rows == [] {
      return "";
    }
    var parts: seq<string> := [];
    for i := 0 to |rows|
      invariant parts == Entries(rows[..i], Formatter(show))
    {
      EntriesNext(rows, i, Formatter(show));
      if HasText(rows[i]) {
        parts := parts + [Entry(i + 1, rows[i], show)];
      }
    }
    assert rows[..|rows|] == rows;
    block := Strip(Join(parts, "\n"));
  }

  /** `get_latest_baseline` over the query's rows (newest score first, at
      most one): the row, unless there is none or its score is None. */
  function Baseline(rows: seq<Dict>): (r: Option<Dict>)
    ensures r.Some? <==> rows != [] && Get(rows[0], "total_score") != JNull
    ensures r.Some? ==> r.value == rows[0]
  {
    if rows == [] then None
    else if Get(rows[0], "total_score") == JNull then None
    else Some(rows[0])
  }

  /** `news_revalidation_input` keyed on (symbol, analysis_date). */
  type Key = (Json, Json)

  /** The payload of `upsert_news_revalidation_input`. */
  function Payload(symbol: string, baseline: Dict, block: string, createdAt: string): (r: Dict)
    ensures r.Keys == {"symbol", "analysis_date", "base_score", "news_block", "processed", "created_at"}
    ensures r["symbol"] == JStr(symbol) && r["news_block"] == JStr(block) && r["processed"] == JBool(false)
    ensures r["analysis_date"] == Get(baseline, "analysis_date") && r["base_score"] == Get(baseline, "total_score")
  {
    map["symbol" := JStr(symbol), "analysis_date" := Get(baseline, "analysis_date"),
        "base_score" := Get(baseline, "total_score"), "news_block" := JStr(block),
        "processed" := JBool(false), "created_at" := JStr(createdAt)]
  }

  /** One symbol of `main`: `scores` and `news` give the two queries' rows. */
  function InputFor(symbol: string, scores: string -> seq<Dict>, news: string -> seq<Dict>,
                    show: Json -> string, createdAt: string): (r: Option<(Key, Dict)>)
    ensures r.Some? <==> Baseline(scores(symbol)).Some? && Kept(news(symbol)) != []
    ensures r.Some? ==>
              var base := scores(symbol)[0];
              var block := NewsBlock(news(symbol), show);
              block != [] && Get(base, "total_score") != JNull
              && r.value == ((JStr(symbol), Get(base, "analysis_date")), Payload(symbol, base, block, createdAt))
  {
    NewsBlockEmptyIff(news(symbol), show);
    match Baseline(scores(symbol))
    case None => None
    case Some(base) =>
      var block := NewsBlock(news(symbol), show);
      if block == [] then None
      else Some(((JStr(symbol), Get(base, "analysis_date")), Payload(symbol, base, block, createdAt)))
  }

  /** The input of each symbol, as one function for the loop of `main`. */
  function InputOf(scores: string -> seq<Dict>, news: string -> seq<Dict>, show: Json -> string,
                   createdAt: string): string -> Option<(Key, Dict)>
  {
    s => InputFor(s, scores, news, show, createdAt)
  }

  /** Every row `main` writes is the unprocessed input of a listed symbol
      that has a baseline score and a usable headline. */
  lemma WrittenInputIsFor(symbols: seq<string>, scores: string -> seq<Dict>, news: string -> seq<Dict>,
                          show: Json -> string, createdAt: string, e: (Key, Dict))
    requires e in FilterMap(symbols, InputOf(scores, news, show, createdAt))
    ensures exists s :: s in symbols && Baseline(scores(s)).Some? && Kept(news(s)) != []
              && NewsBlock(news(s), show) != [] && Get(scores(s)[0], "total_score") != JNull
              && e == ((JStr(s), Get(scores(s)[0], "analysis_date")),
                       Payload(s, scores(s)[0], NewsBlock(news(s), show), createdAt))
  {
    var input := InputOf(scores, news, show, createdAt);
    FilterMapAre(symbols, input, e);
    var s :| s in symbols && input(s) == Some(e);
    assert InputFor(s, scores, news, show, createdAt) == Some(e);
  }

  /** Every listed symbol with a baseline score and a usable headline has its
      input written. */
  lemma EverySymbolWithInputIsWritten(symbols: seq<string>, scores: string -> seq<Dict>, news: string -> seq<Dict>,
                                      show: Json -> string, createdAt: string, s: string)
    requires s in symbols && Baseline(scores(s)).Some? && Kept(news(s)) != []
    ensures exists row :: ((JStr(s), Get(scores(s)[0], "analysis_date")), row) in FilterMap(symbols, InputOf(scores, news, show, createdAt))
  {
    var input := InputOf(scores, news, show, createdAt);
    var e := InputFor(s, scores, news, show, createdAt).value;
    assert input(s) == Some(e);
    FilterMapAre(symbols, input, e);
  }

  /** The loop of `main` over the sorted symbols. */
  method BuildInputs(symbols: seq<string>, scores: string -> seq<Dict>, news: string -> seq<Dict>,
                     show: Json -> string, createdAt: string, table: map<Key, Dict>) returns (table': map<Key, Dict>)
    ensures table' == KeyedTable.UpsertAll(table, FilterMap(symbols, InputOf(scores, news, show, createdAt)))
  {
    var input := InputOf(scores, news, show, createdAt);
    table' := table;
    for i := 0 to |symbols|
      invariant table' == KeyedTable.UpsertAll(table, FilterMap(symbols[..i], input))
    {
      FilterMapNext(symbols, i, input);
      var prev := FilterMap(symbols[..i], input);
      var w := input(symbols[i]);
      if w.Some? {
        var (k, row) := w.value;
        assert FilterMap(symbols[..i + 1], input) == prev + [(k, row)];
        KeyedTable.UpsertAllSnoc(table, prev, k, row);
        table' := KeyedTable.Upsert(table', k, row);
      } else {
        assert FilterMap(symbols[..i + 1], input) == prev;
      }
    }
    assert symbols[..|symbols|] == symbols;
  }

  /** `main`: `newsRows` are the `fmp_news` symbol rows; a symbol that cannot
      be sorted stops the run before any write. */
  method BuildAll(newsRows: seq<Dict>, scores: string -> seq<Dict>, news: string -> seq<Dict>,
              show: Json -> string, createdAt: string, table: map<Key, Dict>)
    returns (error: Option<string>, table': map<Key, Dict>)
    ensures SymbolsWithNews(newsRows).Err? ==> error == Some(SymbolsWithNews(newsRows).msg) && table' == table
    ensures SymbolsWithNews(newsRows).Ok? ==>
              error.None? && table' == KeyedTable.UpsertAll(table, FilterMap(SymbolsWithNews(newsRows).value, InputOf(scores, news, show, createdAt)))
  {
    match SymbolsWithNews(newsRows)
    case Err(e) =>
      error, table' := Some(e), table;
    case Ok(symbols) =>
      error := None;
      table' := BuildInputs(symbols, scores, news, show, createdAt, table);
  }
}
