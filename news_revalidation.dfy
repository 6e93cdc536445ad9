// The news fundamental revalidation runner
// (news_fundamental_revalidation_runner.py): for every symbol with stored
// news, send its latest financial score and all its headlines to the
// language model and upsert the verdict into `news_analyst_core`.

module NewsRevalidation {
  import opened Base
  import opened Text
  import KeyedTable
  import NewsInput

  /** One news item as `collect_news_for_symbol` keeps it. */
  function Item(row: Dict): (r: Dict)
    ensures r.Keys == {"site", "title", "body"}
    ensures r["site"] == Get(row, "site") && r["title"] == Get(row, "title") && r["body"] == Get(row, "body")
  {
    map["site" := Get(row, "site"), "title" := Get(row, "title"), "body" := Get(row, "body")]
  }

  /** `collect_news_for_symbol` over the query's rows (newest first): the
      rows with a truthy title and body, reduced to three columns. */
  function NewsItems(rows: seq<Dict>): seq<Dict>
  {
    if rows == [] then []
    else
      var n := |rows| - 1;
      NewsItems(rows[..n]) + (if NewsInput.HasText(rows[n]) then [Item(rows[n])] else [])
  }

  /** The items are the kept rows, in their original order. */
  lemma {:induction false} NewsItemsAreKeptRows(rows: seq<Dict>, j: nat)
    ensures |NewsItems(rows)| == |NewsInput.Kept(rows)|
    ensures j < |NewsItems(rows)| ==> NewsItems(rows)[j] == Item(rows[NewsInput.Kept(rows)[j]])
  {
    if rows != [] {
      var n := |rows| - 1;
      var prev := NewsInput.Kept(rows[..n]);
      NewsItemsAreKeptRows(rows[..n], j);
      if j < |prev| {
        assert rows[prev[j]] == rows[..n][prev[j]];
      }
    }
  }

  /** One entry of the block built in `run_revalidation_ai`. */
  function Entry(n: nat, item: Dict, show: Json -> string): string
  {
    "\n[" + NatToString(n) + "]\nSource: " + Str(Get(item, "site"), show)
    + "\nTitle: " + Str(Get(item, "title"), show)
    + "\nBody: " + Str(Get(item, "body"), show) + "\n"
  }

  /** The block the loop of `run_revalidation_ai` builds with `+=`, with
      `entry` formatting an item given its 1-based position. */
  function Block(items: seq<Dict>, entry: (nat, Dict) -> string): string
  {
    if items == [] then ""
    else
      var n := |items| - 1;
      Block(items[..n], entry) + entry(n + 1, items[n])
  }

  /** Item j is the entry numbered j + 1: the numbers run 1..n over the kept
      items, without gaps, unlike the input builder's numbering. */
  lemma {:induction false} BlockNumbersConsecutively(items: seq<Dict>, entry: (nat, Dict) -> string, j: nat)
    requires j < |items|
    ensures Block(items[..j], entry) + entry(j + 1, items[j]) <= Block(items, entry)
  {
    var n := |items| - 1;
    assert items[..n + 1] == items;
    if j < n {
      BlockNumbersConsecutively(items[..n], entry, j);
      assert items[..n][..j] == items[..j] && items[..n][j] == items[j];
    }
  }

  /** The formatter of `run_revalidation_ai`. */
  function Formatter(show: Json -> string): (nat, Dict) -> string
  {
    (n: nat, item: Dict) => Entry(n, item, show)
  }

  /** One more item appends its entry. */
  lemma BlockNext(items: seq<Dict>, i: nat, entry: (nat, Dict) -> string)
    requires i < |items|
    ensures Block(items[..i + 1], entry) == Block(items[..i], entry) + entry(i + 1, items[i])
  {
    assert items[..i + 1][..i] == items[..i];
  }

  /** The `+=` loop of `run_revalidation_ai`. */
  method BuildNewsBlock(items: seq<Dict>, show: Json -> string) returns (block: string)
    ensures block == Block(items, Formatter(show))
  {
    block := "";
    for i := 0 to |items|
      invariant block == Block(items[..i], Formatter(show))
    {
      BlockNext(items, i, Formatter(show));
      block := block + Entry(i + 1, items[i], show);
    }
    assert items[..|items|] == items;
  }

  /** The columns of `news_analyst_core` copied from the model's verdict. */
  const VerdictColumns: set<string> := {
    "fundamental_change_flag", "fundamental_change_reason", "updated_total_score",
    "earnings_analysis_text", "bias_label", "bias_confidence", "bias_summary",
    "short_term_bias", "confidence_level", "market_focus"}

  /** The payload of `update_news_analyst_core`. */
  function CorePayload(symbol: string, analysisDate: Json, verdict: Dict, updatedAt: string): (r: Dict)
    ensures r.Keys == VerdictColumns + {"symbol", "analysis_date", "updated_at"}
    ensures r["symbol"] == JStr(symbol) && r["analysis_date"] == analysisDate && r["updated_at"] == JStr(updatedAt)
    ensures forall c :: c in VerdictColumns ==> r[c] == Get(verdict, c)
  {
    assert "symbol" !in VerdictColumns && "analysis_date" !in VerdictColumns && "updated_at" !in VerdictColumns;
    (map c | c in VerdictColumns :: Get(verdict, c))
      ["symbol" := JStr(symbol)]["analysis_date" := analysisDate]["updated_at" := JStr(updatedAt)]
  }

  /** `news_analyst_core` keyed on (symbol, analysis_date). */
  type Key = (Json, Json)

  /** What `run_for_symbol` does for one symbol. */
  datatype Outcome =
    | NoNews
    | NoBaseline
    | NoVerdict
    | Failed(msg: string)
    | Written(key: Key, payload: Dict)

  /** The outside world of one run: the two queries per symbol, the model's
      reply to a prompt (None when the call raises), JSON parsing, `str`,
      and the one timestamp of the run. */
  datatype World = World(
    news: string -> seq<Dict>,
    scores: string -> seq<Dict>,
    ai: (string, Dict, string) -> Option<string>,
    parse: string -> Option<Json>,
    show: Json -> string,
    updatedAt: string)

  /** `run_for_symbol`: no news, or a latest score that is missing or falsy
      (0 included), skips the symbol; only a reply that parses to an object
      is written. */
  function RunForSymbol(symbol: string, w: World): (r: Outcome)
    ensures NewsItems(w.news(symbol)) == [] ==> r == NoNews
    ensures NewsItems(w.news(symbol)) != [] && (w.scores(symbol) == [] || !Truthy(Get(w.scores(symbol)[0], "total_score")))
            ==> r == NoBaseline
    ensures NewsItems(w.news(symbol)) != [] && w.scores(symbol) != [] && Truthy(Get(w.scores(symbol)[0], "total_score")) ==>
              var base := w.scores(symbol)[0];
              var reply := w.ai(symbol, base, Block(NewsItems(w.news(symbol)), Formatter(w.show)));
              reply.Some? && w.parse(Strip(reply.value)).Some? && Truthy(w.parse(Strip(reply.value)).value)
              && w.parse(Strip(reply.value)).value.JObj? ==>
                var date := Get(base, "analysis_date");
                r == Written((JStr(symbol), date), CorePayload(symbol, date, w.parse(Strip(reply.value)).value.fields, w.updatedAt))
    ensures r.Written? ==>
              NewsItems(w.news(symbol)) != [] && w.scores(symbol) != []
              && var reply := w.ai(symbol, w.scores(symbol)[0], Block(NewsItems(w.news(symbol)), Formatter(w.show)));
              reply.Some? && w.parse(Strip(reply.value)).Some? && w.parse(Strip(reply.value)).value.JObj?
              && Truthy(w.parse(Strip(reply.value)).value)
              && r.payload.Keys == VerdictColumns + {"symbol", "analysis_date", "updated_at"}
              && forall c :: c in VerdictColumns ==> r.payload[c] == Get(w.parse(Strip(reply.value)).value.fields, c)
    ensures r.Written? ==>
              NewsItems(w.news(symbol)) != [] && w.scores(symbol) != []
              && var base := w.scores(symbol)[0];
              Truthy(Get(base, "total_score"))
              && r.key == (JStr(symbol), Get(base, "analysis_date"))
              && r.payload.Keys == VerdictColumns + {"symbol", "analysis_date", "updated_at"}
              && r.payload["symbol"] == JStr(symbol) && r.payload["analysis_date"] == Get(base, "analysis_date")
  {
    var items := NewsItems(w.news(symbol));
    if items == [] then NoNews
    else
      var rows := w.scores(symbol);
      if rows == [] || !Truthy(Get(rows[0], "total_score")) then NoBaseline
      else
        var base := rows[0];
        match w.ai(symbol, base, Block(items, Formatter(w.show)))
        case None => Failed("the model call raised")
        case Some(content) =>
          match w.parse(Strip(content))
          case None => NoVerdict
          case Some(verdict) =>
            if !Truthy(verdict) then NoVerdict
            else if !verdict.JObj? then Failed("AttributeError: object has no attribute 'get'")
            else
              var date := Get(base, "analysis_date");
              Written((JStr(symbol), date), CorePayload(symbol, date, verdict.fields, w.updatedAt))
  }

  /** The write of one symbol, if any. */
  function WriteOf(w: World): string -> Option<(Key, Dict)>
  {
    s => var o := RunForSymbol(s, w); if o.Written? then Some((o.key, o.payload)) else None
  }

  /** Every row the run writes belongs to a listed symbol that had news and
      a truthy latest score, under that symbol's own key. */
  lemma WrittenRowIsFor(symbols: seq<string>, w: World, e: (Key, Dict))
    requires e in FilterMap(symbols, WriteOf(w))
    ensures exists s :: s in symbols && NewsItems(w.news(s)) != [] && w.scores(s) != []
              && Truthy(Get(w.scores(s)[0], "total_score"))
              && e.0 == (JStr(s), Get(w.scores(s)[0], "analysis_date"))
  {
    FilterMapAre(symbols, WriteOf(w), e);
    var s :| s in symbols && WriteOf(w)(s) == Some(e);
    assert RunForSymbol(s, w).Written?;
  }

  /** The loop of `main`; an exception for one symbol ends only that
      symbol's turn. */
  method RunSymbols(symbols: seq<string>, w: World, table: map<Key, Dict>) returns (table': map<Key, Dict>)
    ensures table' == KeyedTable.UpsertAll(table, FilterMap(symbols, WriteOf(w)))
  {
    var write := WriteOf(w);
    table' := table;
    for i := 0 to |symbols|
      invariant table' == KeyedTable.UpsertAll(table, FilterMap(symbols[..i], write))
    {
      FilterMapNext(symbols, i, write);
      var prev := FilterMap(symbols[..i], write);
      var o := write(symbols[i]);
      if o.Some? {
        var (k, row) := o.value;
        assert FilterMap(symbols[..i + 1], write) == prev + [(k, row)];
        KeyedTable.UpsertAllSnoc(table, prev, k, row);
        table' := KeyedTable.Upsert(table', k, row);
      } else {
        assert FilterMap(symbols[..i + 1], write) == prev;
      }
    }
    assert symbols[..|symbols|] == symbols;
  }

  /** `main`: `newsRows` are the `fmp_news` symbol rows; a symbol that cannot
      be sorted stops the run before any write. */
  method Run(newsRows: seq<Dict>, w: World, table: map<Key, Dict>) returns (error: Option<string>, table': map<Key, Dict>)
    ensures NewsInput.SymbolsWithNews(newsRows).Err? ==> error.Some? && table' == table
    ensures NewsInput.SymbolsWithNews(newsRows).Ok? ==>
              error.None? && table' == KeyedTable.UpsertAll(table, FilterMap(NewsInput.SymbolsWithNews(newsRows).value, WriteOf(w)))
  {
    match NewsInput.SymbolsWithNews(newsRows)
    case Err(e) =>
      error, table' := Some(e), table;
    case Ok(symbols) =>
      error := None;
      table' := RunSymbols(symbols, w, table);
  }
}
