# Analyst44 worker, modelled in Dafny

Analyst44 is a set of Python batch workers that keep a Supabase database of
market data and analyst output up to date. Each worker reads from the
Financial Modeling Prep (FMP) HTTP API, from other tables, or from a language
model, reshapes what it gets, and inserts, upserts or deletes rows:

- the earnings calendar for today (US symbols only), the backfill of
  symbols whose latest earnings date is missing, and the earnings news of
  the calendar's symbols;
- quarterly financial statements (income, balance, cash flow, ratios,
  growth, key metrics, rating, estimates and the last earnings event) and
  the last two income statements per symbol, with a job log row per run;
- the financial scores the language model gives two reports, the history
  copy of those scores, and the daily jobs digest;
- the news revalidation pipeline: the input builder, the AI runner and the
  fundamental revalidation runner;
- the SPY and VIX market data: the 5-minute cycle with VWAP, EMA and MACD
  indicators, the live 5-minute quote builders, the 5-minute history
  updates, the SPY daily bars, the VIX daily history, and the daily SPY
  market state the language model decides.

The model keeps each worker's logic and drops its I/O. A database table is a
value: a `seq` of rows for an insert-only table, or a `map` from the
table's conflict key to the row for an upserted one. Every HTTP response,
query result, language-model reply and clock reading is a parameter. The
model covers which rows a run writes, under which key, with which columns,
in which order, and which inputs make it stop. Python values (`None`, bools,
ints, floats, strings, lists and dicts) are the `Json` datatype of
`base.dfy`, and `Truthy`, `Get`, `Or` give Python's truthiness, `dict.get`
and `or`. Loops that fill a table are methods. Each is proved against a
function over the whole input (`UpsertAll`, `FilterMap`, `Chunks`), and the
properties are proved as lemmas about those functions.

Modules, one per worker, plus shared ones: `Base` (Python values), `Text`
(string built-ins), `Clock` (dates, instants, ISO formatting), `KeyedTable`
(upsert semantics), `Batching` (chunked inserts), `Fmp` (FMP response
shapes), `Candles` and `Indicators` (5-minute bars and their indicators).

## Model

| member | source | states |
|---|---|---|
| Base.Or | analyst_financial_scores_worker.py:156 | `a or b` is `a` when `a` is truthy and `b` otherwise; the result is truthy iff either operand is |
| Base.TruthyColumn | analyst_financial_scores_worker.py:48 | every kept symbol is truthy, and there are no more of them than rows |
| Base.TruthyColumnKept | analyst_financial_scores_worker.py:48 | a value is in the list iff some row carries it, truthy, in that column |
| Base.FilterMapAre | news_fundamental_revalidation_runner.py:266-270 | a loop that writes at most one row per element writes a row iff some element yields it |
| Base.ReadReal | saifan_01_spy.py:54 | `float(d[k])` succeeds iff the key is present and holds a number (bool, int or float), and then gives that number |
| Base.Trunc | jobs_digest_daily.py:183 | `int()` of a float truncates toward zero: the result is within 1 of the input, on the zero side |
| Base.ProjectAt | analyst_financial_statements_worker.py:149-243 | every column of a `{"col": row.get("key"), ...}` record holds exactly the value read from its key, so a missing key gives `None` |
| Base.ProjectEmpty | analyst_financial_statements_worker.py:139-145 | a record read from a missing statement (`{}`) has every column `None` |
| Text.TrimLeft | spy_market_state_daily_runner.py:22 | the result is a suffix of the input that does not start with a dropped character, and everything removed was dropped |
| Text.TrimRight | spy_market_state_daily_runner.py:22 | the result is a prefix of the input that does not end with a dropped character, and everything removed was dropped |
| Text.StripIsSlice | news_fundamental_revalidation_runner.py:171 | `strip()` leaves one contiguous piece of the input whose ends are not whitespace |
| Text.ContainsAnyIff | fmp_earnings_news_fetcher.py:65 | `any(k in text for k in keywords)` holds iff one of the keywords occurs in the text |
| Text.ReplaceCharConcat | news_revalidation_ai_runner.py:89 | replacing a one-character pattern distributes over concatenation |
| Text.ReplaceAbsentChar | news_revalidation_ai_runner.py:89 | replacing a character that does not occur leaves the text unchanged |
| Text.NoFenceLeft | news_revalidation_ai_runner.py:89 | after `replace("```", "")` no three backticks in a row are left |
| Text.LexLtIrreflexive | news_revalidation_input_builder.py:34 | Python's string order is irreflexive |
| Text.LexLtTransitive | news_revalidation_input_builder.py:34 | Python's string order is transitive |
| Text.LexLtTotal | news_revalidation_input_builder.py:34 | two different strings are in order one way or the other |
| Text.SortedUnique | news_revalidation_input_builder.py:34 | `sorted(set(xs))` is strictly ascending and has exactly the members of `xs` |
| Text.LexLtAsymmetric | news_revalidation_input_builder.py:34 | string order never holds both ways |
| Text.LexLeTransitive | news_revalidation_input_builder.py:34 | string order with equality is transitive |
| Text.LexLeTotal | news_revalidation_input_builder.py:34 | any two strings are in order one way or the other |
| Text.AscendingDistinct | news_revalidation_input_builder.py:34 | a strictly ascending list has no repeated element |
| Text.NatToString | news_revalidation_input_builder.py:60 | `str(n)` of a position is a non-empty run of decimal digits |
| NewsInput.Texts | news_revalidation_input_builder.py:34 | the symbols can be sorted iff every one is a string, and then they are those strings |
| NewsInput.SymbolsWithNewsAre | news_revalidation_input_builder.py:29-34 | with string symbols the list is strictly ascending and holds exactly the non-empty symbols of the news rows |
| NewsInput.SymbolsWithNewsFails | news_revalidation_input_builder.py:34 | a truthy symbol that is not a string makes `sorted` raise |
| NewsInput.Entry | news_revalidation_input_builder.py:59-64 | an entry opens with its `[n]` number |
| NewsInput.Kept | news_revalidation_input_builder.py:55-57 | the positions kept are ascending, each has a truthy title and body, and every such row is kept |
| NewsInput.EntriesCount | news_revalidation_input_builder.py:54-65 | there is one entry per row with a title and a body |
| NewsInput.EntriesNumbered | news_revalidation_input_builder.py:55-64 | entry j is the j-th kept row, numbered by its 1-based position among all rows, so a skipped row leaves a gap in the numbering |
| NewsInput.NewsBlockNonEmpty | news_revalidation_input_builder.py:54-67 | a kept row makes the stripped block non-empty |
| NewsInput.NewsBlockEmptyIff | news_revalidation_input_builder.py:51-67 | the block is empty iff no row has both a title and a body |
| NewsInput.CollectNewsBlock | news_revalidation_input_builder.py:54-67 | the loop builds the entries of the kept rows, joined by newlines and stripped |
| NewsInput.Baseline | news_revalidation_input_builder.py:73-91 | there is a baseline iff the query returned a row whose `total_score` is not None, and it is that row |
| NewsInput.Payload | news_revalidation_input_builder.py:103-110 | the six columns: symbol, the baseline's date and score, the block, `processed` false and the timestamp |
| NewsInput.InputFor | news_revalidation_input_builder.py:126-142 | a symbol gets an input iff it has a baseline and a row with title and body; the input is keyed on (symbol, baseline date) |
| NewsInput.WrittenInputIsFor | news_revalidation_input_builder.py:120-142 | every row written is the unprocessed input of a listed symbol with a baseline score and a non-empty block |
| NewsInput.EverySymbolWithInputIsWritten | news_revalidation_input_builder.py:126-142 | every listed symbol with a baseline and a usable headline has its input written under its key |
| NewsInput.BuildInputs | news_revalidation_input_builder.py:126-144 | the loop upserts each symbol's input in order |
| NewsInput.BuildAll | news_revalidation_input_builder.py:120-146 | symbols that cannot be sorted stop the run with the table unchanged; otherwise every symbol's input is upserted in sorted order |
| NewsRevalidation.Item | news_fundamental_revalidation_runner.py:64-69 | a news item has exactly site, title and body, each read with `get` |
| NewsRevalidation.NewsItemsAreKeptRows | news_fundamental_revalidation_runner.py:64-72 | the items are the rows with a truthy title and body, in their order, reduced to three columns |
| NewsRevalidation.BlockNumbersConsecutively | news_fundamental_revalidation_runner.py:132-139 | item j is entry number j + 1, right after the entries of the items before it: no gaps, unlike the input builder |
| NewsRevalidation.BuildNewsBlock | news_fundamental_revalidation_runner.py:132-139 | the `+=` loop builds the numbered entries of all items |
| NewsRevalidation.CorePayload | news_fundamental_revalidation_runner.py:192-215 | the payload has the ten verdict columns read with `get`, plus symbol, analysis date and timestamp |
| NewsRevalidation.RunForSymbol | news_fundamental_revalidation_runner.py:228-254 | no news skips; a missing or falsy latest score skips; a reply that parses to a truthy object is written as `CorePayload` of the verdict under (symbol, baseline date), and only such a reply (parsed, truthy, an object) is written |
| NewsRevalidation.WrittenRowIsFor | news_fundamental_revalidation_runner.py:258-270 | every written row belongs to a listed symbol with news and a truthy latest score, under that symbol's key |
| NewsRevalidation.RunSymbols | news_fundamental_revalidation_runner.py:266-270 | the loop upserts each symbol's verdict in order; a failing symbol writes nothing and the loop goes on |
| NewsRevalidation.Run | news_fundamental_revalidation_runner.py:27-41 | symbols that cannot be sorted stop the run with the table unchanged; otherwise every symbol is run in sorted order |
| AiRunner.CleanIsBare | news_revalidation_ai_runner.py:88-89 | the cleaned reply holds no code fence and has no surrounding whitespace |
| AiRunner.Rekey | news_revalidation_ai_runner.py:97 | the rebuilt dict has exactly the rewritten keys of the parsed object |
| AiRunner.RekeyLastWins | news_revalidation_ai_runner.py:97 | when two keys strip to the same text, the later item's value wins |
| AiRunner.NormalizedKeysTrimmed | news_revalidation_ai_runner.py:97 | no key keeps surrounding whitespace |
| AiRunner.Validate | news_revalidation_ai_runner.py:103-117 | the reply is accepted iff its symbol is the one asked about, its label is one of the six, and both scores are ints (bool included); an unhashable label with the right symbol raises |
| AiRunner.RunAi | news_revalidation_ai_runner.py:88-117 | a failed call raises; a reply that is not a JSON object gives None; an object is validated with its keys stripped, and only a valid one is returned |
| AiRunner.Pending | news_revalidation_ai_runner.py:48-57 | every pending row is a row of the table with `processed` false |
| AiRunner.PendingAt | news_revalidation_ai_runner.py:48-57 | the positions of the rows with `processed` false: ascending, each such a row, and every such row included |
| AiRunner.PendingInOrder | news_revalidation_ai_runner.py:48-57 | the pending rows are exactly the rows with `processed` false, in table order: none is missed |
| AiRunner.FetchPending | news_revalidation_ai_runner.py:48-57 | at most ten pending rows, exactly ten when there are that many, each reduced to symbol, base_score and news_block |
| AiRunner.Verdicts | news_revalidation_ai_runner.py:129-142 | no more verdicts than rows |
| AiRunner.VerdictsFromRows | news_revalidation_ai_runner.py:129-142 | every logged verdict is the accepted result of a row carrying its symbol |
| AiRunner.VerdictsErrStays | news_revalidation_ai_runner.py:129-142 | an exception ends the run: the rows after it add nothing |
| AiRunner.LoggedVerdictsValid | news_revalidation_ai_runner.py:123-142 | every logged verdict is about a fetched row, names that row's symbol, has an allowed label and int scores |
| AiRunner.LogVerdicts | news_revalidation_ai_runner.py:129-142 | the loop logs exactly the verdicts of the rows, stopping at the first exception |
| AiRunner.RunPending | news_revalidation_ai_runner.py:123-144 | the run reads the pending rows and only logs their verdicts; nothing is written |
| FinancialStatements.FirstOrNone | analyst_financial_statements_worker.py:61-74 | a failed or falsy reply gives None, a non-empty list its first element, and a dict or a number (which cannot be indexed by 0) None |
| FinancialStatements.DictOrEmpty | analyst_financial_statements_worker.py:139-145 | None reads as `{}`, a dict as itself, and anything else raises at its first `.get` |
| FinancialStatements.IndexByDate | analyst_financial_statements_worker.py:268 | indexing succeeds iff every row is a dict whose date can be a key |
| FinancialStatements.IndexByDateKeys | analyst_financial_statements_worker.py:268 | a date is a key of the index iff some row has it |
| FinancialStatements.IndexByDateLast | analyst_financial_statements_worker.py:268 | the row kept for a date is the last row of that date |
| FinancialStatements.ByDate | analyst_financial_statements_worker.py:266-284 | a failed or empty fetch gives an empty index; a non-empty index comes from a list reply |
| FinancialStatements.PastRows | analyst_financial_statements_worker.py:87 | every kept row is a fetched row with a non-empty date before today, and every fetched row dated before today is kept |
| FinancialStatements.Newest | analyst_financial_statements_worker.py:92 | the newest row is one of the rows |
| FinancialStatements.NewestIsGreatest | analyst_financial_statements_worker.py:92 | no row has a later date than the one taken |
| FinancialStatements.NewestIsFirst | analyst_financial_statements_worker.py:92 | every row before the one taken is strictly earlier: among equal dates the first wins, as the stable reverse sort gives |
| FinancialStatements.LastEarnings | analyst_financial_statements_worker.py:79-92 | a returned row has a string date |
| FinancialStatements.LastEarningsIsLatestPast | analyst_financial_statements_worker.py:79-92 | the row returned is a fetched row dated before today and no fetched row dated before today is later; None means no such row |
| FinancialStatements.HistoricalClose | analyst_financial_statements_worker.py:106-109 | a close is found only in a dict reply whose `historical` is a list |
| FinancialStatements.CloseBefore | analyst_financial_statements_worker.py:95-109 | an unparseable date gives None; otherwise the price of the previous calendar day is requested and its first close read |
| FinancialStatements.GetD11 | analyst_financial_statements_worker.py:112-121 | no earnings before today gives three Nones; otherwise date and time of the last earnings row and the close the day before it |
| FinancialStatements.AsDicts | analyst_financial_statements_worker.py:260-264 | the reply's elements are read as rows iff every one is a dict |
| FinancialStatements.InsertNewest | analyst_financial_statements_worker.py:260-264 | inserting keeps the list newest first and adds exactly the one row |
| FinancialStatements.SortNewest | analyst_financial_statements_worker.py:260-264 | the sort is a permutation of the rows, newest first |
| FinancialStatements.HeadIsNewest | analyst_financial_statements_worker.py:260-264 | after the sort no row is later than the first |
| FinancialStatements.TopTwo | analyst_financial_statements_worker.py:260-264 | the result is the first two rows of the sort, or all rows when fewer |
| FinancialStatements.NewestTwo | analyst_financial_statements_worker.py:260-264 | the first two rows of a newest-first permutation are rows of the input, no row is later than the first, and no row left out is later than the second |
| FinancialStatements.TopTwoAreNewest | analyst_financial_statements_worker.py:256-264 | the two kept statements are statements of the reply, newest first, and none left out is later than the second |
| FinancialStatements.RatioColumnsDistinct | analyst_financial_statements_worker.py:186-220 | the ratio columns of the record are pairwise distinct |
| FinancialStatements.PairsDistinct | analyst_financial_statements_worker.py:149-243 | no column is listed twice for one statement |
| FinancialStatements.ColumnReadsKey | analyst_financial_statements_worker.py:149-243 | each column of the record holds `row.get(key)` of its statement |
| FinancialStatements.ShareBuybacks | analyst_financial_statements_worker.py:180-181 | `commonStockRepurchased` when truthy, else `repurchaseOfCapitalStock` |
| FinancialStatements.PsRatio | analyst_financial_statements_worker.py:209 | `psRatio` when truthy, else `priceToSalesRatio` |
| FinancialStatements.BuildRecord | analyst_financial_statements_worker.py:126-243 | the record is built iff rating and estimates are None or dicts; it carries the symbol, the income date and the D11 values, and a missing statement reads as `{}` |
| FinancialStatements.MissingStatementReadsNone | analyst_financial_statements_worker.py:139-145 | a statement read as `{}` gives None in all its columns, the two `or` fallbacks included |
| FinancialStatements.RecordFor | analyst_financial_statements_worker.py:293-309 | a statement without a truthy date gives no record; a record carries the symbol and the statement's date |
| FinancialStatements.MergeRowsWritesOwnSymbol | analyst_financial_statements_worker.py:293-317 | the loop writes only rows of its symbol, each under its own (symbol, report_date), and removes none |
| FinancialStatements.MergeRowsWritesEveryDate | analyst_financial_statements_worker.py:293-317 | when nothing raises, every dated statement has a row under (symbol, its date) |
| FinancialStatements.MergeRowsStoresLast | analyst_financial_statements_worker.py:293-317 | when nothing raises, the row under (symbol, date) is `RecordFor` the last statement with that date: a later statement of the same date overwrites an earlier one |
| FinancialStatements.MergeRowsLeaves | analyst_financial_statements_worker.py:293-317 | a date that no statement carries keeps its row |
| FinancialStatements.MergeRowsKeepsKeys | analyst_financial_statements_worker.py:311-314 | an upsert never removes a row |
| FinancialStatements.JoinsByReportDate | analyst_financial_statements_worker.py:298-305 | a joined statement is matched on the exact report date: the record holds the last fetched row of that date, or `{}` when none has it |
| FinancialStatements.Prepare | analyst_financial_statements_worker.py:246-290 | a failed or empty income fetch returns early; otherwise the two newest statements, the five indexes, rating, estimates and D11 of this symbol |
| FinancialStatements.Processed | analyst_financial_statements_worker.py:246-258 | a failed or empty income fetch leaves the table unchanged |
| FinancialStatements.ProcessedWritesOwnSymbol | analyst_financial_statements_worker.py:246-317 | processing a symbol touches no row of another symbol, keeps every row under its own key and removes none |
| FinancialStatements.ProcessSymbol | analyst_financial_statements_worker.py:246-317 | the method computes `Processed`: the fetches, the indexes, then the merge loop |
| FinancialStatements.MergeLoop | analyst_financial_statements_worker.py:293-317 | the loop skips undated statements and upserts the others on (symbol, report_date), stopping at an exception |
| FinancialStatements.CalendarSymbols | analyst_financial_statements_worker.py:323-328 | the symbols load iff every calendar row has a `symbol`, and then they are those values in order |
| FinancialStatements.RunAllLeavesOthers | analyst_financial_statements_worker.py:330-334 | a row of a symbol that is not processed is left as it was, and every row stays under its own key |
| FinancialStatements.RunWorker | analyst_financial_statements_worker.py:320-336 | failing to load the symbols leaves the table unchanged; otherwise every symbol is processed in turn, an exception in one not stopping the others |
| FinancialScores.TwoLatest | analyst_financial_scores_worker.py:51-71 | two reports iff the query returned at least two rows, and they are the first two |
| FinancialScores.WithAnalysisDate | analyst_financial_scores_worker.py:87-89 | `analysis_date` becomes today only when absent or None; every other key and an existing date are kept |
| FinancialScores.AnalysisDateOnce | analyst_financial_scores_worker.py:87-89 | injecting the date twice, on any days, is the same as injecting it once |
| FinancialScores.PreparePayload | analyst_financial_scores_worker.py:74-95 | the payload holds exactly the latest report with its date injected and the previous report unchanged |
| FinancialScores.GptData | analyst_financial_scores_worker.py:98-136 | a failed call or an empty content gives None; any data returned is the parse of the content |
| FinancialScores.ScoreRow | analyst_financial_scores_worker.py:139-185 | the row is built iff `target_range or {}` is a dict; it has the thirteen copied columns read with `get` and the low and high of the range, None without one |
| FinancialScores.ScoreSymbol | analyst_financial_scores_worker.py:193-207 | fewer than two reports skips; no or falsy model data skips; truthy object data whose row builds is inserted as `ScoreRow` of it, and an inserted row is always such a row for the two newest reports |
| FinancialScores.InsertedBy | analyst_financial_scores_worker.py:193-207 | one symbol inserts at most one row |
| FinancialScores.InsertedRows | analyst_financial_scores_worker.py:219-222 | no more rows than symbols |
| FinancialScores.InsertedHadTwoReports | analyst_financial_scores_worker.py:193-207 | every inserted row is the output of a listed symbol that had two reports |
| FinancialScores.ProcessSymbol | analyst_financial_scores_worker.py:193-207 | the scores table gains the symbol's row, if it produced one, and nothing else |
| FinancialScores.ScoreAll | analyst_financial_scores_worker.py:219-222 | the loop appends the rows of the symbols in their order |
| FinancialScores.RunWorker | analyst_financial_scores_worker.py:211-222 | the truthy calendar symbols are processed in order and only inserts happen |
| Symbols.UsTicker | income_statements_last_sync.py:79-89 | a falsy symbol is dropped; a truthy symbol raises iff it is not a string, a list or a dict; a symbol is kept iff it is truthy and holds no "." with at most four characters, elements or keys |
| Symbols.ListSymbolPasses | earnings_calendar_us_sync_reset.py:94-97 | a one-item list symbol without "." passes the filter, and one holding "." does not |
| IncomeSync.AddSymbol | income_statements_last_sync.py:80-89 | a symbol is added iff it passes `UsTicker` and is a string; the filter's error, or a list or dict that passed it (unhashable in the set), raises |
| IncomeSync.LoadSymbols | income_statements_last_sync.py:60-93 | loading raises iff some row's symbol fails `AddSymbol`; otherwise the kept string tickers, ascending and each once |
| IncomeSync.LoadSymbolsFromCalendar | income_statements_last_sync.py:75-91 | the row-by-row loop gives exactly `LoadSymbols` |
| IncomeSync.LoadSymbolsStopped | income_statements_last_sync.py:78-89 | a symbol that raises ends the load, whatever follows it |
| IncomeSync.FetchLast | income_statements_last_sync.py:99-121 | a failed request or an empty body gives None, a non-empty list its first statement |
| IncomeSync.IsQuarterly | income_statements_last_sync.py:123-125 | the test raises iff the period is truthy but not a string |
| IncomeSync.QuarterlyPeriods | income_statements_last_sync.py:123-125 | a period is quarterly iff it is "Q" or "q" followed by a digit from 1 to 4 |
| IncomeSync.IncomeRow | income_statements_last_sync.py:146-162 | the row carries the symbol, the statement as `raw_json`, its currency, and the diluted EPS under either spelling |
| IncomeSync.StepOf | income_statements_last_sync.py:275-303 | a missing statement is counted failed; a statement that is not a dict or has a bad period raises; one that is not quarterly or not in US dollars is skipped; a quarterly statement in US dollars is written as `IncomeRow` when its upsert succeeds and counted failed otherwise |
| IncomeSync.Advance | income_statements_last_sync.py:275-303 | one symbol adds at most one to the counters, and appends its row only when written |
| IncomeSync.Run | income_statements_last_sync.py:272-306 | inserted plus failed never exceed the symbols; one write per insert, each for a listed symbol |
| IncomeSync.WrittenQuarterlyUsd | income_statements_last_sync.py:275-303 | every row upserted is the row of a quarterly statement in US dollars fetched for its symbol |
| IncomeSync.RunStopped | income_statements_last_sync.py:317-326 | once an exception ends the loop, later symbols change nothing |
| IncomeSync.ClearTable | income_statements_last_sync.py:40-53 | deleting where `symbol <> ''` leaves at most the row keyed on the empty symbol |
| IncomeSync.ProcessSymbols | income_statements_last_sync.py:272-306 | the loop computes `Run` and upserts its writes in order |
| IncomeSync.Count | income_statements_last_sync.py:299-303 | one symbol's counters move as `Advance` says and its row is upserted |
| IncomeSync.SyncAll | income_statements_last_sync.py:255-329 | the table is cleared first; a load error finishes the job "error" with zero counters; otherwise the counters are those of the loop, the status "success" or "error", and every remaining row belongs to a calendar symbol |
| IncomeSync.SymbolsFromCalendar | income_statements_last_sync.py:265-303 | every row upserted is keyed on a symbol of the calendar |
| Batching.Chunks | earnings_calendar_us_sync_reset.py:62-63 | every chunk has between 1 and `size` rows, and there are no chunks iff there are no rows |
| Batching.ChunksCover | earnings_calendar_us_sync_reset.py:62-63 | the chunks put back together, in order, are the rows |
| Batching.ChunksFull | earnings_calendar_us_sync_reset.py:62-63 | every chunk but the last is full |
| Batching.InsertInChunks | earnings_calendar_us_sync_reset.py:56-65 | the loop inserts the chunks in turn: the table gains exactly the rows, in order, and the total is their number |
| EarningsCalendar.CalendarRow | earnings_calendar_us_sync_reset.py:84-91 | the row has exactly the six columns, each read with `get` (`eps_estimated` from `epsEstimated`) |
| EarningsCalendar.CalendarRows | earnings_calendar_us_sync_reset.py:82-91 | a list gives its entries' rows; an empty dict or string gives none; any other reply raises |
| EarningsCalendar.ListRows | earnings_calendar_us_sync_reset.py:83-91 | the rows are built iff every entry is a dict, one per entry, in order |
| EarningsCalendar.UsRows | earnings_calendar_us_sync_reset.py:94-97 | the filter raises iff some symbol is truthy but neither a string, a list nor a dict; otherwise it keeps exactly the rows whose symbol passes `UsTicker`, a list or dict symbol included |
| EarningsCalendar.UsRowsCounts | earnings_calendar_us_sync_reset.py:94-97 | each row whose symbol passes occurs in the result exactly as often as in the calendar, and no other row occurs |
| EarningsCalendar.UsRowsInOrder | earnings_calendar_us_sync_reset.py:94-97 | the kept rows come in the calendar's order |
| EarningsCalendar.DeleteAll | earnings_calendar_us_sync_reset.py:44-48 | `neq("symbol", "")` deletes every copy of each row whose symbol is a non-empty string and keeps every copy of the others; rows with an empty or null symbol survive |
| EarningsCalendar.SyncReset | earnings_calendar_us_sync_reset.py:74-102 | a failed fetch, a reply whose rows do not build, or a symbol the filter cannot read raises before the delete and leaves the table as it was; otherwise the table is reset and today's US rows are inserted in chunks of 200 |
| EarningsCalendar.ResetHoldsOnlyToday | earnings_calendar_us_sync_reset.py:94-102 | after a reset every row with a symbol is one of today's US rows |
| EarningsBackfill.BackfillRow | earnings_calendar_us_backfill.py:51-55 | the inserted row is the symbol, today as `report_date` and the source "backfill_step_5" |
| EarningsBackfill.Visit | earnings_calendar_us_backfill.py:29-57 | a row raises iff it lacks `symbol` or `last_earnings_date`; it adds one calendar row iff its date is not today and its symbol is not listed, and the row added is `BackfillRow` of its symbol for today; the count follows the inserts and earlier rows stay |
| EarningsBackfill.Backfill | earnings_calendar_us_backfill.py:27-57 | the count is the number of rows added, and the calendar only grows at its end |
| EarningsBackfill.AddedRowsAreBackfill | earnings_calendar_us_backfill.py:29-57 | every row the run adds is the backfill row, for today, of a score row not updated today |
| EarningsBackfill.BackfillMissingEarnings | earnings_calendar_us_backfill.py:27-57 | the loop computes `Backfill` row by row |
| EarningsBackfill.BackfillStopped | earnings_calendar_us_backfill.py:29-31 | once a row raises, later rows change nothing |
| EarningsBackfill.DueSymbolsListed | earnings_calendar_us_backfill.py:29-57 | after a run that raised nothing every symbol not updated today is in the calendar |
| EarningsBackfill.BackfillKeepsDistinct | earnings_calendar_us_backfill.py:37-55 | the existence check keeps the calendar free of repeated symbols, even when a symbol occurs in several score rows |
| EarningsBackfill.BackfillTwice | earnings_calendar_us_backfill.py:37-55 | a second run right after a clean one adds nothing, when no score row has a null symbol |
| EarningsBackfill.NoErrorBefore | earnings_calendar_us_backfill.py:30-31 | a run that raised nothing met no row missing a column |
| EarningsNews.TitleOf | fmp_earnings_news_fetcher.py:57 | the title reads iff it is missing (giving "") or a string |
| EarningsNews.WithinThreeDays | fmp_earnings_news_fetcher.py:77 | the day count is within 3 iff the item is at most three days before the earnings date or less than four days after it: the window is not symmetric |
| EarningsNews.IsEarningsRelated | fmp_earnings_news_fetcher.py:56-82 | the filter raises iff the title is neither missing nor a string |
| EarningsNews.RelatedIff | fmp_earnings_news_fetcher.py:56-82 | an item is related iff the lower-cased title holds the lower-cased symbol, title and body hold an earnings keyword and no noise keyword, and the date test does not reject it |
| EarningsNews.LowerConcat | fmp_earnings_news_fetcher.py:58 | lower-casing distributes over concatenation |
| EarningsNews.TitleKeywordSuffices | fmp_earnings_news_fetcher.py:57-65 | an earnings keyword in the title passes the keyword test whatever the body says |
| EarningsNews.NewsRow | fmp_earnings_news_fetcher.py:133-142 | the row carries the item's url and text, the calendar symbol and the earnings date |
| EarningsNews.Act | fmp_earnings_news_fetcher.py:129-148 | an item is written iff it is a dict, the symbol is a string and the filter accepts it; it is written as its row under its url |
| EarningsNews.Accepted | fmp_earnings_news_fetcher.py:129-148 | no more upserts than items |
| EarningsNews.AcceptedKeyedOnUrl | fmp_earnings_news_fetcher.py:133-146 | every upsert is keyed on the url its row holds |
| EarningsNews.AcceptedAreRelated | fmp_earnings_news_fetcher.py:129-142 | every upserted row is the row of a fetched item that passed the filter |
| EarningsNews.AcceptedPrefix | fmp_earnings_news_fetcher.py:129-148 | the upserts of the first items begin the upserts of all of them |
| EarningsNews.AcceptedWritesEvery | fmp_earnings_news_fetcher.py:129-148 | every item the filter accepts is upserted, keyed on its url, right after the upserts of the items before it |
| EarningsNews.ItemUpserts | fmp_earnings_news_fetcher.py:117-125 | a calendar row without `symbol` or `report_date` raises; a failed fetch is skipped |
| EarningsNews.ProcessItem | fmp_earnings_news_fetcher.py:117-148 | one calendar row upserts exactly its accepted items and counts them; when it raises, the table holds exactly the upserts made before the exception |
| EarningsNews.UpsertRelated | fmp_earnings_news_fetcher.py:129-148 | the inner loop upserts the accepted items in order, keyed on url, and counts them; an item that raises leaves the upserts of the items before it in place |
| EarningsNews.UpsertItem | fmp_earnings_news_fetcher.py:130-148 | one item raises, or is upserted and counted when related; when it raises, the whole inner loop raises with the upserts of the items before it in place |
| EarningsNews.AcceptedStopped | fmp_earnings_news_fetcher.py:129-148 | once an item raises, later items change nothing |
| EarningsNews.FetchAll | fmp_earnings_news_fetcher.py:113-148 | the run succeeds iff no calendar row raises, and then the table holds the upserts of all rows in order; in every case the table holds exactly the upserts made before the run ended, earlier rows' included |
| EarningsNews.UpsertsMadeWhenAccepted | fmp_earnings_news_fetcher.py:129-148 | the upserts made by the inner loop are all the accepted ones when no item raises |
| EarningsNews.UpsertsMadeStopped | fmp_earnings_news_fetcher.py:129-148 | once an item raises, later items add no upsert |
| EarningsNews.UpsertsMadeAtRaise | fmp_earnings_news_fetcher.py:129-148 | when item `i` raises, the upserts made are exactly those accepted from the items before it |
| EarningsNews.ItemUpsertsMadeWhenOk | fmp_earnings_news_fetcher.py:117-148 | a calendar row that raises nothing makes exactly its accepted upserts |
| EarningsNews.AllUpsertsMadeWhenOk | fmp_earnings_news_fetcher.py:113-148 | a run that raises nothing makes exactly the upserts of all calendar rows in order |
| EarningsNews.AllUpsertsMadeStopped | fmp_earnings_news_fetcher.py:117-148 | once a calendar row raises, later rows add no upsert |
| EarningsNews.AllUpsertsMadeAtRaise | fmp_earnings_news_fetcher.py:117-148 | when calendar row `i` raises, the upserts made are those of the rows before it followed by what row `i` made before raising |
| EarningsNews.AllUpsertsStopped | fmp_earnings_news_fetcher.py:117-148 | once a calendar row raises, later rows change nothing |
| JobsDigest.ParseTs | jobs_digest_daily.py:64-84 | a stamp parses iff it is a non-empty string that `fromisoformat` accepts once "Z" is read as "+00:00" |
| JobsDigest.ZuluIsUtc | jobs_digest_daily.py:73 | a stamp written with "Z" is the same instant as one written with "+00:00" |
| JobsDigest.NaiveIsUtc | jobs_digest_daily.py:81-84 | a stamp without an offset is read on the UTC clock, and an offset moves it by that many minutes |
| JobsDigest.RunsInWindow | jobs_digest_daily.py:100-106 | each fetched run whose start parses and falls in `[start, end)` occurs in today's runs as often as it was fetched; no other run occurs |
| JobsDigest.FetchJobsForToday | jobs_digest_daily.py:87-110 | the loop keeps exactly `RunsInWindow`, in the order fetched |
| JobsDigest.Count | jobs_digest_daily.py:127-131 | no more runs of a status than runs |
| JobsDigest.Durations | jobs_digest_daily.py:134-136 | no more durations than runs |
| JobsDigest.CountsWithinRuns | jobs_digest_daily.py:127-131 | successes plus failures never exceed the runs |
| JobsDigest.LastFinishedIsLatest | jobs_digest_daily.py:143-147 | `last_finished_at` is the latest finish time that parses, taken from some run, and None iff none parses |
| JobsDigest.Sorted | jobs_digest_daily.py:151 | `sorted` is ascending and a permutation of the durations |
| JobsDigest.Insert | jobs_digest_daily.py:151 | inserting into an ascending list keeps it ascending and adds exactly the new element |
| JobsDigest.MaxOf | jobs_digest_daily.py:159 | `max` is a duration and no duration is larger |
| JobsDigest.MaxIsLastSorted | jobs_digest_daily.py:151-159 | the maximum is the last sorted duration |
| JobsDigest.SortedMembers | jobs_digest_daily.py:151 | sorting keeps exactly the durations |
| JobsDigest.MedianWithinRange | jobs_digest_daily.py:149-159 | the median lies between the smallest and the largest duration |
| JobsDigest.SumAtMost | jobs_digest_daily.py:150 | a sum is at most the count times a bound of its terms |
| JobsDigest.AvgAtMostMax | jobs_digest_daily.py:149-159 | the average duration is at most the maximum |
| JobsDigest.ComputeStats | jobs_digest_daily.py:117-174 | the loop raises iff some status is truthy but not a string; otherwise the runs, the two counts, the duration summary, the rows total and the last finish time |
| JobsDigest.CountRun | jobs_digest_daily.py:126-147 | one run moves each running value to its value over one more run |
| JobsDigest.DailyRow | jobs_digest_daily.py:180-201 | the row has the job, the day, the run, success and failure counts, the average in whole milliseconds (None without runs) and the last finish time |
| JobsDigest.DeleteDay | jobs_digest_daily.py:203-208 | the delete removes every copy of the job's rows of that day and keeps every copy of every other row |
| JobsDigest.NoDayRowsLeft | jobs_digest_daily.py:203-208 | after the delete no row of the job and day is left |
| JobsDigest.OneRowPerDay | jobs_digest_daily.py:180-213 | after the write the table holds exactly one row for the job and day, the new one, and every other row is kept |
| JobsDigest.Digest | jobs_digest_daily.py:351-358 | the run succeeds iff no run of today has a bad status; then the table is the old one without the day's rows, followed by the one row `DailyRow` of the statistics of today's runs |
| Clock.Round5 | saifan_03_vix_live_5min_quote_builder.py:39 | the candle is on the same day and hour, at second 0, on a minute that is a multiple of five, at most five minutes before the instant |
| Clock.SameCandle | saifan_03_vix_live_5min_quote_builder.py:39 | two instants share a candle iff they fall on the same day in the same 5-minute slot |
| Clock.WindowRoundsToCandle | saifan_03_vix_live_5min_quote_builder.py:39 | every instant of a candle's 5-minute window rounds to that candle |
| Clock.Round5Idempotent | saifan_03_vix_live_5min_quote_builder.py:39 | rounding a rounded instant changes nothing |
| Clock.CandleStart | saifan_03_vix_live_5min_quote_builder.py:39 | every reading in the five minutes from a multiple of 5 rounds to that minute's start |
| Clock.SameDayInWindow | saifan_03_vix_live_5min_quote_builder.py:39 | a reading inside a candle's five minutes is on the candle's day |
| Clock.EarlierMinute | saifan_02_spy_5m_history_update.py:61 | on one day an earlier minute is an earlier time |
| Clock.BeforeCandle | saifan_02_spy_5m_history_update.py:61 | a time of the same day in an earlier minute than the candle start is before the rounded reading |
| Clock.Weekday | saifan_main_worker.py:23 | `weekday()` is between 0 (Monday) and 6 |
| Clock.PrevDay | analyst_financial_statements_worker.py:101 | the day before is a valid date, earlier, whose next day is the date |
| Clock.PrevDayIsAdjacent | analyst_financial_statements_worker.py:101 | no date lies strictly between a date and the day before it |
| Clock.Pad | vix_daily_worker.py:51 | a padded number has exactly the width, all decimal digits |
| Clock.PadOrder | vix_daily_worker.py:51 | padded numbers compare as text in the order of the numbers |
| Clock.PadInjective | vix_daily_worker.py:51 | two numbers with the same padded text are equal |
| Clock.ConcatLexLt | vix_daily_worker.py:51 | text order on two strings split at the same width compares the first parts, then the second |
| Clock.Iso | vix_daily_worker.py:51 | `isoformat()` of a date is ten characters with "-" at positions 4 and 7 |
| Clock.IsoOrder | analyst_financial_statements_worker.py:87 | comparing ISO dates as text is comparing the dates on the calendar |
| Candles.BarTime | saifan_02_spy_5m_history_update.py:54 | a bar has a candle time exactly when its `date` is a string that reads as a valid wall-clock time, and then it is that time |
| Candles.StoredRow | saifan_01_spy.py:31-39 | a row that `select("*")` returns carries its `symbol` and every stored column, so it is never empty |
| Candles.LatestExists | saifan_01_spy.py:31-39 | the newest-row query always has an answer: none exactly for an empty table, otherwise a stored row with no later candle time |
| Candles.OrdInjective | saifan_02_spy_5m_history_update.py:78 | two valid candle times at the same point on the clock are the same time, so the conflict key `symbol,candle_time` names one row per instant |
| Indicators.StepColumns | saifan_01_spy.py:53-95 | one step adds the bar's price times volume and its volume to the accumulators; the VWAP falls back to the typical price when there is no volume; each EMA and the signal end up between their old value and their target; MACD and the histogram are the differences |
| Indicators.VwapIsRatio | saifan_01_spy.py:72 | with positive total volume the VWAP is cumulative PV over cumulative volume |
| Indicators.EmaMovesByAlpha | saifan_01_spy.py:75-82 | EMA12, EMA26 and the signal each move exactly 2/13, 2/27 and 2/10 of the way to their target |
| Indicators.FirstRow | saifan_01_spy.py:63-68 | a session's first bar has MACD, signal and histogram zero, and its VWAP is the typical price |
| Indicators.SessionTotals | saifan_01_spy.py:57-71 | over a session of bars the cumulative columns are the running sums of volume and of typical price times volume |
| Indicators.SumPvAtLeast | saifan_01_spy.py:70 | with non-negative volumes the PV sum is at least the lowest typical price times the total volume |
| Indicators.SumPvAtMost | saifan_01_spy.py:70 | with non-negative volumes the PV sum is at most the highest typical price times the total volume |
| Indicators.SessionVwap | saifan_01_spy.py:72 | the last row's VWAP is the ratio of the session's sums when volume is positive, and the last typical price otherwise |
| Indicators.SessionVwapBounds | saifan_01_spy.py:70-72 | with non-negative volumes the session VWAP lies between the lowest and highest typical price seen |
| Indicators.SessionFlat | saifan_01_spy.py:79-83 | a session whose close never moves keeps both EMAs at that close and MACD, signal and histogram at zero |
| Indicators.ReadVolume | saifan_01_spy.py:55 | a missing volume reads as 0; a present one must read as a number |
| Indicators.ReadBar | saifan_01_spy.py:54-55 | a bar reads exactly when high, low, close and volume all read as numbers, and it keeps the close and the volume |
| Indicators.ReadCarry | saifan_01_spy.py:57-62 | a previous row carries state exactly when its five carried columns all read as numbers |
| Indicators.ComputeIndicatorsCases | saifan_01_spy.py:53-68 | with no (or an empty) previous row the bar seeds a new session; with one, the step succeeds exactly when its carried columns read; a bar that does not read raises |
| Indicators.Columns | saifan_01_spy.py:85-95 | the stored indicator columns read back as the carry the next step uses |
| KeyedTable.Upsert | vix_daily_worker.py:60-63 | an upsert adds its key and leaves every other row alone; a new key holds exactly the payload, and an existing key takes every column of the payload while keeping the columns the payload does not name (merge-duplicates) |
| KeyedTable.UpsertTwice | vix_daily_worker.py:60-63 | writing the same payload twice under one key leaves the table as writing it once does |
| KeyedTable.UpsertAll | spy_daily_bars_sync.py:57-60 | a run of upserts leaves the old keys plus exactly the keys it wrote |
| KeyedTable.UpsertAllSnoc | vix_daily_worker.py:47-63 | one more upsert after a run of them is the run extended by that write |
| KeyedTable.UpsertAllConcat | fmp_earnings_news_fetcher.py:145 | two runs of upserts in a row act as one run over both |
| KeyedTable.UpsertAllAt | vix_daily_worker.py:47-63 | after a run an unwritten key keeps its old row, and a written key holds every column of its last write |
| KeyedTable.MergeAssoc | vix_daily_worker.py:60-63 | merging payloads into a row is associative |
| KeyedTable.MergeTwice | vix_daily_worker.py:60-63 | merging the same payload twice is merging it once |
| KeyedTable.OverlayUpsert | vix_daily_worker.py:60-63 | one more write merged over a table commutes with merging the earlier writes |
| KeyedTable.OverlayTwice | vix_daily_worker.py:60-63 | merging the same set of writes twice is merging it once |
| KeyedTable.UpsertAllOverlay | vix_daily_worker.py:47-63 | a run of upserts is the old table with the rows the run writes merged over it |
| KeyedTable.UpsertAllIdempotent | vix_daily_worker.py:47-63 | running the same upserts a second time changes nothing |
| KeyedTable.Upserts | vix_daily_worker.py:47-63 | a loop that can raise writes no more items than it visits |
| KeyedTable.UpsertsNext | vix_daily_worker.py:47-63 | one more item is skipped after an exception; otherwise it either raises or adds its write |
| KeyedTable.UpsertsStop | vix_daily_worker.py:47-63 | once an item has raised, the later items change nothing |
| KeyedTable.UpsertsAre | vix_daily_worker.py:47-63 | without an exception every item is written in order; with one, exactly the items before the first one that raises are written, and the error is that item's |
| KeyedTable.UpsertEach | vix_daily_worker.py:47-63 | the loop of single upserts returns the first exception and leaves the table with exactly the writes before it |
| Fmp.History | vix_daily_worker.py:34-41 | a response gives its history exactly when it decoded to an object with a "historical" member, and then it is that member |
| Fmp.Items | vix_daily_worker.py:47-48 | iterating a list visits its elements; any other value that iterates without raising visits nothing |
| VixDaily.Reset | vix_daily_history_loader.py:28-34 | the loader's delete spares only a row dated 1900-01-01 |
| VixDaily.TradeDate | vix_daily_worker.py:48-51 | a row has a trade date exactly when it is an object whose `date` string reads as a valid calendar date, and the date stored is that date's ISO form |
| VixDaily.Payload | vix_daily_worker.py:50-58 | the payload holds the trade date, the source "FMP" and the row's five price and volume columns (None when absent) |
| VixDaily.UpsertVixRows | vix_daily_worker.py:46-63 | the upsert loop ends with the first row that raises, with the table holding exactly the rows before it |
| VixDaily.WritesFollowRows | vix_daily_worker.py:46-63 | write j is row j's payload under row j's ISO date; a run that raises stops at the first row whose date does not read; otherwise every row is written |
| VixDaily.Fetched | vix_daily_worker.py:28-41 | the rows come only from an object with a "historical" member, and a failed fetch passes its error on |
| VixDaily.RunWorker | vix_daily_worker.py:68-76 | a failed fetch leaves the table unchanged; otherwise the run is the upsert loop over the fetched rows |
| VixDaily.RunLoader | vix_daily_history_loader.py:81-90 | the reset comes first, so a failed fetch leaves at most the spared row; otherwise the upsert loop runs over the emptied table |
| MarketState.CleanFence | spy_market_state_daily_runner.py:18-24 | a reply without an opening fence is kept as is; a fenced reply loses the backticks and whitespace at both ends, then a leading "json" in any case and the whitespace after it |
| MarketState.FenceOff | spy_market_state_daily_runner.py:22 | `strip("`")` takes off a fence on each side of a text that has no backtick at its ends |
| MarketState.SpaceOff | spy_market_state_daily_runner.py:22-24 | `strip()` takes off whitespace on both sides of a text that has none at its ends |
| MarketState.FencedLine | spy_market_state_daily_runner.py:21-22 | a fenced block on its own line starts with the fence and comes back as its text |
| MarketState.TagLine | spy_market_state_daily_runner.py:23-24 | a "json" tag in any case, and the newline after it, come off |
| MarketState.FencedJsonRoundTrip | spy_market_state_daily_runner.py:18-24 | a body wrapped as a fenced block tagged "json" (any case) is cleaned back to exactly that body |
| MarketState.Missing | spy_market_state_daily_runner.py:36-43 | the missing keys are exactly the required keys the reply lacks |
| MarketState.IntOf | spy_market_state_daily_runner.py:57 | `int()` keeps a number (truncating a float), reads a string only when it parses, and raises on null, lists and objects |
| MarketState.DecisionRow | spy_market_state_daily_runner.py:52-59 | the row exists exactly when the strength converts to an int; it holds the symbol, today's date, the state, that int and the explanation |
| MarketState.Run | spy_market_state_daily_runner.py:18-61 | the run succeeds iff the cleaned reply parses to an object with all four keys and an integer strength, and then the table is the upsert of `DecisionRow` under (symbol, today); an unparsable reply or a missing key raises |
| MarketState.RunIdempotent | spy_market_state_daily_runner.py:52-61 | running again on the same day with the same reply leaves the table as one run does |
| SpyDailyBars.Cutoff | spy_daily_bars_sync.py:31 | the cutoff is exactly 190 days before the run's clock reading |
| SpyDailyBars.MidnightBarKept | spy_daily_bars_sync.py:35-38 | a bar dated at midnight is kept exactly when its day is after the cutoff's day, or on that day when the run started at midnight |
| SpyDailyBars.RowOf | spy_daily_bars_sync.py:40-48 | a bar gives a row exactly when it has all five price columns; the row holds "SPY", the bar's date string and those five values |
| SpyDailyBars.Turn | spy_daily_bars_sync.py:34-48 | a bar that does not raise has a date string that reads; it is skipped exactly when that date is before the cutoff, and otherwise yields its row |
| SpyDailyBars.Rows | spy_daily_bars_sync.py:33-48 | the loop keeps at most one row per bar |
| SpyDailyBars.RowsErrStays | spy_daily_bars_sync.py:33-48 | once a bar has raised, later bars change nothing |
| SpyDailyBars.RowsAreKeptBars | spy_daily_bars_sync.py:33-48 | when the loop ends normally every bar was handled, and the rows are exactly the rows of the bars that passed the cutoff |
| SpyDailyBars.CollectRows | spy_daily_bars_sync.py:33-48 | the loop returns the first exception or all the kept rows |
| SpyDailyBars.Keyed | spy_daily_bars_sync.py:57-60 | each row of the bulk upsert is keyed on its own symbol and bar date, in order |
| SpyDailyBars.Sync | spy_daily_bars_sync.py:24-60 | a response with no history raises; no kept rows ends the script without a write; kept rows with distinct keys are upserted into the table, and a write happens only then |
| SpyDailyBars.UpsertedRowsAreRecentBars | spy_daily_bars_sync.py:33-48 | every row written is a SPY row that one bar of the response, past the cutoff, produced |
| ScoresHistory.HistoryRow | build_scores_history.py:27-46 | a history object exists exactly when the score row has `id` and all sixteen copied columns; it holds `original_id` = `id`, those columns unchanged and the clock reading as `saved_at` |
| ScoresHistory.HistoryRows | build_scores_history.py:26-46 | a loop that succeeds produces one history object per score row |
| ScoresHistory.HistoryRowsMatch | build_scores_history.py:26-46 | the j-th history object is built from the j-th score row |
| ScoresHistory.HistoryRowsFail | build_scores_history.py:26-46 | the loop fails exactly when some score row's object cannot be built |
| ScoresHistory.HistoryRowsCopy | build_scores_history.py:26-46 | every history row carries its score row's id, the other columns unchanged and the clock reading for its position |
| ScoresHistory.HistoryRowsErrStays | build_scores_history.py:26-46 | once a row has raised, later rows change nothing |
| ScoresHistory.PrepareHistory | build_scores_history.py:22-46 | the loop returns the first exception or all the history objects in order |
| ScoresHistory.BuildHistory | build_scores_history.py:11-54 | no rows inserts nothing; a row that raises inserts nothing; otherwise the history table grows by exactly the history objects, inserted in batches of 500 |
| ScoresHistory.BatchesCoverHistory | build_scores_history.py:51-54 | each batch holds 1 to 500 rows, all but the last exactly 500, and together they are the history rows in order |
| SpyCycle.FetchedBar | saifan_01_spy.py:21-25 | the fetched bar is the first element of a non-empty list, and `None` otherwise |
| SpyCycle.Payload | saifan_01_spy.py:116-125 | the payload exists exactly when the five price columns convert with `float()`; it holds symbol "SPY", the close as read and every indicator column unchanged |
| SpyCycle.Cycle | saifan_01_spy.py:101-127 | a cycle that does not insert leaves the table unchanged; no bar means no data; a truthy dict bar is a duplicate iff its `date` is the newest row's `candle_time` text, and is inserted iff it is no duplicate, its indicators, payload and time compute and its key is new, and then the table gains exactly its payload under (SPY, its time) |
| SpyCycle.CycleBar | saifan_01_spy.py:107-127 | past the fetch, a bar is a duplicate exactly when its `date` value equals the newest row's `candle_time` text (a missing `date` raises once there is a stored row); the bar is inserted iff it passes `Inserts`, and then its payload with the indicators computed from the newest row is stored under its time and no stored row changes |
| SpyCycle.InsertBar | saifan_01_spy.py:45-46 | the insert adds the payload under the bar's time exactly when the payload builds, the time reads and that key is new, and fails on a key already stored |
| SpyCycle.SeedsOnEmptyTable | saifan_01_spy.py:63-68 | on an empty table the inserted row seeds a session: both EMAs at the close, MACD, signal and histogram zero, VWAP the typical price, cumulative volume the bar's own |
| SpyCycle.CycleExtendsSession | saifan_01_spy.py:57-95 | when the newest row carries a session's state, the inserted row carries that session extended by the new bar, so the indicators advance once per inserted bar |
| SpyCycle.RepeatIsDuplicate | saifan_01_spy.py:109-112 | repeating the cycle on the same fetch after it inserted a bar no older than any stored row is a duplicate and writes nothing, provided the store returns the bar's `candle_time` as FMP's `date` text |
| SpyCycle.RepeatWithOtherTextFails | saifan_01_spy.py:109-127 | when the store returns that `candle_time` in another text, the repeat is no duplicate: the insert meets the existing key, the cycle raises and the table is unchanged |
| SpyLive.CheckConfig | saifan_01_spy_live_5min_quote_builder.py:15-16 | the script runs on exactly when the FMP key, the Supabase URL and the Supabase key are all set and non-empty |
| SpyLive.GetLiveQuote | saifan_01_spy_live_5min_quote_builder.py:27-41 | an empty response gives no quote; a quote is the first record's open, dayHigh, dayLow, price and volume under the row's column names; a non-empty response that is not a list of records raises |
| SpyLive.QuoteRow | saifan_01_spy_live_5min_quote_builder.py:72-80 | the row is the quote's five columns with symbol "SPY" |
| SpyLive.RunCycle | saifan_01_spy_live_5min_quote_builder.py:62-84 | no quote writes nothing; the run raises iff the fetch or the quote does; a quote is upserted as `QuoteRow` under (SPY, the current 5-minute candle), and nothing else changes |
| SpyLive.AsWrittenRunCycle | saifan_01_spy_live_5min_quote_builder.py:65-84 | as written: the run succeeds only without a quote, and then writes nothing; a quote makes the row's `datetime` raise |
| SpyLive.AsWrittenNeverWrites | saifan_01_spy_live_5min_quote_builder.py:65-84 | whenever the intended cycle writes a quote, the cycle as written raises |
| SpyLive.AsWrittenCounterexample | saifan_01_spy_live_5min_quote_builder.py:65-84 | a quote read at 15:02 raises as written and is written under the 15:00 candle as intended |
| SpyLive.SameWindowSameRow | saifan_01_spy_live_5min_quote_builder.py:48-55 | every run inside one 5-minute window maps to the same candle time, and a second run there with the same quote changes nothing |
| VixLive.FetchQuote | saifan_03_vix_live_5min_quote_builder.py:26-35 | a non-200 status or an empty body gives no quote; a list gives its first record; a non-empty body that is not a list raises |
| VixLive.QuotePrice | saifan_03_vix_live_5min_quote_builder.py:86-88 | a quote record that is not a dict raises; otherwise the price is the record's value as it is, of any kind, null when absent |
| VixLive.Lt | saifan_03_vix_live_5min_quote_builder.py:102-103 | two prices compare iff both are numbers or both strings: numbers by value, strings in code-point order |
| VixLive.Max | saifan_03_vix_live_5min_quote_builder.py:102 | `max` raises iff the two cannot be compared; otherwise it is one of the two and at least both |
| VixLive.Min | saifan_03_vix_live_5min_quote_builder.py:103 | `min` raises iff the two cannot be compared; otherwise it is one of the two and at most both |
| VixLive.Widen | saifan_03_vix_live_5min_quote_builder.py:102-104 | the update keeps the open, sets the close to the price, and takes high and low from `max` and `min`, raising iff one of them raises |
| VixLive.WidenRaisesOnlyAtMax | saifan_03_vix_live_5min_quote_builder.py:102-103 | on a started bar, `min` never raises once `max` has not, so an exception changes no field |
| VixLive.WidenKeepsOrder | saifan_03_vix_live_5min_quote_builder.py:102-104 | updating a started bar keeps its open and close between its low and high |
| VixLive.Advance | saifan_03_vix_live_5min_quote_builder.py:86-104 | no price changes nothing; a new candle flushes the previous bar (if any) under its own time and starts a fresh bar from a price of any kind; the same candle raises iff `max` cannot compare the price with the high, and otherwise keeps its open and widens the bar; the state stays consistent |
| VixLive.BarRow | saifan_03_vix_live_5min_quote_builder.py:43-51 | the row holds symbol "VIX", the bar's prices and its volume |
| VixLive.Save | saifan_03_vix_live_5min_quote_builder.py:42-57 | saving upserts the bar row under (VIX, ts) and leaves every other row alone |
| VixLive.SaveTwice | saifan_03_vix_live_5min_quote_builder.py:55-57 | saving the same bar twice leaves the table as saving it once |
| VixLive.Cycle | saifan_03_vix_live_5min_quote_builder.py:75-106 | a falsy quote changes nothing; the cycle raises iff the fetch raised, the record is not a dict, or the same candle gets a price `max` cannot compare; a new candle writes the previous bar under its time and starts a fresh bar; a cycle that succeeds leaves the globals consistent |
| VixLive.FormingBarNotWritten | saifan_03_vix_live_5min_quote_builder.py:90-104 | the bar being formed never reaches the table: only the previous candle's row can change |
| VixLive.SameWindowKeepsOpen | saifan_03_vix_live_5min_quote_builder.py:98-104 | inside one window, after the first cycle, the candle time and open price stay the same, the close becomes the price read, and nothing is written |
| VixLive.NumbersTrackExtremes | saifan_03_vix_live_5min_quote_builder.py:102-104 | inside one window a bar of numbers stays in order, its high and low bound the new price and never move inward |
| VixLive.IncomparablePriceRaises | saifan_03_vix_live_5min_quote_builder.py:102 | a price that is not a number, met by a bar of numbers in the same window, raises |
| VixLive.NewCandleWritesPreviousBar | saifan_03_vix_live_5min_quote_builder.py:90-96 | a new candle writes the previous bar's fields under the previous candle time, changes no other row, and starts the bar from the price |
| VixLive.NoPriceNoChange | saifan_03_vix_live_5min_quote_builder.py:82-88 | a missing or falsy quote, or one with no price, changes neither the globals nor the table |
| VixLive.Builder.constructor | saifan_03_vix_live_5min_quote_builder.py:14-23 | the globals start as an empty bar with volume 0 and no candle time |
| VixLive.Builder.StartNewBar | saifan_03_vix_live_5min_quote_builder.py:60-72 | the bar becomes four copies of the price with volume 0, at the given candle time |
| VixLive.Builder.SaveBarToDb | saifan_03_vix_live_5min_quote_builder.py:42-57 | the table becomes the current bar saved under `ts` |
| VixLive.Builder.RunVixCycle | saifan_03_vix_live_5min_quote_builder.py:75-106 | the cycle updates the globals and the table exactly as the state machine does, and an exception leaves the globals as they were |
| CandleHistory.History | saifan_02_spy_5m_history_update.py:20-38 | there are bars to walk exactly when the status is 200 and the body is non-empty |
| CandleHistory.HistoryRow | saifan_02_spy_5m_history_update.py:65-73 | a bar gives a row exactly when it has all five price columns; the row holds the symbol and those five values |
| CandleHistory.SampleBar | saifan_04_vix_5m_history_update.py:72-80 | a sample bar has the given date and every price column the row needs |
| CandleHistory.Act | saifan_02_spy_5m_history_update.py:51-79 | a bar is written only when it is a dict whose date reads and is kept by the test, under (symbol, its time) |
| CandleHistory.ActWrites | saifan_02_spy_5m_history_update.py:65-79 | a dict bar with a readable kept time and all its prices is written, under (symbol, its time) |
| CandleHistory.Plan | saifan_02_spy_5m_history_update.py:51-79 | every row the loop upserts belongs to the symbol, has a kept time, and there is at most one per bar |
| CandleHistory.PlanNext | saifan_02_spy_5m_history_update.py:51-79 | one more bar does nothing after an exception; otherwise it raises, is skipped or adds its row |
| CandleHistory.PlanSingle | saifan_02_spy_5m_history_update.py:51-79 | a history of one bar writes that bar's row, skips it or raises, as the bar decides |
| CandleHistory.PlanStopped | saifan_02_spy_5m_history_update.py:51-79 | once the loop has raised, later bars change nothing |
| CandleHistory.NothingKeptNothingWritten | saifan_02_spy_5m_history_update.py:56-63 | when the test keeps no time, nothing is written |
| CandleHistory.KeptBarWritten | saifan_02_spy_5m_history_update.py:51-79 | a loop that does not raise writes every bar the test keeps |
| CandleHistory.PlanPrefix | saifan_02_spy_5m_history_update.py:51-79 | a run that did not raise did not raise on the bars before the last, and wrote their rows first |
| CandleHistory.RerunUnchanged | saifan_02_spy_5m_history_update.py:77-79 | running the same update again over the same history leaves the table as the first run left it |
| CandleHistory.WalkHistory | saifan_04_vix_5m_history_update.py:58-86 | walking a list upserts exactly the planned rows in order and reports whether it raised; a history that is not a list raises and writes nothing |
| SpyHistoryUpdate.Decide | saifan_02_spy_5m_history_update.py:56-63 | intended test: a bar is kept exactly when it is from today and before the candle now forming |
| SpyHistoryUpdate.AsWrittenDecide | saifan_02_spy_5m_history_update.py:61 | as written, no bar is ever kept, and a bar of today raises |
| SpyHistoryUpdate.RunHistoryUpdate | saifan_02_spy_5m_history_update.py:32-81 | no history writes nothing; a truthy body that is not a list raises at the first `bar["date"]` and writes nothing; otherwise the table gets exactly the planned upserts |
| SpyHistoryUpdate.WrittenBarsAreFinished | saifan_02_spy_5m_history_update.py:56-63 | every row written is a SPY bar of today that ended before the candle forming, so the live bar is never overwritten |
| SpyHistoryUpdate.AsWrittenWritesNothing | saifan_02_spy_5m_history_update.py:61 | as written, the update never writes a bar |
| SpyHistoryUpdate.OneFinishedBar | saifan_02_spy_5m_history_update.py:56-79 | a single finished bar of today raises as written and is written by the intended test |
| SpyHistoryUpdate.AsWrittenCounterexample | saifan_02_spy_5m_history_update.py:61 | the 10:00 bar read at 15:00 the same day raises as written and is written as intended |
| VixHistoryUpdate.Decide | saifan_04_vix_5m_history_update.py:63-70 | intended test: a bar is kept exactly when it is from today and is not the candle now forming |
| VixHistoryUpdate.AsWrittenDecide | saifan_04_vix_5m_history_update.py:68 | as written, every bar of today is kept, the live one included |
| VixHistoryUpdate.RunVixHistoryUpdate | saifan_04_vix_5m_history_update.py:39-88 | no history writes nothing; a truthy body that is not a list raises at the first `bar["date"]` and writes nothing; otherwise the table gets exactly the planned upserts |
| VixHistoryUpdate.WrittenBarsSkipLive | saifan_04_vix_5m_history_update.py:63-70 | every row written is a VIX bar of today other than the current candle |
| VixHistoryUpdate.LaterBarWritten | saifan_04_vix_5m_history_update.py:63-86 | a complete bar of today timed after the current candle is written when the loop runs to the end |
| VixHistoryUpdate.OneLiveBar | saifan_04_vix_5m_history_update.py:68-86 | a single bar of the current candle is written over the live bar as written, and left alone by the intended test |
| VixHistoryUpdate.AsWrittenCounterexample | saifan_04_vix_5m_history_update.py:68 | the 15:00 bar read at 15:02 the same day is written as written and skipped as intended |
| Spy5mWorker.Fetch5m | saifan_spy_5m_worker.py:19-29 | the bar is the first element of a non-empty list, and `None` for anything else or a failed request |
| Spy5mWorker.IsTodayUtc | saifan_spy_5m_worker.py:32-35 | it raises exactly when the time does not parse, and otherwise says whether the candle's day is today (UTC) |
| Spy5mWorker.ReadInt | saifan_spy_5m_worker.py:50 | `int()` succeeds exactly on a present number and gives its integer part |
| Spy5mWorker.SpyRow | saifan_spy_5m_worker.py:43-52 | the SPY row exists exactly when the date is present and the prices and volume convert; it holds the candle time and those six columns |
| Spy5mWorker.VixRow | saifan_spy_5m_worker.py:56-64 | the VIX row exists exactly when the date is present and the four prices convert; it has no volume |
| Spy5mWorker.ProcessSymbol | saifan_spy_5m_worker.py:70-86 | a row is appended exactly when the bar's date is a string from today (UTC), not already stored, and the row builds; otherwise the table is unchanged |
| Spy5mWorker.ProcessKeepsDistinct | saifan_spy_5m_worker.py:82-86 | the duplicate check keeps a table free of repeated candle times |
| Spy5mWorker.RepeatIsDuplicate | saifan_spy_5m_worker.py:82-84 | running again on the same bar right after inserting it finds the candle and inserts nothing |
| Spy5mWorker.RunWorker | saifan_spy_5m_worker.py:89-93 | SPY is processed first, into its table alone; VIX is processed next only when the SPY step did not raise, so the VIX table gains a row iff SPY did not raise and VIX inserts; each table gains at most one row |
| MainWorker.IsUsMarketOpen | saifan_main_worker.py:13-35 | the market is open exactly on Monday to Friday, from minute 14:30 to minute 21:00 UTC inclusive |
| MainWorker.MarketHoursOnClock | saifan_main_worker.py:26-35 | the same hours read on the clock: open from 14:30:00 up to the end of minute 21:00 |
| MainWorker.Boundaries | saifan_main_worker.py:23-35 | on a weekday 14:30 and 21:00:59 are open and 14:29:59 and 21:01 closed; a weekend day is closed all day |
| MainWorker.Tick | saifan_main_worker.py:44-50 | a closed market leaves the table unchanged; an open one runs the live SPY cycle; an exception it raises is caught and leaves the table unchanged |

## Left out

- HTTP requests to FMP, Supabase client calls and OpenAI calls: each response, query result or model reply is a parameter (an `Ok`/`Err` value where the call can raise), and each table is a value passed in and returned.
- `json.loads`, `strptime`, `fromisoformat`, `int()` of a string and Python's `str()` are parameters (`parse`, `parseInt`, `show`); the model does not fix their formats.
- Clocks and time zones (`datetime.now`, `utcnow`, `ZoneInfo`): every reading is a parameter on one clock. The naive-versus-aware comparisons of the two 5-minute history updaters are modelled twice: as written, and as evidently intended (see Findings).
- Floating point: prices, indicators and statistics are `real`. Rounding, `inf` and `nan` are not modelled.
- VixLive.Lt: two list prices are treated as raising, although Python compares lists item by item; only numbers and strings compare in the model.
- String built-ins: `lower()` and `upper()` change ASCII letters only; `strip()` removes the characters Python's `str.isspace()` accepts (`Text.IsSpace`), Unicode whitespace included.
- Python's equality of `1`, `True` and `1.0` as dict keys and set members is not modelled: the three are different `Json` values.
- Exception messages are short descriptions, not Python's exact text.
- The order and limit of database queries (`order(...)`, `limit(...)`) are parameters or predicates on a result (`Candles.IsLatest`), not a query engine. Rows that tie on the sort column may come back in either order.
- A failed insert or upsert call (network, permissions, constraints other than the unique keys named in the model) is not modelled. The only modelled refusals are the unique key of the candle table and a bulk upsert that repeats a conflict key.
- Timestamps taken while a loop runs: `saved_at` of the scores history is a function of the row's position (`clock(i)`), and `updated_at` of the income sync a function of the symbol; neither is a reading of a real clock.
- `fetched_at` (fmp_earnings_news_fetcher.py:141), `created_at` (news_revalidation_input_builder.py:109) and `updated_at` (news_fundamental_revalidation_runner.py:214) are read once per item or per symbol by the source, but are one constant per run in the model (`EarningsNews.NewsRow`, `NewsInput.Payload`, `NewsRevalidation.CorePayload`): rows written in one run carry the same stamp.
- The endless `while True` loop of `saifan_main_worker.py` and every `time.sleep` (the 20-second tick and the rate-limit pauses): one tick or one iteration is modelled.
- `jobs_monitor` start rows, their UUIDs and timestamps; only the counters of a run are modelled.
- HTML rendering and number formatting of the jobs digest e-mail, prompt templates and the text files they are read from.
- Log and `print` output.
- Scripts whose only effect is one delete statement (`saifan_00_reset_daily.py`, `vix_daily_reset.py`, `spy_daily_bars_reset.py`, `cleanup_earnings_calendar.py`, `reset_analyst_financial_scores.py`) are not modelled; the VIX loader's own reset is (`VixDaily.Reset`).
- `merge_earnings_into_financial_scores.py` is not part of this model: its only rule is a weighted `round()` whose result depends on binary floating point and round-half-even.
- `vix_market_state_daily_runner.py`, `fmp_news_fetcher.py` and `analyst44worker.py` are not part of this model: a language-model round trip with one length check, a pass-through fetch and upsert, and module loading by name.
- `spy_market_state_daily_runner.py` uses names it never defines (`client`, `prompt`, `json`, `date`, `supabase`, `SYMBOL`); only its cleanup, key check and upsert are modelled, with `SYMBOL` and today's date as parameters.
- SpyLive.RunCycle: models the row with `candle_time` as ISO text, as intended; the script as written hands the `datetime` object itself to the upsert (see Findings and `SpyLive.AsWrittenRunCycle`).
- SpyLive.RunCycle: the upsert names no conflict key (saifan_01_spy_live_5min_quote_builder.py:84); the model takes the key to be (symbol, candle_time), as the other writers of that table name it.
- Base.ReadReal: `float()` of a numeric string is treated as an error; the fields it reads come from decoded JSON numbers or database columns.
- Spy5mWorker.ReadInt: `int()` of a numeric string is treated as an error, for the same reason.
- The text the store returns for a stored `candle_time` in the SPY cycle is a parameter (`shown` in `SpyCycle.Cycle`); the model does not fix the database's timestamp format. The duplicate test compares that text with the bar's `date` as the source does, so when the two formats differ a repeated bar is not caught there and only the table's unique key on (symbol, candle_time) refuses it (`SpyCycle.RepeatWithOtherTextFails`).
- Spy5mWorker keeps its two candle tables as sequences of rows, not maps keyed on the candle time as the other candle writers do: the worker inserts (never upserts) and finds duplicates itself by comparing the stored `candle_time` text with the bar's, so a table with two rows of one time is a state it must be shown to avoid (`Spy5mWorker.ProcessKeepsDistinct`), not one the key rules out.
- NewsInput.Texts: any truthy symbol that is not a string is treated as making `sorted` raise, although Python sorts a set of only ints, or a set of one value, without error.
- FinancialStatements.TopTwo: with two or more rows, a numeric or null `date` is treated as making the sort raise, although Python compares numbers with one another.
- SpyDailyBars.Sync: a bulk upsert that repeats a (symbol, bar_date) key is modelled as failing whole, as PostgreSQL refuses `ON CONFLICT DO UPDATE` on the same row twice.

## Findings

| source | as written | input that shows it | evidently intended | confidence | as-written member | corrected member |
|---|---|---|---|---|---|---|
| saifan_02_spy_5m_history_update.py:61 | `bar_time >= rounded` compares a naive `strptime` result with the tz-aware `datetime.now(NY)` rounding; Python raises `TypeError` on the first bar of today, so no bar is ever written | the 10:00 bar of 2024-10-04 read at 15:00 that day | skip only bars at or after the candle now forming, and upsert today's earlier bars | not executed | SpyHistoryUpdate.AsWrittenCounterexample | SpyHistoryUpdate.WrittenBarsAreFinished |
| saifan_01_spy_live_5min_quote_builder.py:74 | the row's `candle_time` is the tz-aware `datetime` of line 70 itself, not its ISO text as the VIX builder sends it (saifan_03_vix_live_5min_quote_builder.py:45); the JSON encoding of the request body at line 84 refuses a `datetime`, so every run that has a quote raises `TypeError` and writes nothing | any quote, e.g. a price of 5.0 read at 15:02 | send `candle_time.isoformat()` and upsert the quote as the row of the current candle | not executed; rests on the Supabase client encoding the body with the standard `json` encoder | SpyLive.AsWrittenCounterexample | SpyLive.RunCycle |
| saifan_04_vix_5m_history_update.py:68 | `bar_time == rounded` compares naive with aware, which is always `False`, so the live VIX bar is upserted over the one the live builder keeps | the 15:00 bar of 2024-10-04 read at 15:02 that day | skip the bar of the candle now forming | not executed | VixHistoryUpdate.AsWrittenCounterexample | VixHistoryUpdate.WrittenBarsSkipLive |
