// The analyst financial scores worker (analyst_financial_scores_worker.py):
// for each calendar symbol with two stored reports, send both reports to the
// language model and insert the scores it returns.

module FinancialScores {
  import opened Base

  /** `get_two_latest_reports` given the rows of the query (newest report
      first, at most two): both reports, or None with fewer than two. */
  function TwoLatest(rows: seq<Dict>): (r: Option<(Dict, Dict)>)
    ensures r.Some? <==> |rows| >= 2
    ensures r.Some? ==> r.value.0 == rows[0] && r.value.1 == rows[1]
  {
    if |rows| < 2 then None else Some((rows[0], rows[1]))
  }

  /** The latest report as sent: `analysis_date` set to today only when the
      key is absent or None. */
  function WithAnalysisDate(latest: Dict, today: string): (r: Dict)
    ensures r.Keys == latest.Keys + {"analysis_date"}
    ensures forall k :: k in latest && k != "analysis_date" ==> r[k] == latest[k]
    ensures "analysis_date" in latest && latest["analysis_date"] != JNull ==> r == latest
    ensures !("analysis_date" in latest && latest["analysis_date"] != JNull) ==> r["analysis_date"] == JStr(today)
  {
    if "analysis_date" !in latest || latest["analysis_date"] == JNull then latest["analysis_date" := JStr(today)]
    else latest
  }

  /** Injecting the date into a report that already has one changes nothing,
      whatever day it runs. */
  lemma AnalysisDateOnce(latest: Dict, today: string, later: string)
    ensures WithAnalysisDate(WithAnalysisDate(latest, today), later) == WithAnalysisDate(latest, today)
  {
  }

  /** `prepare_payload`: copies of both reports (the caller's dicts are
      values here, so they cannot be changed) under their two keys. */
  function PreparePayload(latest: Dict, previous: Dict, today: string): (r: Dict)
    ensures r.Keys == {"latest_report", "previous_report"}
    ensures r["previous_report"] == JObj(previous)
    ensures r["latest_report"].JObj? && r["latest_report"].fields == WithAnalysisDate(latest, today)
  {
    map["latest_report" := JObj(WithAnalysisDate(latest, today)), "previous_report" := JObj(previous)]
  }

  /** `call_gpt` after the request: `reply` is the message content, None when
      the call or reading the choice failed; empty content and unparseable
      JSON give None. */
  function GptData(reply: Option<string>, parse: string -> Option<Json>): (r: Option<Json>)
    ensures reply.None? || reply.value == [] ==> r.None?
    ensures r.Some? ==> parse(reply.value) == r
  {
    match reply
    case None => None
    case Some(content) => if content == [] then None else parse(content)
  }

  /** The columns copied from the model's output under their own names. */
  const CopiedColumns: set<string> := {
    "symbol", "last_earnings_date", "analysis_date", "echo_price", "total_score", "profitability",
    "growth", "financial_strength", "direction", "swing_forecast_weeks_2_3", "summary_30_words",
    "volatility_flag", "comparison_trend"}

  /** `insert_score_row`'s row: `target_range or {}` must then be a dict. */
  function ScoreRow(data: Dict): (r: Result<Dict>)
    ensures r.Ok? <==> !Truthy(Get(data, "target_range")) || Get(data, "target_range").JObj?
    ensures r.Ok? ==> r.value.Keys == CopiedColumns + {"target_range_low", "target_range_high"}
    ensures r.Ok? ==> forall c :: c in CopiedColumns ==> r.value[c] == Get(data, c)
    ensures r.Ok? && !Truthy(Get(data, "target_range")) ==>
              r.value["target_range_low"] == JNull && r.value["target_range_high"] == JNull
    ensures r.Ok? && Truthy(Get(data, "target_range")) ==>
              r.value["target_range_low"] == Get(Get(data, "target_range").fields, "low")
              && r.value["target_range_high"] == Get(Get(data, "target_range").fields, "high")
  {
    var range := Or(Get(data, "target_range"), JObj(map[]));
    if !range.JObj? then Err("AttributeError: object has no attribute 'get'")
    else
      assert "target_range_low" !in CopiedColumns && "target_range_high" !in CopiedColumns;
      Ok((map c | c in CopiedColumns :: Get(data, c))
           ["target_range_low" := Get(range.fields, "low")]["target_range_high" := Get(range.fields, "high")])
  }

  /** What `process_symbol` does for one symbol. */
  datatype Outcome = NotEnoughReports | NoGptData | Failed(msg: string) | Inserted(row: Dict)

  /** `process_symbol`: `reports` is the query's rows, `gpt` the content the
      model returns for a payload. */
  function ScoreSymbol(reports: seq<Dict>, gpt: Dict -> Option<string>, parse: string -> Option<Json>,
                       today: string): (r: Outcome)
    ensures |reports| < 2 ==> r == NotEnoughReports
    ensures |reports| >= 2 ==>
              var data := GptData(gpt(PreparePayload(reports[0], reports[1], today)), parse);
              && ((data.None? || !Truthy(data.value)) ==> r == NoGptData)
              && (data.Some? && Truthy(data.value) && data.value.JObj? && ScoreRow(data.value.fields).Ok? ==>
                    r == Inserted(ScoreRow(data.value.fields).value))
    ensures r.Inserted? ==>
              var data := GptData(gpt(PreparePayload(reports[0], reports[1], today)), parse);
              |reports| >= 2 && data.Some? && Truthy(data.value) && data.value.JObj? && ScoreRow(data.value.fields) == Ok(r.row)
  {
    match TwoLatest(reports)
    case None => NotEnoughReports
    case Some((latest, previous)) =>
      var data := GptData(gpt(PreparePayload(latest, previous, today)), parse);
      if data.None? || !Truthy(data.value) then NoGptData
      else if !data.value.JObj? then Failed("AttributeError: object has no attribute 'get'")
      else match ScoreRow(data.value.fields)
        case Err(e) => Failed(e)
        case Ok(row) => Inserted(row)
  }

  /** The row `process_symbol` inserts for one symbol: none or one. */
  function InsertedBy(reports: seq<Dict>, gpt: Dict -> Option<string>, parse: string -> Option<Json>,
                      today: string): (r: seq<Dict>)
    ensures |r| <= 1
  {
    var o := ScoreSymbol(reports, gpt, parse, today);
    if o.Inserted? then [o.row] else []
  }

  /** The rows inserted by processing `symbols` in turn. */
  function InsertedRows(symbols: seq<Json>, reports: Json -> seq<Dict>, gpt: Dict -> Option<string>,
                        parse: string -> Option<Json>, today: string): (r: seq<Dict>)
    ensures |r| <= |symbols|
  {
    if symbols == [] then []
    else
      var n := |symbols| - 1;
      InsertedRows(symbols[..n], reports, gpt, parse, today) + InsertedBy(reports(symbols[n]), gpt, parse, today)
  }

  /** Every inserted row is the output of a symbol that had two reports. */
  lemma {:induction false} InsertedHadTwoReports(symbols: seq<Json>, reports: Json -> seq<Dict>, gpt: Dict -> Option<string>,
                                                 parse: string -> Option<Json>, today: string, row: Dict)
    requires row in InsertedRows(symbols, reports, gpt, parse, today)
    ensures exists s :: s in symbols && |reports(s)| >= 2 && ScoreSymbol(reports(s), gpt, parse, today) == Inserted(row)
    decreases |symbols|
  {
    var n := |symbols| - 1;
    var o := ScoreSymbol(reports(symbols[n]), gpt, parse, today);
    assert InsertedRows(symbols, reports, gpt, parse, today)
           == InsertedRows(symbols[..n], reports, gpt, parse, today) + InsertedBy(reports(symbols[n]), gpt, parse, today);
    if row in InsertedRows(symbols[..n], reports, gpt, parse, today) {
      InsertedHadTwoReports(symbols[..n], reports, gpt, parse, today, row);
      var s :| s in symbols[..n] && |reports(s)| >= 2 && ScoreSymbol(reports(s), gpt, parse, today) == Inserted(row);
      assert s in symbols;
    } else {
      assert o == Inserted(row);
    }
  }

  /** One more symbol appends its row, if it produced one. */
  lemma InsertedRowsNext(symbols: seq<Json>, i: nat, reports: Json -> seq<Dict>, gpt: Dict -> Option<string>,
                         parse: string -> Option<Json>, today: string)
    requires i < |symbols|
    ensures InsertedRows(symbols[..i + 1], reports, gpt, parse, today)
            == InsertedRows(symbols[..i], reports, gpt, parse, today) + InsertedBy(reports(symbols[i]), gpt, parse, today)
  {
    assert symbols[..i + 1][..i] == symbols[..i];
  }

  /** `process_symbol` with its insert into `analyst_financial_scores`. */
  method ProcessSymbol(reports: seq<Dict>, gpt: Dict -> Option<string>, parse: string -> Option<Json>,
                       today: string, scores: seq<Dict>) returns (scores': seq<Dict>)
    ensures scores' == scores + InsertedBy(reports, gpt, parse, today)
  {
    var o := ScoreSymbol(reports, gpt, parse, today);
    scores' := scores;
    if o.Inserted? {
      scores' := scores' + [o.row];
    }
  }

  /** The loop of `run_worker` over its symbols. */
  method ScoreAll(symbols: seq<Json>, reports: Json -> seq<Dict>, gpt: Dict -> Option<string>,
                  parse: string -> Option<Json>, today: string, scores: seq<Dict>) returns (scores': seq<Dict>)
    ensures scores' == scores + InsertedRows(symbols, reports, gpt, parse, today)
  {
    scores' := scores;
    for i := 0 to |symbols|
      invariant scores' == scores + InsertedRows(symbols[..i], reports, gpt, parse, today)
    {
      InsertedRowsNext(symbols, i, reports, gpt, parse, today);
      scores' := ProcessSymbol(reports(symbols[i]), gpt, parse, today, scores');
    }
    assert symbols[..|symbols|] == symbols;
  }

  /** `run_worker`: the calendar rows give the symbols, each processed in
      turn; `scores` is `analyst_financial_scores`, which only receives
      inserts. */
  method RunWorker(calendar: seq<Dict>, reports: Json -> seq<Dict>, gpt: Dict -> Option<string>,
                   parse: string -> Option<Json>, today: string, scores: seq<Dict>) returns (scores': seq<Dict>)
    ensures scores' == scores + InsertedRows(TruthyColumn(calendar, "symbol"), reports, gpt, parse, today)
  {
    scores' := ScoreAll(TruthyColumn(calendar, "symbol"), reports, gpt, parse, today, scores);
  }
}
