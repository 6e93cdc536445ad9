// build_scores_history.py: copy every row of `analyst_financial_scores` into
// `analyst_financial_scores_history`, stamped with the time it was copied,
// inserting the copies in batches of 500.

module ScoresHistory {
  import opened Base
  import Batching

  const BatchSize: nat := 500

  /** The columns copied under their own names. */
  const CopiedColumns: set<string> := {
    "symbol", "last_earnings_date", "analysis_date", "echo_price", "total_score", "profitability",
    "growth", "financial_strength", "target_range_low", "target_range_high", "swing_forecast_weeks_2_3",
    "volatility_flag", "summary_30_words", "comparison_trend", "created_at", "direction"}

  /** The history object for one score row; every column is read with
      `row[...]`, which raises when it is missing. `savedAt` is the clock
      reading taken while building it. */
  function HistoryRow(row: Dict, savedAt: string): (r: Result<Dict>)
    ensures r.Ok? <==> "id" in row && CopiedColumns <= row.Keys
    ensures r.Ok? ==> r.value.Keys == CopiedColumns + {"original_id", "saved_at"}
    ensures r.Ok? ==> r.value["original_id"] == row["id"] && r.value["saved_at"] == JStr(savedAt)
    ensures r.Ok? ==> forall c :: c in CopiedColumns ==> r.value[c] == row[c]
  {
    if "id" !in row then Err("KeyError: 'id'")
    else if !(CopiedColumns <= row.Keys) then Err("KeyError: a score column is missing")
    else
      assert "original_id" !in CopiedColumns && "saved_at" !in CopiedColumns;
      Ok((map c | c in CopiedColumns :: row[c])["original_id" := row["id"]]["saved_at" := JStr(savedAt)])
  }

  /** The history object for the row at each position, with the clock
      read for it. */
  function BuilderOf(clock: nat -> string): (nat, Dict) -> Result<Dict>
  {
    (i: nat, row: Dict) => HistoryRow(row, clock(i))
  }

  /** `history_rows` after the loop, or the first exception. */
  function HistoryRows(rows: seq<Dict>, build: (nat, Dict) -> Result<Dict>): (r: Result<seq<Dict>>)
    ensures r.Ok? ==> |r.value| == |rows|
  {
    if rows == [] then Ok([])
    else
      var n := |rows| - 1;
      match HistoryRows(rows[..n], build)
      case Err(e) => Err(e)
      case Ok(prev) =>
        match build(n, rows[n])
        case Err(e) => Err(e)
        case Ok(h) => Ok(prev + [h])
  }

  /** There is one history row per score row, in the same order: the j-th
      is the history object of the j-th score row. */
  lemma {:induction false} HistoryRowsMatch(rows: seq<Dict>, build: (nat, Dict) -> Result<Dict>, j: nat)
    requires HistoryRows(rows, build).Ok? && j < |rows|
    ensures build(j, rows[j]) == Ok(HistoryRows(rows, build).value[j])
  {
    var n := |rows| - 1;
    if j < n {
      HistoryRowsMatch(rows[..n], build, j);
      assert rows[..n][j] == rows[j];
    }
  }

  /** The loop fails exactly when some row's history object cannot be
      built. */
  lemma {:induction false} HistoryRowsFail(rows: seq<Dict>, build: (nat, Dict) -> Result<Dict>)
    ensures HistoryRows(rows, build).Err? <==> exists j :: 0 <= j < |rows| && build(j, rows[j]).Err?
  {
    if rows != [] {
      var n := |rows| - 1;
      HistoryRowsFail(rows[..n], build);
      if exists j :: 0 <= j < n && build(j, rows[..n][j]).Err? {
        var j :| 0 <= j < n && build(j, rows[..n][j]).Err?;
        assert rows[..n][j] == rows[j];
      }
      if exists j :: 0 <= j < |rows| && build(j, rows[j]).Err? {
        var j :| 0 <= j < |rows| && build(j, rows[j]).Err?;
        if j < n {
          assert rows[..n][j] == rows[j];
        }
      }
    }
  }

  /** Every history row carries its score row's id as `original_id`, the
      other score columns unchanged, and the clock reading of its
      position. */
  lemma HistoryRowsCopy(rows: seq<Dict>, clock: nat -> string, j: nat)
    requires HistoryRows(rows, BuilderOf(clock)).Ok? && j < |rows|
    ensures var h := HistoryRows(rows, BuilderOf(clock)).value[j];
            "id" in rows[j] && h.Keys == CopiedColumns + {"original_id", "saved_at"}
            && h["original_id"] == rows[j]["id"] && h["saved_at"] == JStr(clock(j))
            && forall c :: c in CopiedColumns ==> c in rows[j] && h[c] == rows[j][c]
  {
    HistoryRowsMatch(rows, BuilderOf(clock), j);
    assert HistoryRow(rows[j], clock(j)) == Ok(HistoryRows(rows, BuilderOf(clock)).value[j]);
  }

  /** Once a row has raised, later rows change nothing. */
  lemma {:induction false} HistoryRowsErrStays(rows: seq<Dict>, build: (nat, Dict) -> Result<Dict>, i: nat)
    requires i <= |rows| && HistoryRows(rows[..i], build).Err?
    ensures HistoryRows(rows, build) == HistoryRows(rows[..i], build)
    decreases |rows| - i
  {
    if i < |rows| {
      assert rows[..i + 1][..i] == rows[..i];
      HistoryRowsErrStays(rows, build, i + 1);
    } else {
      assert rows[..i] == rows;
    }
  }

  /** The `for row in rows` loop that fills `history_rows`. */
  method PrepareHistory(rows: seq<Dict>, build: (nat, Dict) -> Result<Dict>) returns (r: Result<seq<Dict>>)
    ensures r == HistoryRows(rows, build)
  {
    var history: seq<Dict> := [];
    for i := 0 to |rows|
      invariant HistoryRows(rows[..i], build) == Ok(history)
    {
      assert rows[..i + 1][..i] == rows[..i];
      var h := build(i, rows[i]);
      if h.Err? {
        HistoryRowsErrStays(rows, build, i + 1);
        return Err(h.msg);
      }
      history := history + [h.value];
    }
    assert rows[..|rows|] == rows;
    r := Ok(history);
  }

  /** `build_history`: `data` is the query's result (None when absent);
      `history` only receives inserts. Returns the exception, if any, and
      the batches inserted. */
  method BuildHistory(data: Option<seq<Dict>>, clock: nat -> string, history: seq<Dict>)
    returns (error: Option<string>, history': seq<Dict>, batches: seq<seq<Dict>>)
    ensures data.None? || data.value == [] ==> error.None? && history' == history && batches == []
    ensures data.Some? && HistoryRows(data.value, BuilderOf(clock)).Err? ==>
              error == Some(HistoryRows(data.value, BuilderOf(clock)).msg) && history' == history && batches == []
    ensures data.Some? && HistoryRows(data.value, BuilderOf(clock)).Ok? ==>
              error.None? && history' == history + HistoryRows(data.value, BuilderOf(clock)).value
              && batches == Batching.Chunks(HistoryRows(data.value, BuilderOf(clock)).value, BatchSize)
  {
    if data.None? || data.value == [] {
      return None, history, [];
    }
    var rows := PrepareHistory(data.value, BuilderOf(clock));
    if rows.Err? {
      return Some(rows.msg), history, [];
    }
    var total;
    history', total, batches := Batching.InsertInChunks(rows.value, BatchSize, history);
    error := None;
  }

  /** The batches hold at most 500 rows each, all but the last exactly 500,
      and put together they are the history rows in order. */
  lemma BatchesCoverHistory(history: seq<Dict>, j: nat)
    ensures forall b :: b in Batching.Chunks(history, BatchSize) ==> 0 < |b| <= BatchSize
    ensures Batching.Flatten(Batching.Chunks(history, BatchSize)) == history
    ensures j + 1 < |Batching.Chunks(history, BatchSize)| ==> |Batching.Chunks(history, BatchSize)[j]| == BatchSize
  {
    Batching.ChunksCover(history, BatchSize);
    if j + 1 < |Batching.Chunks(history, BatchSize)| {
      Batching.ChunksFull(history, BatchSize, j);
    }
  }
}
