// The news revalidation AI runner (news_revalidation_ai_runner.py): for up
// to ten unprocessed inputs, ask the language model for a verdict, clean and
// validate its JSON, and log the verdicts that pass. It writes nothing.

module AiRunner {
  import opened Base
  import opened Text

  /** `raw.replace("```json", "").replace("```", "").strip()`. */
  function Clean(raw: string): string
  {
    Strip(ReplaceAll(ReplaceAll(raw, "```json", ""), Fence, ""))
  }

  /** The cleaned reply holds no fence and has no surrounding whitespace. */
  lemma CleanIsBare(raw: string)
    ensures !Contains(Clean(raw), Fence)
    ensures Clean(raw) != [] ==> !IsSpace(Clean(raw)[0]) && !IsSpace(Clean(raw)[|Clean(raw)| - 1])
  {
    var unfenced := ReplaceAll(ReplaceAll(raw, "```json", ""), Fence, "");
    NoFenceLeft(ReplaceAll(raw, "```json", ""));
    StripIsSlice(unfenced);
    var a, b :| 0 <= a <= b <= |unfenced| && Strip(unfenced) == unfenced[a..b];
    if Contains(Clean(raw), Fence) {
      ContainsInSlice(unfenced, a, b, Fence);
    }
  }

  /** What `json.loads` makes of the cleaned reply: no JSON, a value that is
      not an object (whose `.items()` then raises), or an object's items in
      the dict's order. */
  datatype Parsed = NotJson | NotObject(value: Json) | Object(items: seq<(string, Json)>)

  /** The keys of `items` after `key`. */
  function KeysAfter(items: seq<(string, Json)>, key: string -> string): set<string>
  {
    set i | 0 <= i < |items| :: key(items[i].0)
  }

  /** `{key(k): v for k, v in items}`: when two keys map to the same text,
      the later item wins. */
  function Rekey(items: seq<(string, Json)>, key: string -> string): (r: Dict)
    ensures r.Keys == KeysAfter(items, key)
  {
    if items == [] then map[]
    else
      var n := |items| - 1;
      assert KeysAfter(items, key) == KeysAfter(items[..n], key) + {key(items[n].0)} by {
        forall k | k in KeysAfter(items, key) ensures k in KeysAfter(items[..n], key) + {key(items[n].0)} {
          var i :| 0 <= i < |items| && key(items[i].0) == k;
          if i < n {
            assert items[..n][i] == items[i];
          }
        }
      }
      Rekey(items[..n], key)[key(items[n].0) := items[n].1]
  }

  /** `i` is the last item whose key maps to `k`. */
  predicate LastWith(items: seq<(string, Json)>, key: string -> string, k: string, i: int)
  {
    0 <= i < |items| && key(items[i].0) == k
    && forall j :: i < j < |items| ==> key(items[j].0) != k
  }

  /** Each key holds the value of the last item whose key maps to it. */
  lemma {:induction false} RekeyLastWins(items: seq<(string, Json)>, key: string -> string, k: string, i: int)
    requires LastWith(items, key, k, i)
    ensures k in Rekey(items, key) && Rekey(items, key)[k] == items[i].1
    decreases |items|
  {
    var n := |items| - 1;
    if i < n {
      assert LastWith(items[..n], key, k, i) by {
        forall j | i < j < n ensures key(items[..n][j].0) != k {
          assert items[..n][j] == items[j];
        }
      }
      RekeyLastWins(items[..n], key, k, i);
      assert items[..n][i] == items[i];
    }
  }

  /** `{k.strip(): v for k, v in data.items()}`. */
  function NormalizeKeys(items: seq<(string, Json)>): Dict
  {
    Rekey(items, Strip)
  }

  /** No key keeps surrounding whitespace. */
  lemma NormalizedKeysTrimmed(items: seq<(string, Json)>, k: string)
    requires k in NormalizeKeys(items)
    ensures k != [] ==> !IsSpace(k[0]) && !IsSpace(k[|k| - 1])
  {
    var i :| 0 <= i < |items| && Strip(items[i].0) == k;
    StripIsSlice(items[i].0);
  }

  /** The six labels a verdict may carry. */
  const AllowedBias: set<Json> := {
    JStr("strong_bullish"), JStr("bullish"), JStr("neutral"),
    JStr("bearish"), JStr("strong_bearish"), JStr("high_risk_unclear")}

  /** The validation of `run_ai`: the symbol must be the one asked about, the
      label one of the six, and both scores ints (`bool` included). Testing an
      unhashable label against the set raises. */
  function Validate(data: Dict, symbol: Json): (r: Result<Option<Dict>>)
    ensures r.Err? <==> Get(data, "symbol") == symbol && !Hashable(Get(data, "bias_label"))
    ensures r.Ok? && r.value.Some? <==>
              Get(data, "symbol") == symbol && Get(data, "bias_label") in AllowedBias
              && IsInt(Get(data, "bias_strength")) && IsInt(Get(data, "updated_total_score"))
    ensures r.Ok? && r.value.Some? ==> r.value.value == data
  {
    if Get(data, "symbol") != symbol then Ok(None)
    else if !Hashable(Get(data, "bias_label")) then Err("TypeError: unhashable type")
    else if Get(data, "bias_label") !in AllowedBias then Ok(None)
    else if !IsInt(Get(data, "bias_strength")) then Ok(None)
    else if !IsInt(Get(data, "updated_total_score")) then Ok(None)
    else Ok(Some(data))
  }

  /** `run_ai` after the model call: `reply` is the message content (Err when
      the call raises, None when the content is None). */
  function RunAi(reply: Result<Option<string>>, parse: string -> Parsed, symbol: Json): (r: Result<Option<Dict>>)
    ensures reply.Err? ==> r.Err?
    ensures r.Ok? && r.value.Some? ==>
              Get(r.value.value, "symbol") == symbol && Get(r.value.value, "bias_label") in AllowedBias
              && IsInt(Get(r.value.value, "bias_strength")) && IsInt(Get(r.value.value, "updated_total_score"))
    ensures reply.Ok? ==> match parse(Clean(if reply.value.Some? then reply.value.value else ""))
                          case Object(items) => r == Validate(NormalizeKeys(items), symbol)
                          case _ => r == Ok(None)
  {
    match reply
    case Err(e) => Err(e)
    case Ok(content) =>
      var raw := Clean(if content.Some? then content.value else "");
      match parse(raw)
      case NotJson => Ok(None)
      case NotObject(_) => Ok(None)
      case Object(items) => Validate(NormalizeKeys(items), symbol)
  }

  /** The pending rows of `news_revalidation_input`, in table order. */
  function Pending(table: seq<Dict>): (r: seq<Dict>)
    ensures forall j :: 0 <= j < |r| ==> r[j] in table && Get(r[j], "processed") == JBool(false)
  {
    if table == [] then []
    else
      var n := |table| - 1;
      Pending(table[..n]) + (if Get(table[n], "processed") == JBool(false) then [table[n]] else [])
  }

  /** The positions of the unprocessed rows, ascending. */
  function PendingAt(table: seq<Dict>): (r: seq<nat>)
    ensures forall j :: 0 <= j < |r| ==> r[j] < |table| && Get(table[r[j]], "processed") == JBool(false)
    ensures forall j, k :: 0 <= j < k < |r| ==> r[j] < r[k]
    ensures forall i :: 0 <= i < |table| && Get(table[i], "processed") == JBool(false) ==> i in r
  {
    if table == [] then []
    else
      var n := |table| - 1;
      var prev := PendingAt(table[..n]);
      assert forall j :: 0 <= j < |prev| ==> table[prev[j]] == table[..n][prev[j]];
      assert forall i :: 0 <= i < n ==> table[i] == table[..n][i];
      prev + (if Get(table[n], "processed") == JBool(false) then [n] else [])
  }

  /** The pending rows are exactly the rows whose `processed` is false,
      taken at those positions in table order: none is missed. */
  lemma {:induction false} PendingInOrder(table: seq<Dict>)
    ensures |Pending(table)| == |PendingAt(table)|
    ensures forall j :: 0 <= j < |Pending(table)| ==> Pending(table)[j] == table[PendingAt(table)[j]]
  {
    if table != [] {
      var n := |table| - 1;
      PendingInOrder(table[..n]);
      var prev := PendingAt(table[..n]);
      assert forall j :: 0 <= j < |prev| ==> table[prev[j]] == table[..n][prev[j]];
    }
  }

  /** The columns `fetch_pending_inputs` selects. */
  const InputColumns: seq<(string, string)> := [("symbol", "symbol"), ("base_score", "base_score"), ("news_block", "news_block")]

  /** `fetch_pending_inputs(limit=10)`: at most ten unprocessed rows. */
  function FetchPending(table: seq<Dict>): (r: seq<Dict>)
    ensures |r| <= 10 && |r| <= |Pending(table)|
    ensures |Pending(table)| >= 10 ==> |r| == 10
    ensures forall j :: 0 <= j < |r| ==> r[j] == Project(Pending(table)[j], InputColumns)
  {
    var pending := Pending(table);
    var k := if |pending| < 10 then |pending| else 10;
    seq(k, j requires 0 <= j < k => Project(pending[j], InputColumns))
  }

  /** `run_ai` for one fetched row. */
  function Attempt(ai: (Json, Json, Json) -> Result<Option<string>>, parse: string -> Parsed): Dict -> Result<Option<Dict>>
  {
    row => RunAi(ai(Get(row, "symbol"), Get(row, "base_score"), Get(row, "news_block")), parse, Get(row, "symbol"))
  }

  /** What `main` logs for `rows`, `attempt` giving each row's outcome, or
      the first exception, which ends the run. */
  function Verdicts(rows: seq<Dict>, attempt: Dict -> Result<Option<Dict>>): (r: Result<seq<(Json, Dict)>>)
    ensures r.Ok? ==> |r.value| <= |rows|
  {
    if rows == [] then Ok([])
    else
      var n := |rows| - 1;
      match Verdicts(rows[..n], attempt)
      case Err(e) => Err(e)
      case Ok(prev) =>
        match attempt(rows[n])
        case Err(e) => Err(e)
        case Ok(None) => Ok(prev)
        case Ok(Some(data)) => Ok(prev + [(Get(rows[n], "symbol"), data)])
  }

  /** Every logged verdict is the accepted outcome of a row with its symbol. */
  lemma {:induction false} VerdictsFromRows(rows: seq<Dict>, attempt: Dict -> Result<Option<Dict>>, e: (Json, Dict))
    requires Verdicts(rows, attempt).Ok? && e in Verdicts(rows, attempt).value
    ensures exists i :: 0 <= i < |rows| && Get(rows[i], "symbol") == e.0 && attempt(rows[i]) == Ok(Some(e.1))
    decreases |rows|
  {
    var n := |rows| - 1;
    var prev := Verdicts(rows[..n], attempt).value;
    if e in prev {
      VerdictsFromRows(rows[..n], attempt, e);
      var i :| 0 <= i < n && Get(rows[..n][i], "symbol") == e.0 && attempt(rows[..n][i]) == Ok(Some(e.1));
      assert rows[..n][i] == rows[i];
    }
  }

  /** An exception stops the run: the rows after it change nothing. */
  lemma {:induction false} VerdictsErrStays(rows: seq<Dict>, attempt: Dict -> Result<Option<Dict>>, i: nat)
    requires i <= |rows| && Verdicts(rows[..i], attempt).Err?
    ensures Verdicts(rows, attempt) == Verdicts(rows[..i], attempt)
    decreases |rows| - i
  {
    if i < |rows| {
      assert rows[..i + 1][..i] == rows[..i];
      VerdictsErrStays(rows, attempt, i + 1);
    } else {
      assert rows[..i] == rows;
    }
  }

  /** Every verdict `main` logs is about a row it fetched and passed
      validation. */
  lemma LoggedVerdictsValid(rows: seq<Dict>, ai: (Json, Json, Json) -> Result<Option<string>>, parse: string -> Parsed,
                            e: (Json, Dict))
    requires Verdicts(rows, Attempt(ai, parse)).Ok? && e in Verdicts(rows, Attempt(ai, parse)).value
    ensures exists i :: 0 <= i < |rows| && Get(rows[i], "symbol") == e.0
    ensures Get(e.1, "symbol") == e.0 && Get(e.1, "bias_label") in AllowedBias
    ensures IsInt(Get(e.1, "bias_strength")) && IsInt(Get(e.1, "updated_total_score"))
  {
    VerdictsFromRows(rows, Attempt(ai, parse), e);
    var i :| 0 <= i < |rows| && Get(rows[i], "symbol") == e.0 && Attempt(ai, parse)(rows[i]) == Ok(Some(e.1));
    assert RunAi(ai(e.0, Get(rows[i], "base_score"), Get(rows[i], "news_block")), parse, e.0) == Ok(Some(e.1));
  }

  /** The loop of `main`. */
  method LogVerdicts(rows: seq<Dict>, attempt: Dict -> Result<Option<Dict>>) returns (r: Result<seq<(Json, Dict)>>)
    ensures r == Verdicts(rows, attempt)
  {
    var logged: seq<(Json, Dict)> := [];
    for i := 0 to |rows|
      invariant Verdicts(rows[..i], attempt) == Ok(logged)
    {
      assert rows[..i + 1][..i] == rows[..i];
      var result := attempt(rows[i]);
      if result.Err? {
        VerdictsErrStays(rows, attempt, i + 1);
        return Err(result.msg);
      }
      if result.value.Some? {
        logged := logged + [(Get(rows[i], "symbol"), result.value.value)];
      }
    }
    assert rows[..|rows|] == rows;
    r := Ok(logged);
  }

  /** `main`: the table is only read; the result is what it logs. */
  method RunPending(table: seq<Dict>, ai: (Json, Json, Json) -> Result<Option<string>>, parse: string -> Parsed)
    returns (r: Result<seq<(Json, Dict)>>)
    ensures r == Verdicts(FetchPending(table), Attempt(ai, parse))
  {
    r := LogVerdicts(FetchPending(table), Attempt(ai, parse));
  }
}
