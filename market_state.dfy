// The SPY market state runner (spy_market_state_daily_runner.py): clean the
// language model's reply of code fences, parse it, check the four required
// keys and upsert today's decision into `spy_market_state_history`.

module MarketState {
  import opened Base
  import opened Text
  import KeyedTable

  /** The cleanup of `raw_content` (already stripped): a reply that opens
      with a fence loses every surrounding backtick and whitespace, then one
      leading "json" in any case and the whitespace after it. */
  function CleanFence(raw: string): (r: string)
    ensures !StartsWith(raw, Fence) ==> r == raw
    ensures StartsWith(raw, Fence) ==>
              var c := Strip(StripBackticks(raw));
              if StartsWith(Lower(c), "json") then r == Strip(c[4..]) else r == c
  {
    if !StartsWith(raw, Fence) then raw
    else
      var c := Strip(StripBackticks(raw));
      if StartsWith(Lower(c), "json") then Strip(c[4..]) else c
  }

  /** A fence on each side of a text with no backtick at its ends comes off. */
  lemma FenceOff(inner: string)
    requires inner != [] && inner[0] != '`' && inner[|inner| - 1] != '`'
    ensures StripBackticks(Fence + inner + Fence) == inner
  {
    assert Fence + inner + Fence == Fence + (inner + Fence);
    TrimLeftAt(Fence, inner + Fence, IsBacktick);
    TrimRightAt(inner, Fence, IsBacktick);
  }

  /** Whitespace before and after a bare text comes off. */
  lemma SpaceOff(before: string, s: string, after: string)
    requires forall i :: 0 <= i < |before| ==> IsSpace(before[i])
    requires forall i :: 0 <= i < |after| ==> IsSpace(after[i])
    requires s != [] && !IsSpace(s[0]) && !IsSpace(s[|s| - 1])
    ensures Strip(before + s + after) == s
  {
    assert before + s + after == before + (s + after);
    TrimLeftAt(before, s + after, IsSpace);
    TrimRightAt(s, after, IsSpace);
  }

  /** A fenced block on its own line opens with the fence and comes back as
      its text once the backticks and whitespace are gone. */
  lemma FencedLine(c: string)
    requires c != [] && !IsSpace(c[0]) && !IsSpace(c[|c| - 1]) && c[0] != '`'
    ensures StartsWith(Fence + (c + "\n") + Fence, Fence)
    ensures Strip(StripBackticks(Fence + (c + "\n") + Fence)) == c
  {
    assert (Fence + (c + "\n") + Fence)[..3] == Fence;
    FenceOff(c + "\n");
    SpaceOff([], c, "\n");
    assert [] + c + "\n" == c + "\n";
  }

  /** The tag, in any case, and the whitespace after it come off. */
  lemma TagLine(tag: string, body: string)
    requires |tag| == 4 && Lower(tag) == "json"
    requires body != [] && !IsSpace(body[0]) && !IsSpace(body[|body| - 1])
    ensures StartsWith(Lower(tag + "\n" + body), "json")
    ensures Strip((tag + "\n" + body)[4..]) == body
  {
    var c := tag + "\n" + body;
    assert Lower(c)[..4] == Lower(tag);
    assert c[4..] == "\n" + body + [];
    SpaceOff("\n", body, []);
  }

  /** A fenced block tagged "json" (in any case) comes back as exactly its
      body. */
  lemma FencedJsonRoundTrip(tag: string, body: string)
    requires |tag| == 4 && Lower(tag) == "json" && !IsSpace(tag[0]) && tag[0] != '`'
    requires body != [] && !IsSpace(body[0]) && !IsSpace(body[|body| - 1])
    ensures CleanFence(Fence + (tag + "\n" + body + "\n") + Fence) == body
  {
    var c := tag + "\n" + body;
    assert c[0] == tag[0] && c[|c| - 1] == body[|body| - 1];
    FencedLine(c);
    TagLine(tag, body);
    assert tag + "\n" + body + "\n" == c + "\n";
  }

  /** The keys the decision must carry. */
  const RequiredKeys: set<string> := {"symbol", "market_state", "decision_strength", "short_explanation_8_words"}

  /** `required_keys - result.keys()`. */
  function Missing(result: Dict): (r: set<string>)
    ensures r <= RequiredKeys
    ensures forall k :: k in r <==> k in RequiredKeys && k !in result
  {
    RequiredKeys - result.Keys
  }

  /** `int(v)`: a bool or int as is, a float truncated toward zero, a string
      through `parseInt`; anything else raises. */
  function IntOf(v: Json, parseInt: string -> Option<int>): (r: Result<int>)
    ensures IsNumber(v) ==> r == Ok(AsInt(v))
    ensures v.JStr? ==> (r.Ok? <==> parseInt(v.s).Some?)
    ensures v.JNull? || v.JList? || v.JObj? ==> r.Err?
  {
    match v
    case JStr(s) => if parseInt(s).Some? then Ok(parseInt(s).value) else Err("ValueError: invalid literal for int()")
    case JNull => Err("TypeError: int() argument must be a string or a number")
    case JList(_) => Err("TypeError: int() argument must be a string or a number")
    case JObj(_) => Err("TypeError: int() argument must be a string or a number")
    case _ => Ok(AsInt(v))
  }

  /** `spy_market_state_history` keyed on (symbol, decision_date). */
  type Key = (string, string)

  /** The decision row for `symbol` on `today`. */
  function DecisionRow(result: Dict, symbol: string, today: string, parseInt: string -> Option<int>): (r: Result<Dict>)
    requires Missing(result) == {}
    ensures r.Ok? <==> IntOf(result["decision_strength"], parseInt).Ok?
    ensures r.Ok? ==> r.value.Keys == {"symbol", "decision_date", "market_state", "decision_strength", "explanation"}
    ensures r.Ok? ==> r.value["symbol"] == JStr(symbol) && r.value["decision_date"] == JStr(today)
    ensures r.Ok? ==> r.value["market_state"] == result["market_state"]
                      && r.value["explanation"] == result["short_explanation_8_words"]
                      && r.value["decision_strength"] == JInt(IntOf(result["decision_strength"], parseInt).value)
  {
    assert "decision_strength" in RequiredKeys;
    match IntOf(result["decision_strength"], parseInt)
    case Err(e) => Err(e)
    case Ok(strength) =>
      Ok(map["symbol" := JStr(symbol), "decision_date" := JStr(today), "market_state" := result["market_state"],
             "decision_strength" := JInt(strength), "explanation" := result["short_explanation_8_words"]])
  }

  /** The runner after the model call: `content` is the reply, `parse` is
      `json.loads`. Any failure raises before the table is touched. */
  function Run(content: string, parse: string -> Option<Json>, parseInt: string -> Option<int>,
               symbol: string, today: string, table: map<Key, Dict>): (r: Result<map<Key, Dict>>)
    ensures var result := parse(CleanFence(Strip(content)));
            r.Ok? <==> result.Some? && result.value.JObj? && Missing(result.value.fields) == {}
                       && DecisionRow(result.value.fields, symbol, today, parseInt).Ok?
    ensures r.Ok? ==>
              var fields := parse(CleanFence(Strip(content))).value.fields;
              r.value == KeyedTable.Upsert(table, (symbol, today), DecisionRow(fields, symbol, today, parseInt).value)
    ensures parse(CleanFence(Strip(content))).None? ==> r.Err?
    ensures (var result := parse(CleanFence(Strip(content)));
             result.Some? && result.value.JObj? && Missing(result.value.fields) != {}) ==> r.Err?
  {
    var cleaned := CleanFence(Strip(content));
    match parse(cleaned)
    case None => Err("Failed to parse JSON from LLM response")
    case Some(result) =>
      if !result.JObj? then Err("AttributeError: object has no attribute 'keys'")
      else if Missing(result.fields) != {} then Err("LLM response missing keys")
      else
        match DecisionRow(result.fields, symbol, today, parseInt)
        case Err(e) => Err(e)
        case Ok(row) => Ok(KeyedTable.Upsert(table, (symbol, today), row))
  }

  /** Running twice on the same day with the same reply leaves the table as
      one run does. */
  lemma RunIdempotent(content: string, parse: string -> Option<Json>, parseInt: string -> Option<int>,
                      symbol: string, today: string, table: map<Key, Dict>)
    requires Run(content, parse, parseInt, symbol, today, table).Ok?
    ensures Run(content, parse, parseInt, symbol, today, Run(content, parse, parseInt, symbol, today, table).value)
            == Run(content, parse, parseInt, symbol, today, table)
  {
    var result := parse(CleanFence(Strip(content))).value;
    var row := DecisionRow(result.fields, symbol, today, parseInt).value;
    KeyedTable.UpsertTwice(table, (symbol, today), row);
  }
}
