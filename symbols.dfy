// The US-ticker filter two workers apply to symbols read from the earnings
// calendar (income_statements_last_sync.py, earnings_calendar_us_sync_reset.py):
// a non-empty symbol without "." and at most four characters long, which
// leaves out foreign listings and OTC tickers.

module Symbols {
  import opened Base

  /** A value that `in` and `len` accept: a string, a list or a dict. */
  predicate Sized(v: Json)
  {
    v.JStr? || v.JList? || v.JObj?
  }

  /** `"." in v`: a substring test on a string, equality with an element of
      a list, a key of a dict. */
  predicate HasDot(v: Json)
    requires Sized(v)
  {
    match v
    case JStr(s) => '.' in s
    case JList(items) => JStr(".") in items
    case JObj(fields) => "." in fields
  }

  /** `len(v)`: characters, elements or keys. */
  function Len(v: Json): nat
    requires Sized(v)
  {
    match v
    case JStr(s) => |s|
    case JList(items) => |items|
    case JObj(fields) => |fields|
  }

  /** The test on a `symbol` value: a falsy symbol is dropped; `"." in sym`
      on a truthy value other than a string, a list or a dict raises. A list
      or a dict passes when it holds no "." and has at most four items. */
  function UsTicker(sym: Json): (r: Result<bool>)
    ensures r.Err? <==> Truthy(sym) && !Sized(sym)
    ensures r == Ok(true) <==> Truthy(sym) && Sized(sym) && !HasDot(sym) && Len(sym) <= 4
    ensures sym.JStr? ==> (r == Ok(true) <==> sym.s != [] && '.' !in sym.s && |sym.s| <= 4)
  {
    if !Truthy(sym) then Ok(false)
    else if !Sized(sym) then Err("TypeError: argument of type is not iterable")
    else Ok(!HasDot(sym) && Len(sym) <= 4)
  }

  /** A one-item list without "." passes the test, as Python's `in` and
      `len` accept it. */
  lemma ListSymbolPasses()
    ensures UsTicker(JList([JStr("AB")])) == Ok(true)
    ensures UsTicker(JList([JStr("."), JStr("AB")])) == Ok(false)
  {
  }
}
