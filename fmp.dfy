// The part of FMP's `historical-price-full` response the daily loaders
// read: the `historical` member and the items a `for` loop visits in it.

module Fmp {
  import opened Base

  /** The `historical` member of an FMP response: `response` is the decoded body,
      or the error of the request, the status check or the decoding. Only an
      object with a "historical" member yields it (`in` on a list or string
      passes other values on to `data["historical"]`, which raises too). */
  function History(response: Result<Json>): (r: Result<Json>)
    ensures r.Ok? <==> response.Ok? && response.value.JObj? && "historical" in response.value.fields
    ensures r.Ok? ==> r.value == response.value.fields["historical"]
  {
    match response
    case Err(e) => Err(e)
    case Ok(data) =>
      if data.JObj? && "historical" in data.fields then Ok(data.fields["historical"])
      else if data.JObj? || data.JList? || data.JStr? then Err("No historical data returned from FMP")
      else Err("TypeError: argument of type is not iterable")
  }

  /** The items `for row in rows` visits, when iterating (and `len`)
      succeed: a list's elements; an empty object or string has none, and a
      non-empty one yields keys or characters, on which `row["date"]` raises. */
  function Items(rows: Json): (r: Result<seq<Json>>)
    ensures rows.JList? ==> r == Ok(rows.items)
    ensures r.Ok? ==> rows.JList? || r.value == []
  {
    match rows
    case JList(items) => Ok(items)
    case JObj(fields) => if fields == map[] then Ok([]) else Err("TypeError: string indices must be integers")
    case JStr(s) => if s == [] then Ok([]) else Err("TypeError: string indices must be integers")
    case _ => Err("TypeError: object is not iterable")
  }
}
