// Values shared by every worker: an optional value, the dynamically typed
// payloads that HTTP responses and table rows carry, and the few Python
// built-ins that the workers apply to them (`dict.get`, truthiness, `or`,
// `isinstance`, `int()`).

module Base {

  datatype Option<T> = None | Some(value: T)

  /** What a step that can raise produces: its value, or the exception that
      ends it (named by `msg`). */
  datatype Result<T> = Ok(value: T) | Err(msg: string)

  /** A decoded JSON value or a table cell, as Python holds it after
      `response.json()` or a Supabase `select`. */
  datatype Json =
    | JNull
    | JBool(b: bool)
    | JInt(i: int)
    | JReal(r: real)
    | JStr(s: string)
    | JList(items: seq<Json>)
    | JObj(fields: map<string, Json>)

  /** A Python `dict` with string keys: one fetched record or one row. */
  type Dict = map<string, Json>

  /** `d.get(k)`: a missing key reads as `None`. */
  function Get(d: Dict, k: string): Json
  {
    if k in d then d[k] else JNull
  }

  /** Python truthiness: `None`, `False`, zero and empty containers are false. */
  predicate Truthy(v: Json)
  {
    match v
    case JNull => false
    case JBool(b) => b
    case JInt(i) => i != 0
    case JReal(r) => r != 0.0
    case JStr(s) => s != []
    case JList(xs) => xs != []
    case JObj(m) => m != map[]
  }

  /** Python `a or b`: the first operand when it is truthy, else the second. */
  function Or(a: Json, b: Json): (r: Json)
    ensures Truthy(a) ==> r == a
    ensures !Truthy(a) ==> r == b
    ensures Truthy(r) <==> Truthy(a) || Truthy(b)
  {
    if Truthy(a) then a else b
  }

  /** How an f-string shows a value: a string as itself, anything else by
      `show` (Python's `str`, which is not modelled). */
  function Str(v: Json, show: Json -> string): string
  {
    if v.JStr? then v.s else show(v)
  }

  /** `[row[c] for row in rows if row.get(c)]`: the truthy values of column
      `c`, in row order. */
  function TruthyColumn(rows: seq<Dict>, c: string): (r: seq<Json>)
    ensures forall i :: 0 <= i < |r| ==> Truthy(r[i])
    ensures |r| <= |rows|
  {
    if rows == [] then []
    else
      var n := |rows| - 1;
      var v := Get(rows[n], c);
      TruthyColumn(rows[..n], c) + (if Truthy(v) then [v] else [])
  }

  /** A value is kept exactly when some row carries it, truthy, in column `c`. */
  lemma {:induction false} TruthyColumnKept(rows: seq<Dict>, c: string, x: Json)
    ensures x in TruthyColumn(rows, c) <==> exists i :: 0 <= i < |rows| && Truthy(Get(rows[i], c)) && Get(rows[i], c) == x
    decreases |rows|
  {
    if rows != [] {
      var n := |rows| - 1;
      TruthyColumnKept(rows[..n], c, x);
      if exists i :: 0 <= i < n && Truthy(Get(rows[..n][i], c)) && Get(rows[..n][i], c) == x {
        var i :| 0 <= i < n && Truthy(Get(rows[..n][i], c)) && Get(rows[..n][i], c) == x;
        assert rows[i] == rows[..n][i];
      }
      if exists i :: 0 <= i < |rows| && Truthy(Get(rows[i], c)) && Get(rows[i], c) == x {
        var i :| 0 <= i < |rows| && Truthy(Get(rows[i], c)) && Get(rows[i], c) == x;
        if i < n {
          assert rows[..n][i] == rows[i];
        }
      }
    }
  }

  /** The values `f` yields over `xs`, in order: a loop that writes at most
      one row per element. */
  function FilterMap<A, B>(xs: seq<A>, f: A -> Option<B>): (r: seq<B>)
    ensures |r| <= |xs|
  {
    if xs == [] then []
    else
      var n := |xs| - 1;
      FilterMap(xs[..n], f) + (if f(xs[n]).Some? then [f(xs[n]).value] else [])
  }

  /** Every value comes from an element, and every element that yields one
      contributes it. */
  lemma {:induction false} FilterMapAre<A, B>(xs: seq<A>, f: A -> Option<B>, y: B)
    ensures y in FilterMap(xs, f) <==> exists x :: x in xs && f(x) == Some(y)
    decreases |xs|
  {
    if xs != [] {
      var n := |xs| - 1;
      FilterMapAre(xs[..n], f, y);
      if exists x :: x in xs && f(x) == Some(y) {
        var x :| x in xs && f(x) == Some(y);
        if x != xs[n] {
          var k :| 0 <= k < |xs| && xs[k] == x;
          assert xs[..n][k] == x;
        }
      }
      if exists x :: x in xs[..n] && f(x) == Some(y) {
        var x :| x in xs[..n] && f(x) == Some(y);
        assert x in xs;
      }
    }
  }

  /** One more element appends its value, if it yields one. */
  lemma FilterMapNext<A, B>(xs: seq<A>, i: nat, f: A -> Option<B>)
    requires i < |xs|
    ensures FilterMap(xs[..i + 1], f) == FilterMap(xs[..i], f) + (if f(xs[i]).Some? then [f(xs[i]).value] else [])
  {
    assert xs[..i + 1][..i] == xs[..i];
  }

  /** A value Python can use as a dict key or set member. */
  predicate Hashable(v: Json)
  {
    !v.JList? && !v.JObj?
  }

  /** `isinstance(v, int)`: `bool` is a subclass of `int` in Python. */
  predicate IsInt(v: Json)
  {
    v.JBool? || v.JInt?
  }

  /** `isinstance(v, (int, float))`. */
  predicate IsNumber(v: Json)
  {
    IsInt(v) || v.JReal?
  }

  /** `float(v)` of a number. */
  function AsReal(v: Json): real
    requires IsNumber(v)
  {
    match v
    case JBool(b) => if b then 1.0 else 0.0
    case JInt(i) => i as real
    case JReal(r) => r
  }

  /** `float(d[k])` of a dict entry: a missing key raises `KeyError`, and a
      value that is not a number (`None` included) raises `TypeError`. */
  function ReadReal(d: Dict, k: string): (r: Result<real>)
    ensures r.Ok? <==> k in d && IsNumber(d[k])
    ensures r.Ok? ==> r.value == AsReal(d[k])
  {
    if k in d && IsNumber(d[k]) then Ok(AsReal(d[k])) else Err("float(" + k + ")")
  }

  /** Python `int(x)` of a float: truncation toward zero. */
  function Trunc(x: real): (n: int)
    ensures x >= 0.0 ==> n as real <= x < n as real + 1.0
    ensures x < 0.0 ==> n as real - 1.0 < x <= n as real
  {
    if x >= 0.0 then x.Floor else -((-x).Floor)
  }

  /** `int(v)` of a number (a float is truncated toward zero). */
  function AsInt(v: Json): int
    requires IsNumber(v)
  {
    match v
    case JBool(b) => if b then 1 else 0
    case JInt(i) => i
    case JReal(r) => Trunc(r)
  }

  /** A list of (output column, input key) pairs whose output columns are
      pairwise distinct: the shape of every `{"col": row.get("key"), ...}`
      literal in the workers. */
  predicate DistinctColumns(pairs: seq<(string, string)>)
  {
    forall i, j :: 0 <= i < j < |pairs| ==> pairs[i].0 != pairs[j].0
  }

  /** Two lists of distinct names with no name in common join into one. */
  lemma DistinctConcat(a: seq<(string, string)>, b: seq<(string, string)>)
    requires DistinctColumns(a) && DistinctColumns(b)
    requires forall i, j :: 0 <= i < |a| && 0 <= j < |b| ==> a[i].0 != b[j].0
    ensures DistinctColumns(a + b)
  {
    forall i, j | 0 <= i < j < |a + b| ensures (a + b)[i].0 != (a + b)[j].0 {
      if j < |a| {
      } else if i < |a| {
        assert (a + b)[j] == b[j - |a|];
      } else {
        assert (a + b)[i] == b[i - |a|] && (a + b)[j] == b[j - |a|];
      }
    }
  }

  /** Builds `{out: row.get(in) for (out, in) in pairs}`. */
  function Project(row: Dict, pairs: seq<(string, string)>): (r: Dict)
  {
    if pairs == [] then map[]
    else Project(row, pairs[..|pairs| - 1])[pairs[|pairs| - 1].0 := Get(row, pairs[|pairs| - 1].1)]
  }

  /** Every projected column holds exactly the value read from its key, so a
      missing key yields `None` in the record. */
  lemma {:induction false} ProjectAt(row: Dict, pairs: seq<(string, string)>, k: nat)
    requires DistinctColumns(pairs)
    requires k < |pairs|
    ensures pairs[k].0 in Project(row, pairs)
    ensures Project(row, pairs)[pairs[k].0] == Get(row, pairs[k].1)
  {
    var n := |pairs| - 1;
    if k < n {
      ProjectAt(row, pairs[..n], k);
      assert pairs[k].0 != pairs[n].0;
    }
  }

  /** A row read from a `None` record (treated as `{}`) has every column `None`. */
  lemma {:induction false} ProjectEmpty(pairs: seq<(string, string)>, c: string)
    requires c in Project(map[], pairs)
    ensures Project(map[], pairs)[c] == JNull
  {
    var n := |pairs| - 1;
    if pairs[n].0 != c {
      ProjectEmpty(pairs[..n], c);
    }
  }
}
