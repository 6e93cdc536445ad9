// A database table written through Supabase `upsert(..., on_conflict=<key>)`:
// a map from the conflict key to the row's columns. A write of a new key
// inserts the row; a write of an existing key updates the columns the
// payload names and keeps the others (PostgREST "merge-duplicates").

module KeyedTable {
  import opened Base

  /** The keys written by a sequence of (key, payload) upserts. */
  function KeysOf<K>(rows: seq<(K, Dict)>): set<K>
  {
    set i | 0 <= i < |rows| :: rows[i].0
  }

  /** One upsert of `row` under key `k`. */
  function Upsert<K>(t: map<K, Dict>, k: K, row: Dict): (r: map<K, Dict>)
    ensures r.Keys == t.Keys + {k}
    ensures forall c :: c in row ==> c in r[k] && r[k][c] == row[c]
    ensures forall k' :: k' in t && k' != k ==> r[k'] == t[k']
    ensures k in t ==> r[k].Keys == t[k].Keys + row.Keys
    ensures k in t ==> forall c :: c in t[k] && c !in row ==> r[k][c] == t[k][c]
    ensures k !in t ==> r[k] == row
  {
    t[k := if k in t then t[k] + row else row]
  }

  /** Writing the same row twice under the same key is the same as once. */
  lemma UpsertTwice<K>(t: map<K, Dict>, k: K, row: Dict)
    ensures Upsert(Upsert(t, k, row), k, row) == Upsert(t, k, row)
  {
    var once := Upsert(t, k, row);
    assert once[k] + row == once[k];
  }

  /** Upserts `rows` one after another, as a loop of single upserts or one
      bulk upsert does. */
  function UpsertAll<K>(t: map<K, Dict>, rows: seq<(K, Dict)>): (r: map<K, Dict>)
    ensures r.Keys == t.Keys + KeysOf(rows)
  {
    if rows == [] then t
    else
      var n := |rows| - 1;
      assert KeysOf(rows) == KeysOf(rows[..n]) + {rows[n].0} by {
        forall k | k in KeysOf(rows) ensures k in KeysOf(rows[..n]) + {rows[n].0} {
          var i :| 0 <= i < |rows| && rows[i].0 == k;
          if i < n {
            assert rows[..n][i] == rows[i];
          }
        }
      }
      Upsert(UpsertAll(t, rows[..n]), rows[n].0, rows[n].1)
  }

  /** One more upsert after a run of them. */
  lemma UpsertAllSnoc<K>(t: map<K, Dict>, rows: seq<(K, Dict)>, k: K, row: Dict)
    ensures UpsertAll(t, rows + [(k, row)]) == Upsert(UpsertAll(t, rows), k, row)
  {
    assert (rows + [(k, row)])[..|rows|] == rows;
  }

  /** Two runs of upserts one after the other are one run over both. */
  lemma {:induction false} UpsertAllConcat<K>(t: map<K, Dict>, a: seq<(K, Dict)>, b: seq<(K, Dict)>)
    ensures UpsertAll(t, a + b) == UpsertAll(UpsertAll(t, a), b)
    decreases |b|
  {
    if b == [] {
      assert a + b == a;
    } else {
      var n := |b| - 1;
      assert (a + b)[..|a + b| - 1] == a + b[..n];
      UpsertAllConcat(t, a, b[..n]);
    }
  }

  /** Write `i` is the last one of key `k`. */
  ghost predicate LastWriteOf<K>(rows: seq<(K, Dict)>, k: K, i: int)
  {
    0 <= i < |rows| && rows[i].0 == k && forall j :: i < j < |rows| ==> rows[j].0 != k
  }

  /** After the upserts an unwritten key keeps its old row, and a written key
      holds every column of its last write with that write's value. */
  lemma {:induction false} UpsertAllAt<K>(t: map<K, Dict>, rows: seq<(K, Dict)>, k: K)
    requires k in KeysOf(rows) || k in t
    ensures k in UpsertAll(t, rows)
    ensures k !in KeysOf(rows) ==> UpsertAll(t, rows)[k] == t[k]
    ensures forall i, c :: LastWriteOf(rows, k, i) && c in rows[i].1 ==>
              c in UpsertAll(t, rows)[k] && UpsertAll(t, rows)[k][c] == rows[i].1[c]
  {
    if rows != [] {
      var n := |rows| - 1;
      if rows[n].0 != k {
        if k in KeysOf(rows) {
          var i :| 0 <= i < |rows| && rows[i].0 == k;
          assert rows[..n][i].0 == k;
        }
        UpsertAllAt(t, rows[..n], k);
        forall i | LastWriteOf(rows, k, i) ensures LastWriteOf(rows[..n], k, i) {
        }
      }
    }
  }

  /** `t` with the rows of `w` merged over it. */
  function Overlay<K>(t: map<K, Dict>, w: map<K, Dict>): map<K, Dict>
  {
    map k | k in t.Keys + w.Keys :: if k in w then (if k in t then t[k] + w[k] else w[k]) else t[k]
  }

  /** Merging dicts is associative. */
  lemma MergeAssoc(a: Dict, b: Dict, c: Dict)
    ensures (a + b) + c == a + (b + c)
  {
  }

  /** Merging the same dict twice is merging it once. */
  lemma MergeTwice(a: Dict, b: Dict)
    ensures (a + b) + b == a + b
  {
  }

  /** Merging one more write over a table commutes with the overlay. */
  lemma OverlayUpsert<K>(t: map<K, Dict>, w: map<K, Dict>, k: K, row: Dict)
    ensures Upsert(Overlay(t, w), k, row) == Overlay(t, Upsert(w, k, row))
  {
    var a := Upsert(Overlay(t, w), k, row);
    var b := Overlay(t, Upsert(w, k, row));
    assert a.Keys == b.Keys;
    forall x | x in a ensures a[x] == b[x] {
      if x == k && k in t && k in w {
        MergeAssoc(t[k], w[k], row);
      }
    }
  }

  /** Overlaying the same writes twice is overlaying them once. */
  lemma OverlayTwice<K>(t: map<K, Dict>, w: map<K, Dict>)
    ensures Overlay(Overlay(t, w), w) == Overlay(t, w)
  {
    var o := Overlay(t, w);
    var oo := Overlay(o, w);
    assert oo.Keys == o.Keys;
    forall k | k in o ensures oo[k] == o[k] {
      if k in w {
        if k in t {
          MergeTwice(t[k], w[k]);
        } else {
          assert w[k] + w[k] == w[k];
        }
      }
    }
  }

  /** The upserts depend only on the rows written: the result is the old
      table with the rows they build in an empty table merged over it. */
  lemma {:induction false} UpsertAllOverlay<K>(t: map<K, Dict>, rows: seq<(K, Dict)>)
    ensures UpsertAll(t, rows) == Overlay(t, UpsertAll(map[], rows))
  {
    if rows == [] {
      assert Overlay(t, map[]) == t;
    } else {
      var n := |rows| - 1;
      UpsertAllOverlay(t, rows[..n]);
      OverlayUpsert(t, UpsertAll(map[], rows[..n]), rows[n].0, rows[n].1);
    }
  }

  /** Running the same upserts a second time changes nothing. */
  lemma UpsertAllIdempotent<K>(t: map<K, Dict>, rows: seq<(K, Dict)>)
    ensures UpsertAll(UpsertAll(t, rows), rows) == UpsertAll(t, rows)
  {
    UpsertAllOverlay(t, rows);
    UpsertAllOverlay(UpsertAll(t, rows), rows);
    OverlayTwice(t, UpsertAll(map[], rows));
  }

  /** What a loop of upserts that stops at its first exception has done:
      the writes so far and the exception, if one was raised. */
  datatype Pass<K> = Pass(written: seq<(K, Dict)>, error: Option<string>)

  /** The loop over `xs`, where building the write of an item can raise. */
  function Upserts<T, K>(xs: seq<T>, write: T -> Result<(K, Dict)>): (p: Pass<K>)
    ensures |p.written| <= |xs|
  {
    if xs == [] then Pass([], None)
    else
      var n := |xs| - 1;
      var prev := Upserts(xs[..n], write);
      if prev.error.Some? then prev
      else match write(xs[n])
        case Err(e) => Pass(prev.written, Some(e))
        case Ok(w) => Pass(prev.written + [w], None)
  }

  /** One more item, as the loop sees it. */
  lemma UpsertsNext<T, K>(xs: seq<T>, i: nat, write: T -> Result<(K, Dict)>)
    requires i < |xs|
    ensures Upserts(xs[..i + 1], write) ==
              var prev := Upserts(xs[..i], write);
              if prev.error.Some? then prev
              else match write(xs[i])
                case Err(e) => Pass(prev.written, Some(e))
                case Ok(w) => Pass(prev.written + [w], None)
  {
    assert xs[..i + 1][..i] == xs[..i];
  }

  /** Once an item has raised, the later items change nothing. */
  lemma {:induction false} UpsertsStop<T, K>(xs: seq<T>, i: nat, write: T -> Result<(K, Dict)>)
    requires i <= |xs| && Upserts(xs[..i], write).error.Some?
    ensures Upserts(xs, write) == Upserts(xs[..i], write)
    decreases |xs| - i
  {
    if i < |xs| {
      UpsertsNext(xs, i, write);
      UpsertsStop(xs, i + 1, write);
    } else {
      assert xs[..i] == xs;
    }
  }

  /** Without an exception every item is written, in order; with one, the
      items before the one that raised are written and no later one. */
  lemma {:induction false} UpsertsAre<T, K>(xs: seq<T>, write: T -> Result<(K, Dict)>, j: nat)
    ensures Upserts(xs, write).error.None? ==> |Upserts(xs, write).written| == |xs|
    ensures j < |Upserts(xs, write).written| ==>
              write(xs[j]).Ok? && Upserts(xs, write).written[j] == write(xs[j]).value
    ensures Upserts(xs, write).error.Some? ==>
              var n := |Upserts(xs, write).written|;
              n < |xs| && write(xs[n]).Err? && Upserts(xs, write).error == Some(write(xs[n]).msg)
    decreases |xs|
  {
    if xs != [] {
      var n := |xs| - 1;
      var prev := Upserts(xs[..n], write);
      UpsertsAre(xs[..n], write, j);
      if prev.error.None? && j < n {
        assert xs[..n][j] == xs[j];
      } else if prev.error.Some? {
        var m := |prev.written|;
        assert xs[..n][m] == xs[m];
        if j < m {
          assert xs[..n][j] == xs[j];
        }
      }
    }
  }

  /** One upsert after a run of them, as a step of a loop. */
  method UpsertNext<K>(t: map<K, Dict>, done: seq<(K, Dict)>, cur: map<K, Dict>, w: (K, Dict))
    returns (next: map<K, Dict>)
    requires cur == UpsertAll(t, done)
    ensures next == UpsertAll(t, done + [w])
  {
    UpsertAllSnoc(t, done, w.0, w.1);
    next := Upsert(cur, w.0, w.1);
  }

  /** A loop of single upserts where building a write can raise: the items
      before the first exception are written, and the exception ends the
      loop. */
  method UpsertEach<T, K>(xs: seq<T>, write: T -> Result<(K, Dict)>, t: map<K, Dict>)
    returns (error: Option<string>, t': map<K, Dict>)
    ensures error == Upserts(xs, write).error
    ensures t' == UpsertAll(t, Upserts(xs, write).written)
  {
    t' := t;
    var done: seq<(K, Dict)> := [];
    for i := 0 to |xs|
      invariant Upserts(xs[..i], write) == Pass(done, None)
      invariant t' == UpsertAll(t, done)
    {
      UpsertsNext(xs, i, write);
      var w := write(xs[i]);
      if w.Err? {
        UpsertsStop(xs, i + 1, write);
        return Some(w.msg), t';
      }
      t' := UpsertNext(t, done, t', w.value);
      done := done + [w.value];
    }
    assert xs[..|xs|] == xs;
    error := None;
  }
}
