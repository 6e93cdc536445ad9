// Bulk inserts split into fixed-size chunks (earnings_calendar_us_sync_reset.py
// with 200 rows, build_scores_history.py with 500): `data[i:i + size]` for
// `i` in `range(0, len(data), size)`.

module Batching {

  /** The chunks `range(0, len(xs), size)` cuts `xs` into. */
  function Chunks<T>(xs: seq<T>, size: nat): (cs: seq<seq<T>>)
    requires size > 0
    ensures forall c :: c in cs ==> 0 < |c| <= size
    ensures xs == [] <==> cs == []
    decreases |xs|
  {
    if xs == [] then []
    else if |xs| <= size then [xs]
    else [xs[..size]] + Chunks(xs[size..], size)
  }

  function Flatten<T>(cs: seq<seq<T>>): seq<T>
  {
    if cs == [] then [] else cs[0] + Flatten(cs[1..])
  }

  /** The chunks put back together, in order, are the input. */
  lemma {:induction false} ChunksCover<T>(xs: seq<T>, size: nat)
    requires size > 0
    ensures Flatten(Chunks(xs, size)) == xs
    decreases |xs|
  {
    if xs != [] {
      if |xs| <= size {
        assert Flatten([xs]) == xs + Flatten<T>([]);
      } else {
        ChunksCover(xs[size..], size);
        var cs := Chunks(xs, size);
        assert cs[1..] == Chunks(xs[size..], size);
        assert xs == xs[..size] + xs[size..];
      }
    }
  }

  /** Every chunk is full except possibly the last. */
  lemma {:induction false} ChunksFull<T>(xs: seq<T>, size: nat, j: nat)
    requires size > 0 && j + 1 < |Chunks(xs, size)|
    ensures |Chunks(xs, size)[j]| == size
    decreases |xs|
  {
    if j > 0 {
      ChunksFull(xs[size..], size, j - 1);
    }
  }

  /** The first chunk, then the chunks of the rest. */
  lemma ChunksStep<T>(xs: seq<T>, size: nat)
    requires size > 0 && xs != []
    ensures var k := if size <= |xs| then size else |xs|;
            Chunks(xs, size) == [xs[..k]] + Chunks(xs[k..], size)
  {
    if |xs| <= size {
      assert xs[..|xs|] == xs && xs[|xs|..] == [];
    }
  }

  /** The chunks from position `i` on: the one starting at `i`, then the rest. */
  lemma ChunksAt<T>(data: seq<T>, size: nat, i: nat, end: nat)
    requires size > 0 && i < |data| && end == (if i + size <= |data| then i + size else |data|)
    ensures Chunks(data[i..], size) == [data[i..end]] + Chunks(data[end..], size)
  {
    ChunksStep(data[i..], size);
    assert data[i..][..end - i] == data[i..end] && data[i..][end - i..] == data[end..];
  }

  lemma AppendSlice<T>(table: seq<T>, data: seq<T>, i: nat, end: nat)
    requires i <= end <= |data|
    ensures (table + data[..i]) + data[i..end] == table + data[..end]
  {
    assert data[..end] == data[..i] + data[i..end];
  }

  lemma SeqAssoc<T>(a: seq<T>, b: seq<T>, c: seq<T>)
    ensures (a + b) + c == a + (b + c)
  {
  }

  /** The loop of `insert_new_rows` and of the history batch insert: each
      chunk is appended in turn and the running total counts its rows. */
  method InsertInChunks<T>(data: seq<T>, size: nat, table: seq<T>) returns (table': seq<T>, total: nat, inserted: seq<seq<T>>)
    requires size > 0
    ensures inserted == Chunks(data, size)
    ensures table' == table + data && total == |data|
  {
    table', total, inserted := table, 0, [];
    var i := 0;
    while i < |data|
      invariant 0 <= i <= |data|
      invariant inserted + Chunks(data[i..], size) == Chunks(data, size)
      invariant table' == table + data[..i] && total == i
      decreases |data| - i
    {
      var end := if i + size <= |data| then i + size else |data|;
      var chunk := data[i..end];
      ChunksAt(data, size, i, end);
      SeqAssoc(inserted, [chunk], Chunks(data[end..], size));
      AppendSlice(table, data, i, end);
      table' := table' + chunk;
      total := total + |chunk|;
      inserted := inserted + [chunk];
      i := end;
    }
    assert data[..i] == data;
  }
}
