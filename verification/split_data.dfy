/** Chunk arithmetic of `split_data.py`: a file of `total` rows is cut into consecutive
    chunks of `size` rows, the last one possibly shorter. File reading and writing are not
    modelled; a chunk is the half-open row range [start, end). */
module SplitData {

  datatype Chunk = Chunk(start: nat, end: nat)

  /** Default rows per chunk. */
  const DefaultSplitSize: nat := 730

  /** `num_splits`: ceiling division of the row count by the chunk size, that is the least
      number of chunks of `size` rows that holds every row. */
  function NumSplits(total: nat, size: nat): (n: nat)
    requires size > 0
    ensures n * size >= total
    ensures n > 0 ==> (n - 1) * size < total
    ensures total == 0 <==> n == 0
  {
    var q := total + size - 1;
    var n := q / size;
    assert q == n * size + q % size;
    assert q % size < size;
    n
  }

  /** The row ranges of a split, as `split_data` visits them. */
  predicate IsSplit(chunks: seq<Chunk>, total: nat, size: nat)
    requires size > 0
  {
    && |chunks| == NumSplits(total, size)
    && forall i :: 0 <= i < |chunks| ==>
         chunks[i].start == i * size && chunks[i].end == if (i + 1) * size < total then (i + 1) * size else total
  }

  /** Computes the ranges `[i * size, min((i + 1) * size, total))` for i < num_splits. */
  method SplitRanges(total: nat, size: nat) returns (chunks: seq<Chunk>)
    requires size > 0
    ensures IsSplit(chunks, total, size)
    ensures |chunks| == 0 <==> total == 0
    ensures |chunks| > 0 ==> chunks[0].start == 0 && chunks[|chunks| - 1].end == total
    ensures forall i :: 0 <= i < |chunks| ==> 0 < chunks[i].end - chunks[i].start <= size
    ensures forall i :: 0 <= i < |chunks| - 1 ==> chunks[i].end == chunks[i + 1].start
    ensures forall i :: 0 <= i < |chunks| - 1 ==> chunks[i].end - chunks[i].start == size
  {
    var n := NumSplits(total, size);
    chunks := [];
    var i := 0;
    while i < n
      invariant 0 <= i <= n
      invariant |chunks| == i
      invariant forall j :: 0 <= j < i ==>
        chunks[j].start == j * size && chunks[j].end == if (j + 1) * size < total then (j + 1) * size else total
      invariant forall j :: 0 <= j < i ==> 0 < chunks[j].end - chunks[j].start <= size
      invariant forall j :: 0 <= j < i && j < n - 1 ==> chunks[j].end - chunks[j].start == size
    {
      var start := i * size;
      var end := if (i + 1) * size < total then (i + 1) * size else total;
      assert start < total by {
        assert (n - 1) * size < total;
        MulMonotoneNat(i, n - 1, size);
      }
      if i < n - 1 {
        MulMonotoneNat(i + 1, n - 1, size);
      }
      chunks := chunks + [Chunk(start, end)];
      i := i + 1;
    }
    if n > 0 {
      assert (n - 1) * size < total;
      assert n * size >= total;
    }
  }

  lemma MulMonotoneNat(a: nat, b: nat, k: nat)
    requires a <= b
    ensures a * k <= b * k
  {
  }

  /** Every row lies in exactly one chunk: the one numbered row / size. */
  lemma RowInExactlyOneChunk(chunks: seq<Chunk>, total: nat, size: nat, row: nat, i: nat)
    requires size > 0 && IsSplit(chunks, total, size)
    requires row < total && i < |chunks|
    ensures row / size < |chunks|
    ensures chunks[i].start <= row < chunks[i].end <==> i == row / size
  {
    var q, n := row / size, |chunks|;
    assert q * size <= row < (q + 1) * size by {
      assert row == q * size + row % size;
    }
    assert n * size >= total;
    if q >= n {
      MulMonotoneNat(n, q, size);
      assert false;
    }
    assert chunks[i].start == i * size;
    assert chunks[i].end == if (i + 1) * size < total then (i + 1) * size else total;
    if i < q {
      MulMonotoneNat(i + 1, q, size);
    } else if i > q {
      MulMonotoneNat(q + 1, i, size);
    }
  }

  /** 1500 rows with the default size give chunks of 730, 730 and 40 rows. */
  lemma DefaultSplitExample()
    ensures NumSplits(1500, DefaultSplitSize) == 3
  {
  }
}
