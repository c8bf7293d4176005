/** How a bulk load is cut into chunks, and which order numbers the chunks generate. */
module BulkPlan {
  import opened Prelude

  datatype Chunk = Chunk(index: nat, rows: nat)

  function RowTotal(chunks: seq<Chunk>): nat {
    if chunks == [] then 0 else RowTotal(chunks[..|chunks| - 1]) + chunks[|chunks| - 1].rows
  }

  /** Numbered from zero, all full but the last, which holds the rest. */
  predicate IsPlan(chunks: seq<Chunk>, rowCount: nat, chunkSize: nat) {
    && |chunks| > 0
    && RowTotal(chunks) == rowCount
    && (forall k :: 0 <= k < |chunks| ==> chunks[k].index == k)
    && (forall k :: 0 <= k < |chunks| - 1 ==> chunks[k].rows == chunkSize)
    && 0 < chunks[|chunks| - 1].rows <= chunkSize
  }

  /** `None` is the ValueError for arguments that are not positive. */
  method PlanChunks(rowCount: int, chunkSize: int) returns (plan: Option<seq<Chunk>>)
    ensures plan.None? <==> rowCount <= 0 || chunkSize <= 0
    ensures plan.Some? ==> IsPlan(plan.value, rowCount, chunkSize)
  {
    if rowCount <= 0 || chunkSize <= 0 {
      return None;
    }
    var chunks: seq<Chunk> := [];
    var remaining := rowCount;
    while remaining > 0
      invariant 0 <= remaining <= rowCount
      invariant RowTotal(chunks) + remaining == rowCount
      invariant forall k :: 0 <= k < |chunks| ==> chunks[k].index == k
      invariant forall k :: 0 <= k < |chunks| ==> 0 < chunks[k].rows <= chunkSize
      invariant forall k :: 0 <= k < |chunks| - (if remaining > 0 then 0 else 1) ==> chunks[k].rows == chunkSize
    {
      var size := Min(chunkSize, remaining);
      chunks := chunks + [Chunk(|chunks|, size)];
      assert chunks[..|chunks| - 1] + [chunks[|chunks| - 1]] == chunks;
      remaining := remaining - size;
    }
    plan := Some(chunks);
  }

  // ---- the plan is determined ----

  /** Rows in a plan whose chunks are all full. */
  lemma {:induction false} FullRows(chunks: seq<Chunk>, chunkSize: nat)
    requires forall k :: 0 <= k < |chunks| ==> chunks[k].rows == chunkSize
    ensures RowTotal(chunks) == |chunks| * chunkSize
  {
    if chunks != [] {
      FullRows(chunks[..|chunks| - 1], chunkSize);
      assert |chunks| * chunkSize == (|chunks| - 1) * chunkSize + chunkSize;
    }
  }

  lemma PlanSize(chunks: seq<Chunk>, rowCount: nat, chunkSize: nat)
    requires IsPlan(chunks, rowCount, chunkSize)
    ensures rowCount == (|chunks| - 1) * chunkSize + chunks[|chunks| - 1].rows
  {
    FullRows(chunks[..|chunks| - 1], chunkSize);
  }

  lemma QuotientsAgree(size: nat, a: nat, x: nat, b: nat, y: nat)
    requires 0 < x <= size && 0 < y <= size && a * size + x == b * size + y
    ensures a == b && x == y
  {
    if a < b {
      MultiplesApart(size, a, b);
    } else if b < a {
      MultiplesApart(size, b, a);
    }
  }

  lemma MultiplesApart(size: nat, a: nat, b: nat)
    requires a < b
    ensures a * size + size <= b * size
  {
    assert b * size == a * size + (b - a) * size;
    assert (b - a) * size == size + (b - a - 1) * size;
  }

  /** There is one plan for given arguments. */
  lemma PlanIsUnique(p: seq<Chunk>, q: seq<Chunk>, rowCount: nat, chunkSize: nat)
    requires IsPlan(p, rowCount, chunkSize) && IsPlan(q, rowCount, chunkSize)
    ensures p == q
  {
    PlanSize(p, rowCount, chunkSize);
    PlanSize(q, rowCount, chunkSize);
    QuotientsAgree(chunkSize, |p| - 1, p[|p| - 1].rows, |q| - 1, q[|q| - 1].rows);
    assert forall k :: 0 <= k < |p| ==> p[k].index == q[k].index && p[k].rows == q[k].rows;
  }

  // ---- order numbers ----

  /** `first_sequence` is the chunk's index times its own row count. */
  function FirstSequence(c: Chunk): nat {
    c.index * c.rows
  }

  function SequencesOf(c: Chunk): (r: seq<int>)
    ensures |r| == c.rows
  {
    seq(c.rows, o requires 0 <= o < c.rows => FirstSequence(c) + o)
  }

  function AllSequences(chunks: seq<Chunk>): seq<int> {
    if chunks == [] then [] else AllSequences(chunks[..|chunks| - 1]) + SequencesOf(chunks[|chunks| - 1])
  }

  function UpTo(n: nat): (r: seq<int>)
    ensures |r| == n
  {
    seq(n, i requires 0 <= i < n => i)
  }

  /** Full chunks number their rows without gap or repetition. */
  lemma {:induction false} FullChunksCount(chunks: seq<Chunk>, chunkSize: nat)
    requires forall k :: 0 <= k < |chunks| ==> chunks[k] == Chunk(k, chunkSize)
    ensures AllSequences(chunks) == UpTo(|chunks| * chunkSize)
  {
    if chunks != [] {
      var n := |chunks| - 1;
      FullChunksCount(chunks[..n], chunkSize);
      assert (n + 1) * chunkSize == n * chunkSize + chunkSize;
      Continues(n * chunkSize, chunks[n]);
    }
  }

  lemma PlanSequences(chunks: seq<Chunk>, rowCount: nat, chunkSize: nat)
    requires IsPlan(chunks, rowCount, chunkSize)
    ensures AllSequences(chunks) == UpTo((|chunks| - 1) * chunkSize) + SequencesOf(chunks[|chunks| - 1])
  {
    var full := chunks[..|chunks| - 1];
    assert forall k :: 0 <= k < |full| ==> full[k] == Chunk(k, chunkSize);
    FullChunksCount(full, chunkSize);
  }

  /** The last chunk is full exactly when the size divides the count. */
  lemma LastFullIffDivides(chunks: seq<Chunk>, rowCount: nat, chunkSize: nat)
    requires IsPlan(chunks, rowCount, chunkSize)
    ensures chunks[|chunks| - 1].rows == chunkSize <==> rowCount % chunkSize == 0
  {
    PlanSize(chunks, rowCount, chunkSize);
    var n, r := |chunks| - 1, chunks[|chunks| - 1].rows;
    var q, m := rowCount / chunkSize, rowCount % chunkSize;
    assert rowCount == q * chunkSize + m;
    if m == 0 && r < chunkSize {
      if q <= n { MultiplesNoMore(chunkSize, q, n); } else { MultiplesApart(chunkSize, n, q); }
    } else if m > 0 {
      QuotientsAgree(chunkSize, n, r, q, m);
    }
  }

  lemma MultiplesNoMore(size: nat, a: nat, b: nat)
    requires a <= b
    ensures a * size <= b * size
  {
    if a < b { MultiplesApart(size, a, b); }
  }

  lemma ShortProduct(n: nat, r: nat, size: nat)
    requires n > 0 && r < size
    ensures n * r < n * size
  {
    assert n * size == n * r + n * (size - r);
    MultiplesNoMore(size - r, 1, n);
  }

  /** A short last chunk after others starts inside them: its first order number is already taken. */
  lemma ShortLastRepeats(chunks: seq<Chunk>, rowCount: nat, chunkSize: nat)
    requires IsPlan(chunks, rowCount, chunkSize) && |chunks| > 1 && chunks[|chunks| - 1].rows < chunkSize
    ensures !Distinct(AllSequences(chunks))
  {
    var n, r := |chunks| - 1, chunks[|chunks| - 1].rows;
    PlanSequences(chunks, rowCount, chunkSize);
    ShortProduct(n, r, chunkSize);
    var i: nat := FirstSequence(chunks[n]);
    assert SequencesOf(chunks[n])[0] == i;
    RepeatsAt(UpTo(n * chunkSize), SequencesOf(chunks[n]), i);
  }

  lemma RepeatsAt(a: seq<int>, b: seq<int>, i: nat)
    requires i < |a| && |b| > 0 && a[i] == b[0]
    ensures !Distinct(a + b)
  {
    assert (a + b)[i] == (a + b)[|a|];
  }

  /** Numbers continued by the next block. */
  lemma Continues(n: nat, c: Chunk)
    requires FirstSequence(c) == n
    ensures UpTo(n) + SequencesOf(c) == UpTo(n + c.rows)
  {
  }

  /**
   The generated order numbers are pairwise distinct if and only if the plan has
   one chunk or the chunk size divides the row count; and then they are exactly
   0, 1, ..., rowCount - 1.
   */
  lemma SequencesDistinctIff(chunks: seq<Chunk>, rowCount: nat, chunkSize: nat)
    requires IsPlan(chunks, rowCount, chunkSize)
    ensures Distinct(AllSequences(chunks)) <==> |chunks| == 1 || rowCount % chunkSize == 0
    ensures Distinct(AllSequences(chunks)) ==> AllSequences(chunks) == UpTo(rowCount)
  {
    LastFullIffDivides(chunks, rowCount, chunkSize);
    PlanSize(chunks, rowCount, chunkSize);
    var n, r := |chunks| - 1, chunks[|chunks| - 1].rows;
    if n > 0 && r < chunkSize {
      ShortLastRepeats(chunks, rowCount, chunkSize);
    } else {
      PlanSequences(chunks, rowCount, chunkSize);
      Continues(n * chunkSize, chunks[n]);
    }
  }
}
