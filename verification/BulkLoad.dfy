/**
 The bulk load of the order history: chunk files read in batches into a staging
 table whose statements commit one by one, retries, the copy into the fact
 table and the count that validates it.
 */
module BulkLoad {
  import opened Prelude
  import opened BulkPlan

  /** A line of a chunk file; the random columns of a row are one `sample`. */
  datatype Line = Columns | Row(sequence: int, sample: string)

  /** What the generator seeded with a chunk's index draws for each offset. */
  type Draw = (nat, nat) -> string

  function RowsOf(draw: Draw, c: Chunk): (r: seq<Line>)
    ensures |r| == c.rows
  {
    seq(c.rows, o requires 0 <= o < c.rows => Row(FirstSequence(c) + o, draw(c.index, o)))
  }

  function AllRows(draw: Draw, plan: seq<Chunk>): seq<Line> {
    if plan == [] then [] else AllRows(draw, plan[..|plan| - 1]) + RowsOf(draw, plan[|plan| - 1])
  }

  method GenerateRows(chunkIndex: nat, rowCount: nat, draw: Draw) returns (rows: seq<Line>)
    ensures rows == RowsOf(draw, Chunk(chunkIndex, rowCount))
  {
    var firstSequence := chunkIndex * rowCount;
    rows := [];
    for offset := 0 to rowCount
      invariant |rows| == offset
      invariant forall o :: 0 <= o < offset ==> rows[o] == Row(firstSequence + o, draw(chunkIndex, o))
    {
      rows := rows + [Row(firstSequence + offset, draw(chunkIndex, offset))];
    }
  }

  // ---- reading a file in batches ----

  function Concat<T>(batches: seq<seq<T>>): seq<T> {
    if batches == [] then [] else Concat(batches[..|batches| - 1]) + batches[|batches| - 1]
  }

  /** The lines after the header. */
  function Data<T>(file: seq<T>): seq<T> {
    if file == [] then [] else file[1..]
  }

  /** The batches are `data` cut into pieces of `size`, the last possibly shorter, none empty. */
  ghost predicate IsBatching<T>(batches: seq<seq<T>>, data: seq<T>, size: nat) {
    && Concat(batches) == data
    && (forall k :: 0 <= k < |batches| ==> 0 < |batches[k]| <= size)
    && (forall k :: 0 <= k < |batches| - 1 ==> |batches[k]| == size)
  }

  lemma ConcatAppend<T>(batches: seq<seq<T>>, batch: seq<T>)
    ensures Concat(batches + [batch]) == Concat(batches) + batch
  {
    assert (batches + [batch])[..|batches|] == batches;
  }

  /** A batch size below one still yields batches of one row. */
  method ReadInBatches<T>(file: seq<T>, batchSize: int) returns (batches: seq<seq<T>>)
    ensures IsBatching(batches, Data(file), Max(batchSize, 1))
  {
    batches := [];
    var batch: seq<T> := [];
    var rows := Data(file);
    for i := 0 to |rows|
      invariant Concat(batches) + batch == rows[..i]
      invariant forall k :: 0 <= k < |batches| ==> |batches[k]| == Max(batchSize, 1)
      invariant |batch| < Max(batchSize, 1)
    {
      batch := batch + [rows[i]];
      if |batch| >= batchSize {
        ConcatAppend(batches, batch);
        batches := batches + [batch];
        batch := [];
      }
    }
    if batch != [] {
      ConcatAppend(batches, batch);
      batches := batches + [batch];
    }
  }

  // ---- attempts and what they leave behind ----

  datatype Strategy = BULK_INSERT | FAST_EXECUTEMANY

  const EXECUTEMANY_BATCH_SIZE := 50_000

  /** Where an attempt dies, if it does: a dying load leaves the rows it had committed. */
  datatype Fault = NoFault | WriteFails | LoadDies(after: nat) | RemoveFails

  datatype Attempt = Attempt(chunk: nat, fault: Fault)

  function LandedBy(fault: Fault, rows: nat): (n: nat)
    ensures n <= rows
  {
    match fault
    case NoFault => rows
    case RemoveFails => rows
    case WriteFails => 0
    case LoadDies(after) => Min(after, rows)
  }

  /** The attempts of a run that succeeds: a chunk is tried until it succeeds, and none is left over. */
  predicate Completes(plan: seq<Chunk>, attempts: seq<Attempt>, pending: set<nat>)
    decreases |attempts|
  {
    if attempts == [] then pending == {}
    else
      var a := attempts[0];
      && a.chunk in pending && a.chunk < |plan|
      && Completes(plan, attempts[1..], if a.fault.NoFault? then pending - {a.chunk} else pending)
  }

  /** The number of attempts is left open: a failing one at a chunk still to be loaded may come before any such run. */
  lemma RetriesAreFree(plan: seq<Chunk>, attempts: seq<Attempt>, pending: set<nat>, chunk: nat, fault: Fault)
    requires Completes(plan, attempts, pending) && chunk in pending && chunk < |plan| && !fault.NoFault?
    ensures Completes(plan, [Attempt(chunk, fault)] + attempts, pending)
  {
    assert ([Attempt(chunk, fault)] + attempts)[1..] == attempts;
  }

  /** Rows committed by attempts that failed. */
  function Leftover(plan: seq<Chunk>, attempts: seq<Attempt>): nat
    requires forall k :: 0 <= k < |attempts| ==> attempts[k].chunk < |plan|
    decreases |attempts|
  {
    if attempts == [] then 0
    else
      var a := attempts[0];
      (if a.fault.NoFault? then 0 else LandedBy(a.fault, plan[a.chunk].rows)) + Leftover(plan, attempts[1..])
  }

  ghost function Landed(draw: Draw, c: Chunk, fault: Fault): multiset<Line> {
    multiset(RowsOf(draw, c)[..LandedBy(fault, c.rows)])
  }

  /** Staging after the attempts. */
  ghost function Staged(draw: Draw, plan: seq<Chunk>, attempts: seq<Attempt>): multiset<Line>
    requires forall k :: 0 <= k < |attempts| ==> attempts[k].chunk < |plan|
    decreases |attempts|
  {
    if attempts == [] then multiset{}
    else Landed(draw, plan[attempts[0].chunk], attempts[0].fault) + Staged(draw, plan, attempts[1..])
  }

  /** The rows of the chunks in `chosen`, among the first `n`. */
  ghost function RowsIn(draw: Draw, plan: seq<Chunk>, n: nat, chosen: set<nat>): multiset<Line>
    requires n <= |plan|
  {
    if n == 0 then multiset{}
    else RowsIn(draw, plan, n - 1, chosen) + (if n - 1 in chosen then multiset(RowsOf(draw, plan[n - 1])) else multiset{})
  }

  lemma {:induction false} RowsInSkip(draw: Draw, plan: seq<Chunk>, n: nat, chosen: set<nat>, k: nat)
    requires n <= |plan| && n <= k
    ensures RowsIn(draw, plan, n, chosen) == RowsIn(draw, plan, n, chosen - {k})
  {
    if n > 0 { RowsInSkip(draw, plan, n - 1, chosen, k); }
  }

  lemma {:induction false} RowsInRemove(draw: Draw, plan: seq<Chunk>, n: nat, chosen: set<nat>, k: nat)
    requires k < n <= |plan| && k in chosen
    ensures RowsIn(draw, plan, n, chosen) == RowsIn(draw, plan, n, chosen - {k}) + multiset(RowsOf(draw, plan[k]))
  {
    if k == n - 1 {
      RowsInSkip(draw, plan, n - 1, chosen, k);
    } else {
      RowsInRemove(draw, plan, n - 1, chosen, k);
    }
  }

  lemma {:induction false} RowsInAll(draw: Draw, plan: seq<Chunk>, n: nat, chosen: set<nat>)
    requires n <= |plan| && forall k: nat :: k < n ==> k in chosen
    ensures RowsIn(draw, plan, n, chosen) == multiset(AllRows(draw, plan[..n]))
    ensures |AllRows(draw, plan[..n])| == RowTotal(plan[..n])
  {
    if n > 0 {
      RowsInAll(draw, plan, n - 1, chosen);
      assert plan[..n][..n - 1] == plan[..n - 1];
    }
  }

  lemma {:induction false} RowsInNone(draw: Draw, plan: seq<Chunk>, n: nat)
    requires n <= |plan|
    ensures RowsIn(draw, plan, n, {}) == multiset{}
  {
    if n > 0 { RowsInNone(draw, plan, n - 1); }
  }

  lemma {:induction false} CompletesInRange(plan: seq<Chunk>, attempts: seq<Attempt>, pending: set<nat>)
    requires Completes(plan, attempts, pending)
    ensures forall k :: 0 <= k < |attempts| ==> attempts[k].chunk < |plan|
    decreases |attempts|
  {
    if attempts != [] {
      var a := attempts[0];
      CompletesInRange(plan, attempts[1..], if a.fault.NoFault? then pending - {a.chunk} else pending);
      assert forall k :: 1 <= k < |attempts| ==> attempts[k] == attempts[1..][k - 1];
    }
  }

  /** Staging holds the pending chunks once and, besides, exactly the leftovers. */
  lemma {:induction false} StagedIsPlannedPlusLeftover(draw: Draw, plan: seq<Chunk>, attempts: seq<Attempt>, pending: set<nat>)
    requires Completes(plan, attempts, pending)
    requires forall k :: 0 <= k < |attempts| ==> attempts[k].chunk < |plan|
    ensures RowsIn(draw, plan, |plan|, pending) <= Staged(draw, plan, attempts)
    ensures |Staged(draw, plan, attempts)| == |RowsIn(draw, plan, |plan|, pending)| + Leftover(plan, attempts)
    decreases |attempts|
  {
    if attempts == [] {
      RowsInNone(draw, plan, |plan|);
    } else {
      var a := attempts[0];
      var rest := if a.fault.NoFault? then pending - {a.chunk} else pending;
      StagedIsPlannedPlusLeftover(draw, plan, attempts[1..], rest);
      if a.fault.NoFault? {
        RowsInRemove(draw, plan, |plan|, pending, a.chunk);
        assert RowsOf(draw, plan[a.chunk])[..plan[a.chunk].rows] == RowsOf(draw, plan[a.chunk]);
      }
    }
  }

  lemma SameSizeSubset<T>(a: multiset<T>, b: multiset<T>)
    requires a <= b && |a| == |b|
    ensures a == b
  {
    assert b == a + (b - a);
  }

  /**
   Once every chunk's last attempt succeeded, the staging table counts
   `rowCount` rows if and only if no failed attempt left a row behind, and then
   it holds each planned row exactly once.
   */
  lemma {:induction false} CountIsRightIffNothingLeftOver(draw: Draw, plan: seq<Chunk>, rowCount: nat, chunkSize: nat, attempts: seq<Attempt>)
    requires IsPlan(plan, rowCount, chunkSize) && Completes(plan, attempts, Indices(plan))
    requires forall k :: 0 <= k < |attempts| ==> attempts[k].chunk < |plan|
    ensures |Staged(draw, plan, attempts)| == rowCount <==> Leftover(plan, attempts) == 0
    ensures |Staged(draw, plan, attempts)| == rowCount ==> Staged(draw, plan, attempts) == multiset(AllRows(draw, plan))
  {
    StagedIsPlannedPlusLeftover(draw, plan, attempts, Indices(plan));
    RowsInAll(draw, plan, |plan|, Indices(plan));
    assert plan[..|plan|] == plan;
    if Leftover(plan, attempts) == 0 {
      SameSizeSubset(RowsIn(draw, plan, |plan|, Indices(plan)), Staged(draw, plan, attempts));
    }
  }

  function Indices(plan: seq<Chunk>): (r: set<nat>)
    ensures forall k: nat :: k in r <==> k < |plan|
  {
    if plan == [] then {} else Indices(plan[..|plan| - 1]) + {|plan| - 1}
  }

  /** The rows of a plan carry its order numbers, in order. */
  lemma {:induction false} RowNumbers(draw: Draw, plan: seq<Chunk>)
    ensures |AllRows(draw, plan)| == |AllSequences(plan)|
    ensures forall i :: 0 <= i < |AllRows(draw, plan)| ==>
              AllRows(draw, plan)[i].Row? && AllRows(draw, plan)[i].sequence == AllSequences(plan)[i]
  {
    if plan != [] { RowNumbers(draw, plan[..|plan| - 1]); }
  }

  // ---- the load itself ----

  /** A table after the first `n` of the rows were inserted. */
  ghost function With(base: multiset<Line>, rows: seq<Line>, n: nat): multiset<Line>
    requires n <= |rows|
  {
    base + multiset(rows[..n])
  }

  ghost predicate LiesAt<T>(batch: seq<T>, data: seq<T>, i: nat) {
    i + |batch| <= |data| && data[i..i + |batch|] == batch
  }

  lemma InsertedNext(base: multiset<Line>, data: seq<Line>, i: nat, batch: seq<Line>, p: nat)
    requires LiesAt(batch, data, i) && p <= |batch|
    ensures With(With(base, data, i), batch, p) == With(base, data, i + p)
  {
    assert data[..i + p] == data[..i] + batch[..p];
  }

  /** Rows before batch `k`. */
  function Offset<T>(batches: seq<seq<T>>, k: nat): nat
    requires k <= |batches|
  {
    if k == 0 then 0 else Offset(batches, k - 1) + |batches[k - 1]|
  }

  lemma {:induction false} OffsetOfPrefix<T>(batches: seq<seq<T>>, k: nat)
    requires k < |batches|
    ensures Offset(batches, k) == Offset(batches[..|batches| - 1], k)
  {
    if k > 0 { OffsetOfPrefix(batches, k - 1); }
  }

  /** Where batch `k` lies in the data. */
  lemma {:induction false} BatchAt<T>(batches: seq<seq<T>>, data: seq<T>, k: nat)
    requires k < |batches| && data == Concat(batches)
    ensures LiesAt(batches[k], data, Offset(batches, k))
    ensures k + 1 == |batches| ==> Offset(batches, k + 1) == |data|
  {
    var n := |batches| - 1;
    OffsetOfPrefix(batches, k);
    if k < n {
      OffsetOfPrefix(batches, k + 1);
      BatchAt(batches[..n], Concat(batches[..n]), k);
    } else if n > 0 {
      BatchAt(batches[..n], Concat(batches[..n]), n - 1);
    }
  }

  class OrderHistoryLoad {
    var staging: multiset<Line>
    var fact: multiset<Line>

    constructor () {
      staging, fact := multiset{}, multiset{};
    }

    method PrepareStaging()
      modifies this
      ensures staging == multiset{} && fact == old(fact)
    {
      staging := multiset{};
    }

    /** `executemany` of the batch at offset `i` of `data`, on a connection that survives `room` more rows. */
    method InsertBatch(batch: seq<Line>, room: nat, ghost base: multiset<Line>, ghost data: seq<Line>, ghost i: nat)
      returns (ok: bool)
      requires LiesAt(batch, data, i) && staging == With(base, data, i)
      modifies this
      ensures fact == old(fact)
      ensures ok <==> |batch| <= room
      ensures staging == With(base, data, i + Min(room, |batch|))
    {
      InsertedNext(base, data, i, batch, Min(room, |batch|));
      staging := staging + multiset(batch[..Min(room, |batch|)]);
      ok := |batch| <= room;
    }

    /**
     `INSERT` per batch on an autocommitting connection that dies after `survives`
     rows: the rows before that stay.  `None` is the exception, on close at the latest.
     */
    method LoadWithExecutemany(file: seq<Line>, survives: nat) returns (total: Option<nat>)
      modifies this
      ensures fact == old(fact)
      ensures total == if survives <= |Data(file)| then None else Some(|Data(file)|)
      ensures staging == With(old(staging), Data(file), Min(survives, |Data(file)|))
    {
      var batches := ReadInBatches(file, EXECUTEMANY_BATCH_SIZE);
      ghost var data, before := Data(file), staging;
      var loaded, k := 0, 0;
      while k < |batches|
        invariant 0 <= k <= |batches|
        invariant fact == old(fact)
        invariant loaded == Offset(batches, k) <= |data| && loaded <= survives
        invariant k == |batches| ==> loaded == |data|
        invariant staging == With(before, data, loaded)
      {
        BatchAt(batches, data, k);
        var ok := InsertBatch(batches[k], survives - loaded, before, data, loaded);
        if !ok {
          return None;
        }
        loaded := loaded + |batches[k]|;
        k := k + 1;
      }
      total := if survives <= loaded then None else Some(loaded);
    }

    /** `BULK INSERT`; the count returned is that of the whole table. */
    method LoadWithBulkInsert(file: seq<Line>, survives: nat) returns (total: Option<nat>)
      modifies this
      ensures fact == old(fact)
      ensures total == if survives <= |Data(file)| then None else Some(|old(staging)| + |Data(file)|)
      ensures staging == With(old(staging), Data(file), Min(survives, |Data(file)|))
    {
      var rows := Data(file);
      staging := staging + multiset(rows[..Min(survives, |rows|)]);
      total := if survives <= |rows| then None else Some(|staging|);
    }

    /** One attempt at one chunk: write its file, load it, remove it. */
    method GenerateAndLoad(c: Chunk, strategy: Strategy, draw: Draw, fault: Fault) returns (ok: bool)
      modifies this
      ensures ok <==> fault.NoFault?
      ensures fact == old(fact)
      ensures staging == old(staging) + Landed(draw, c, fault)
    {
      if fault.WriteFails? {
        return false;
      }
      var rows := GenerateRows(c.index, c.rows, draw);
      var file := [Columns] + rows;
      assert Data(file) == rows;
      var survives := if fault.LoadDies? then Min(fault.after, |rows|) else |rows| + 1;
      var loaded: Option<nat>;
      match strategy {
        case BULK_INSERT => loaded := LoadWithBulkInsert(file, survives);
        case FAST_EXECUTEMANY => loaded := LoadWithExecutemany(file, survives);
      }
      ok := loaded.Some? && !fault.RemoveFails?;
    }

    method LoadFact() returns (count: nat)
      modifies this
      ensures fact == staging == old(staging)
      ensures count == |fact|
    {
      fact := multiset{};
      fact := fact + staging;
      count := |fact|;
    }

    /**
     The whole run.  When every chunk's last attempt succeeds, the validation
     accepts if and only if no failed attempt left rows behind, and then the fact
     table holds exactly the planned rows, each once.
     */
    method Run(plan: seq<Chunk>, rowCount: nat, ghost chunkSize: nat, strategy: Strategy, draw: Draw, attempts: seq<Attempt>)
      returns (accepted: bool)
      requires IsPlan(plan, rowCount, chunkSize) && Completes(plan, attempts, Indices(plan))
      modifies this
      ensures forall k :: 0 <= k < |attempts| ==> attempts[k].chunk < |plan|
      ensures accepted <==> Leftover(plan, attempts) == 0
      ensures accepted ==> fact == multiset(AllRows(draw, plan))
    {
      CompletesInRange(plan, attempts, Indices(plan));
      PrepareStaging();
      var i := 0;
      while i < |attempts|
        invariant 0 <= i <= |attempts|
        invariant staging + Staged(draw, plan, attempts[i..]) == Staged(draw, plan, attempts)
      {
        assert attempts[i..][1..] == attempts[i + 1..];
        var _ := GenerateAndLoad(plan[attempts[i].chunk], strategy, draw, attempts[i].fault);
        i := i + 1;
      }
      CountIsRightIffNothingLeftOver(draw, plan, rowCount, chunkSize, attempts);
      var count := LoadFact();
      accepted := count == rowCount;
    }
  }
}
