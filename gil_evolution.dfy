/**
 * The workloads of the lock-evolution script: `cpu_work`'s accumulator loop
 * and `parallel_computation`, which cuts a list into one contiguous chunk
 * per thread, lets worker `i` store its chunk's sum of squares in
 * `results[i]`, and adds the slots up. The workers write disjoint slots, so
 * they are run one after another, in any order.
 */
module GilEvolution {
  import opened Results
  import opened Sums

  /** `cpu_work(n, name)` without its timing: the sum of `i ** 2` for `i` in `range(n)`. */
  method CpuWork(n: int) returns (total: int)
    ensures total == SumSquaresBelow(n)
    ensures n >= 0 ==> 6 * total == (n - 1) * n * (2 * n - 1)
  {
    total := 0;
    for i := 0 to RangeLen(n)
      invariant total == SumSquaresBelow(i)
    {
      total := total + i * i;
    }
    if n >= 0 {
      SumSquaresBelowClosedForm(n);
    }
  }

  /** The exception `len(data) // 0` raises. */
  datatype ArithmeticError = ZeroDivisionError

  lemma MulLeMul(a: nat, b: nat, c: nat)
    requires a <= b
    ensures a * c <= b * c
  {
  }

  /** `chunk_size = len(data) // num_threads`: all chunks of that size fit in the data. */
  function ChunkSize(len: nat, threads: nat): (cs: nat)
    requires threads >= 1
    ensures threads * cs <= len
    ensures len - threads * cs < threads
  {
    len / threads
  }

  /** Where chunk `i` starts: `i * chunk_size`. */
  function ChunkStart(len: nat, threads: nat, i: nat): (lo: nat)
    requires i < threads
    ensures lo <= len
  {
    MulLeMul(i, threads, ChunkSize(len, threads));
    i * ChunkSize(len, threads)
  }

  /** Where chunk `i` ends: the next chunk's start, or the end of the data for the last one. */
  function ChunkEnd(len: nat, threads: nat, i: nat): (hi: nat)
    requires i < threads
    ensures ChunkStart(len, threads, i) <= hi <= len
    ensures i < threads - 1 ==> hi == ChunkStart(len, threads, i + 1)
    ensures i == threads - 1 ==> hi == len
  {
    if i < threads - 1 then
      MulLeMul(i + 1, threads, ChunkSize(len, threads));
      ChunkStart(len, threads, i) + ChunkSize(len, threads)
    else
      len
  }

  /** `data[start_idx:end_idx]`, the chunk given to worker `i`. */
  function Chunk(data: seq<int>, threads: nat, i: nat): seq<int>
    requires i < threads
  {
    data[ChunkStart(|data|, threads, i)..ChunkEnd(|data|, threads, i)]
  }

  /** The chunks handed to the workers, in index order. */
  function Chunks(data: seq<int>, threads: nat): (parts: seq<seq<int>>)
    ensures |parts| == threads
    ensures forall i :: 0 <= i < threads ==> parts[i] == Chunk(data, threads, i)
  {
    seq(threads, i requires 0 <= i < threads => Chunk(data, threads, i))
  }

  /** The parts joined end to end. */
  function Concat(parts: seq<seq<int>>): seq<int>
  {
    if parts == [] then [] else Concat(parts[..|parts| - 1]) + parts[|parts| - 1]
  }

  /** The first `k` chunks are exactly the data up to where chunk `k - 1` ends: no gap, no overlap. */
  lemma {:induction false} JoinedIsPrefix(data: seq<int>, threads: nat, k: nat)
    requires 1 <= k <= threads
    ensures Concat(Chunks(data, threads)[..k]) == data[..ChunkEnd(|data|, threads, k - 1)]
  {
    var parts := Chunks(data, threads);
    assert parts[..k][..k - 1] == parts[..k - 1];
    if k == 1 {
      assert parts[..0] == [];
    } else {
      JoinedIsPrefix(data, threads, k - 1);
      var mid, end := ChunkEnd(|data|, threads, k - 2), ChunkEnd(|data|, threads, k - 1);
      assert mid == ChunkStart(|data|, threads, k - 1);
      assert data[..mid] + data[mid..end] == data[..end];
    }
  }

  /** All the chunks joined back together are the data. */
  lemma ChunksCoverData(data: seq<int>, threads: nat)
    requires threads >= 1
    ensures Concat(Chunks(data, threads)) == data
  {
    JoinedIsPrefix(data, threads, threads);
    assert Chunks(data, threads)[..threads] == Chunks(data, threads);
    assert data[..|data|] == data;
  }

  /** Every chunk but the last has exactly `chunk_size` items. */
  lemma InnerChunkLength(data: seq<int>, threads: nat, i: nat)
    requires i < threads - 1
    ensures |Chunk(data, threads, i)| == ChunkSize(|data|, threads)
  {
  }

  /** The last chunk takes `chunk_size` items plus the `len % num_threads` left over. */
  lemma LastChunkLength(data: seq<int>, threads: nat)
    requires threads >= 1
    ensures |Chunk(data, threads, threads - 1)| == ChunkSize(|data|, threads) + |data| % threads
  {
    var cs := ChunkSize(|data|, threads);
    assert |data| == threads * cs + |data| % threads;
    assert ChunkStart(|data|, threads, threads - 1) == (threads - 1) * cs;
    assert (threads - 1) * cs + cs == threads * cs;
  }

  /** With more threads than items the chunk size is 0, so every chunk but the last is empty. */
  lemma MoreThreadsThanItems(data: seq<int>, threads: nat, i: nat)
    requires threads > |data| && i < threads - 1
    ensures ChunkSize(|data|, threads) == 0 && Chunk(data, threads, i) == []
  {
    var cs := ChunkSize(|data|, threads);
    if cs > 0 {
      MulLeMul(1, cs, threads);
      assert false;
    }
    assert ChunkStart(|data|, threads, i) == 0 && ChunkEnd(|data|, threads, i) == 0;
  }

  /** The sum of squares of each part, in order. */
  function PartSums(parts: seq<seq<int>>): (r: seq<int>)
    ensures |r| == |parts|
    ensures forall i :: 0 <= i < |parts| ==> r[i] == SumSquares(parts[i])
  {
    seq(|parts|, i requires 0 <= i < |parts| => SumSquares(parts[i]))
  }

  /** Adding up the parts' sums of squares gives the sum of squares of the parts joined. */
  lemma {:induction false} SumOfPartSums(parts: seq<seq<int>>)
    ensures Sum(PartSums(parts)) == SumSquares(Concat(parts))
    decreases |parts|
  {
    if parts != [] {
      var init, last := parts[..|parts| - 1], parts[|parts| - 1];
      SumOfPartSums(init);
      assert PartSums(parts) == PartSums(init) + [SumSquares(last)];
      SumSnoc(PartSums(init), SumSquares(last));
      SumSquaresAppend(Concat(init), last);
    }
  }

  /** What the workers leave in `results`: slot `i` holds the sum of squares of chunk `i`. */
  function ChunkSums(data: seq<int>, threads: nat): (r: seq<int>)
    ensures |r| == threads
    ensures forall i :: 0 <= i < threads ==> r[i] == SumSquares(Chunk(data, threads, i))
  {
    PartSums(Chunks(data, threads))
  }

  /** The slots add up to the sum of squares of the whole data, for every thread count. */
  lemma ChunkSumsTotal(data: seq<int>, threads: nat)
    requires threads >= 1
    ensures Sum(ChunkSums(data, threads)) == SumSquares(data)
  {
    SumOfPartSums(Chunks(data, threads));
    ChunksCoverData(data, threads);
  }

  /** `result_1 == result_4`: the total does not depend on how many threads share the work. */
  lemma TotalIndependentOfThreads(data: seq<int>, t1: nat, t2: nat)
    requires t1 >= 1 && t2 >= 1
    ensures Sum(ChunkSums(data, t1)) == Sum(ChunkSums(data, t2))
  {
    ChunkSumsTotal(data, t1);
    ChunkSumsTotal(data, t2);
  }

  /** `worker(chunk, results, index)`: stores the chunk's sum of squares in its own slot only. */
  method Worker(chunk: seq<int>, results: array<int>, index: nat)
    requires index < results.Length
    modifies results
    ensures results[index] == SumSquares(chunk)
    ensures forall j :: 0 <= j < results.Length && j != index ==> results[j] == old(results[j])
  {
    results[index] := SumSquares(chunk);
  }

  /**
   * Runs the workers one after another in the order `schedule` gives. Every
   * worker writes only its own slot, so any order in which every worker
   * runs leaves the same results.
   */
  method RunWorkers(data: seq<int>, results: array<int>, schedule: seq<nat>)
    requires forall k :: 0 <= k < |schedule| ==> schedule[k] < results.Length
    requires forall i :: 0 <= i < results.Length ==> i in schedule
    modifies results
    ensures results[..] == ChunkSums(data, results.Length)
  {
    var threads := results.Length;
    for k := 0 to |schedule|
      invariant forall i :: 0 <= i < threads && i in schedule[..k] ==>
        results[i] == SumSquares(Chunk(data, threads, i))
    {
      var i := schedule[k];
      Worker(Chunk(data, threads, i), results, i);
      assert schedule[..k + 1] == schedule[..k] + [i];
    }
    assert schedule[..|schedule|] == schedule;
  }

  /** `sum(results)`. */
  method SumSlots(results: array<int>) returns (total: int)
    ensures total == Sum(results[..])
  {
    total := 0;
    for i := 0 to results.Length
      invariant total == Sum(results[..i])
    {
      assert results[..i + 1] == results[..i] + [results[i]];
      SumSnoc(results[..i], results[i]);
      total := total + results[i];
    }
    assert results[..results.Length] == results[..];
  }

  /** The order in which the threads are started: `range(num_threads)`. */
  function StartOrder(threads: nat): (order: seq<nat>)
    ensures forall k :: 0 <= k < |order| ==> order[k] < threads
    ensures forall i :: 0 <= i < threads ==> i in order
  {
    var order := seq(threads, i => i);
    assert forall i :: 0 <= i < threads ==> i in order by {
      forall i | 0 <= i < threads
        ensures i in order
      {
        assert order[i] == i;
      }
    }
    order
  }

  /**
   * `parallel_computation(data, num_threads)` without its timing: the sum
   * of `x * x` over the data. No threads raise ZeroDivisionError when the
   * chunk size is computed; a negative count makes no slots and no workers.
   */
  method ParallelComputation(data: seq<int>, numThreads: int) returns (r: Result<int, ArithmeticError>)
    ensures numThreads == 0 <==> r.Failure?
    ensures numThreads >= 1 ==> r == Success(SumSquares(data))
    ensures numThreads < 0 ==> r == Success(0)
  {
    if numThreads == 0 {
      return Failure(ZeroDivisionError);
    }
    var slots: nat := if numThreads < 0 then 0 else numThreads;
    var results := new int[slots](_ => 0);
    RunWorkers(data, results, StartOrder(slots));
    var total := SumSlots(results);
    if slots >= 1 {
      ChunkSumsTotal(data, slots);
    }
    r := Success(total);
  }

  /** The script's comparison: one thread and four threads over `range(1_000_000)` agree. */
  method DemoParallel() returns (result1: Result<int, ArithmeticError>, result4: Result<int, ArithmeticError>)
    ensures result1.Success? && result1 == result4
    ensures result1.value == SumSquaresBelow(1_000_000)
  {
    var data := Range(1_000_000);
    result1 := ParallelComputation(data, 1);
    result4 := ParallelComputation(data, 4);
    SumSquaresOfRange(1_000_000);
  }
}
