/** Splitting the list of working directories between the parallel jobs of
    one build step (internal/adapters/workingdir/partition.go).

    With `n` items and `c` jobs, `base = n / c` and `extra = n % c`: the first
    `extra` jobs take `base + 1` items and the rest take `base`, each job a
    contiguous slice, in job order. Every operand is non-negative once the
    parameters are valid, so Go's truncating `/` and `%` agree with Dafny's. */
module Partition {
  import opened Strings

  /** The parameters for which the source computes a slice rather than
      returning an empty result. */
  predicate ValidJob(jobIndex: int, jobCount: int) {
    0 < jobCount && 0 <= jobIndex < jobCount
  }

  /** How many items job `jobIndex` receives. */
  function ChunkSize(length: nat, jobIndex: int, jobCount: int): int
    requires 0 < jobCount
  {
    if jobIndex < length % jobCount then length / jobCount + 1 else length / jobCount
  }

  /** Where job `jobIndex`'s slice starts, by the source's closed formula. */
  function ChunkStart(length: nat, jobIndex: int, jobCount: int): int
    requires 0 < jobCount
  {
    var base := length / jobCount;
    var extra := length % jobCount;
    if jobIndex < extra then jobIndex * (base + 1)
    else extra * (base + 1) + (jobIndex - extra) * base
  }

  /** The number of items taken by jobs 0 .. k-1 together. */
  function Offset(length: nat, k: nat, jobCount: int): int
    requires 0 < jobCount
  {
    if k == 0 then 0 else Offset(length, k - 1, jobCount) + ChunkSize(length, k - 1, jobCount)
  }

  /** The closed formula is the running total of the sizes of the earlier
      jobs: one job's slice ends exactly where the next one starts. */
  lemma {:induction false} ChunkStartIsOffset(length: nat, k: nat, jobCount: int)
    requires 0 < jobCount && k <= jobCount
    ensures ChunkStart(length, k, jobCount) == Offset(length, k, jobCount)
  {
    if k > 0 {
      ChunkStartIsOffset(length, k - 1, jobCount);
      var i := k - 1;
      var base := length / jobCount;
      var extra := length % jobCount;
      if i + 1 < extra {
        assert (i + 1) * (base + 1) == i * (base + 1) + (base + 1);
      } else if i < extra {
        assert (i + 1) * (base + 1) == i * (base + 1) + (base + 1);
        assert ChunkStart(length, i + 1, jobCount) == extra * (base + 1) + 0 * base;
      } else {
        assert (i + 1 - extra) * base == (i - extra) * base + base;
      }
    }
  }

  /** All the jobs together take exactly the whole list. */
  lemma ChunkStartEnd(length: nat, jobCount: int)
    requires 0 < jobCount
    ensures ChunkStart(length, jobCount, jobCount) == length
  {
    var base := length / jobCount;
    var extra := length % jobCount;
    assert length == jobCount * base + extra;
    assert extra * (base + 1) + (jobCount - extra) * base == jobCount * base + extra;
  }

  lemma {:induction false} OffsetMonotone(length: nat, i: nat, j: nat, jobCount: int)
    requires 0 < jobCount && i <= j
    ensures 0 <= Offset(length, i, jobCount) <= Offset(length, j, jobCount)
    decreases j
  {
    if j > i {
      OffsetMonotone(length, i, j - 1, jobCount);
    } else if i > 0 {
      OffsetMonotone(length, 0, i - 1, jobCount);
    }
  }

  /** A valid job's slice lies inside the list. */
  lemma ChunkInBounds(length: nat, i: int, jobCount: int)
    requires ValidJob(i, jobCount)
    ensures 0 <= ChunkStart(length, i, jobCount)
    ensures 0 <= ChunkSize(length, i, jobCount)
    ensures ChunkStart(length, i, jobCount) + ChunkSize(length, i, jobCount) <= length
  {
    ChunkStartIsOffset(length, i, jobCount);
    ChunkStartIsOffset(length, jobCount, jobCount);
    ChunkStartEnd(length, jobCount);
    OffsetMonotone(length, i, i, jobCount);
    OffsetMonotone(length, i + 1, jobCount, jobCount);
  }

  /** `partition(items, jobIndex, jobCount)`: an empty result for invalid
      parameters (a non-positive count, a negative index, or an index at or
      beyond the count); otherwise the job's contiguous slice, of length
      `base + 1` for the first `extra` jobs and `base` for the others. */
  function Partition<T>(items: seq<T>, jobIndex: int, jobCount: int): (r: seq<T>)
    ensures !ValidJob(jobIndex, jobCount) ==> r == []
    ensures ValidJob(jobIndex, jobCount) ==>
              |r| == (if jobIndex < |items| % jobCount then |items| / jobCount + 1
                      else |items| / jobCount)
    ensures ValidJob(jobIndex, jobCount) ==>
              IsSliceAt(items, r, ChunkStart(|items|, jobIndex, jobCount))
  {
    if !ValidJob(jobIndex, jobCount) then []
    else
      var start := ChunkStart(|items|, jobIndex, jobCount);
      var size := ChunkSize(|items|, jobIndex, jobCount);
      ChunkInBounds(|items|, jobIndex, jobCount);
      items[start..start + size]
  }

  /** The concatenation, in job order, of the slices of jobs 0 .. k-1. */
  function Jobs<T>(items: seq<T>, k: nat, jobCount: int): seq<T>
    requires 0 < jobCount && k <= jobCount
  {
    if k == 0 then [] else Jobs(items, k - 1, jobCount) + Partition(items, k - 1, jobCount)
  }

  /** Every running total lies between 0 and the length of the list. */
  lemma OffsetInRange(length: nat, k: nat, jobCount: int)
    requires 0 < jobCount && k <= jobCount
    ensures 0 <= Offset(length, k, jobCount) <= length
  {
    ChunkStartIsOffset(length, jobCount, jobCount);
    ChunkStartEnd(length, jobCount);
    OffsetMonotone(length, k, jobCount, jobCount);
  }

  /** Job `k`'s slice runs from the total of the earlier jobs to the total
      including its own. */
  lemma PartitionAtOffset<T>(items: seq<T>, k: nat, jobCount: int)
    requires 0 < jobCount && k < jobCount
    ensures 0 <= Offset(|items|, k, jobCount) <= Offset(|items|, k + 1, jobCount) <= |items|
    ensures Partition(items, k, jobCount)
            == items[Offset(|items|, k, jobCount)..Offset(|items|, k + 1, jobCount)]
  {
    ChunkStartIsOffset(|items|, k, jobCount);
    ChunkInBounds(|items|, k, jobCount);
  }

  lemma {:induction false} JobsPrefix<T>(items: seq<T>, k: nat, jobCount: int)
    requires 0 < jobCount && k <= jobCount
    ensures 0 <= Offset(|items|, k, jobCount) <= |items|
    ensures Jobs(items, k, jobCount) == items[..Offset(|items|, k, jobCount)]
  {
    OffsetInRange(|items|, k, jobCount);
    if k > 0 {
      JobsPrefix(items, k - 1, jobCount);
      JobsStep(items, k, jobCount);
    }
  }

  /** Appending job `k - 1`'s slice extends the prefix taken by the jobs
      before it. */
  lemma JobsStep<T>(items: seq<T>, k: nat, jobCount: int)
    requires 0 < k <= jobCount
    requires 0 <= Offset(|items|, k - 1, jobCount) <= |items|
    requires Jobs(items, k - 1, jobCount) == items[..Offset(|items|, k - 1, jobCount)]
    ensures 0 <= Offset(|items|, k, jobCount) <= |items|
    ensures Jobs(items, k, jobCount) == items[..Offset(|items|, k, jobCount)]
  {
    PartitionAtOffset(items, k - 1, jobCount);
    PrefixThenSlice(items, Jobs(items, k - 1, jobCount), Partition(items, k - 1, jobCount),
                    Offset(|items|, k - 1, jobCount), Offset(|items|, k, jobCount));
  }

  lemma PrefixThenSlice<T>(items: seq<T>, a: seq<T>, b: seq<T>, s: int, e: int)
    requires 0 <= s <= e <= |items| && a == items[..s] && b == items[s..e]
    ensures a + b == items[..e]
  {
  }

  /** Taken together, the jobs' slices give back the whole list in its
      original order: every item goes to exactly one job and none is lost. */
  lemma PartitionsReassemble<T>(items: seq<T>, jobCount: int)
    requires 0 < jobCount
    ensures Jobs(items, jobCount, jobCount) == items
  {
    JobsPrefix(items, jobCount, jobCount);
    ChunkStartIsOffset(|items|, jobCount, jobCount);
    ChunkStartEnd(|items|, jobCount);
  }

  /** Two different jobs never share a position of the list. */
  lemma PartitionsDisjoint(length: nat, i: int, j: int, jobCount: int)
    requires ValidJob(i, jobCount) && ValidJob(j, jobCount) && i < j
    ensures ChunkStart(length, i, jobCount) + ChunkSize(length, i, jobCount)
            <= ChunkStart(length, j, jobCount)
  {
    ChunkStartIsOffset(length, i, jobCount);
    ChunkStartIsOffset(length, j, jobCount);
    OffsetMonotone(length, i + 1, j, jobCount);
  }

  /** Every position of the list belongs to some job. */
  lemma PositionHasOwner(length: nat, pos: int, jobCount: int)
    requires 0 < jobCount && 0 <= pos < length
    ensures exists j :: ValidJob(j, jobCount)
                        && ChunkStart(length, j, jobCount) <= pos
                        < ChunkStart(length, j, jobCount) + ChunkSize(length, j, jobCount)
  {
    // The last job whose slice starts at or before `pos` owns it.
    var j := 0;
    while j + 1 < jobCount && Offset(length, j + 1, jobCount) <= pos
      invariant 0 <= j < jobCount
      invariant Offset(length, j, jobCount) <= pos
      decreases jobCount - j
    {
      j := j + 1;
    }
    ChunkStartIsOffset(length, j, jobCount);
    if j + 1 == jobCount {
      ChunkStartIsOffset(length, jobCount, jobCount);
      ChunkStartEnd(length, jobCount);
    }
  }

  /** Slices differ in length by at most one, and an earlier job never
      receives fewer items than a later one. */
  lemma PartitionsBalanced<T>(items: seq<T>, i: int, j: int, jobCount: int)
    requires ValidJob(i, jobCount) && ValidJob(j, jobCount) && i <= j
    ensures 0 <= |Partition(items, i, jobCount)| - |Partition(items, j, jobCount)| <= 1
  {
  }

  /** With more jobs than items, each item gets a job of its own and the
      remaining jobs receive nothing. */
  lemma MoreJobsThanItems<T>(items: seq<T>, i: int, jobCount: int)
    requires |items| < jobCount && ValidJob(i, jobCount)
    ensures i < |items| ==> Partition(items, i, jobCount) == [items[i]]
    ensures i >= |items| ==> Partition(items, i, jobCount) == []
  {
    var n := |items|;
    SmallDivMod(n, jobCount);
    var start := ChunkStart(n, i, jobCount);
    var r := Partition(items, i, jobCount);
    if i < n {
      assert start == i * 1;
      assert |r| == 1;
      assert r == items[i..i + 1];
    } else {
      assert |r| == 0;
    }
  }

  lemma SmallDivMod(n: nat, d: int)
    requires n < d
    ensures n / d == 0 && n % d == n
  {
  }

  /** Example: five directories over two jobs; the first takes three, the second two. */
  lemma FiveOverTwo()
    ensures Partition([1, 2, 3, 4, 5], 0, 2) == [1, 2, 3]
    ensures Partition([1, 2, 3, 4, 5], 1, 2) == [4, 5]
  {
  }
}
