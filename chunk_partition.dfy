/** Static work partitioning of the world's chunk files among loader threads
    (the part of ViewerDisplay.Start that runs before Parallel.ForEach).

    The n enumerated chunk paths are cut into consecutive slices of at most
    k = ceil(n / (P - 2)) paths, where P is the processor count; there are
    ceil(n / k) slices, each filled by a running `total` cursor. */
module ChunkPartition {

  function Min(a: int, b: int): int { if a <= b then a else b }

  /** Ceiling of a / b over the naturals: the least multiple count of b at or above a. */
  function CeilDiv(a: nat, b: nat): (r: nat)
    requires b > 0
    ensures r * b >= a
    ensures r * b < a + b
  {
    (a + b - 1) / b
  }

  /** Number of paths each loader thread gets at most (ViewerDisplay.cs line 157). */
  function ChunksPerThread(n: nat, processorCount: int): (k: nat)
    requires processorCount > 2
    ensures n > 0 ==> k > 0
    ensures k * (processorCount - 2) >= n
  {
    CeilDiv(n, processorCount - 2)
  }

  function Flatten<T>(ss: seq<seq<T>>): seq<T>
  {
    if ss == [] then [] else ss[0] + Flatten(ss[1..])
  }

  /** Reference definition of the split: take the first min(k, remaining)
      paths as one slice and split the rest the same way. */
  function Partition<T>(s: seq<T>, k: nat): (r: seq<seq<T>>)
    requires k > 0
    ensures r == [] <==> s == []
    decreases |s|
  {
    if s == [] then []
    else
      var m := Min(k, |s|);
      [s[..m]] + Partition(s[m..], k)
  }

  /** Concatenating the slices in order gives back the paths: every path lands
      in exactly one slice, in its original position. */
  lemma {:induction false} PartitionFlatten<T>(s: seq<T>, k: nat)
    requires k > 0
    ensures Flatten(Partition(s, k)) == s
    decreases |s|
  {
    if s != [] {
      var m := Min(k, |s|);
      PartitionFlatten(s[m..], k);
      assert s == s[..m] + s[m..];
    }
  }

  /** No slice is empty and none is longer than k. */
  lemma {:induction false} PartitionSliceBounds<T>(s: seq<T>, k: nat)
    requires k > 0
    ensures forall i :: 0 <= i < |Partition(s, k)| ==> 0 < |Partition(s, k)[i]| <= k
    decreases |s|
  {
    if s != [] {
      var m := Min(k, |s|);
      PartitionSliceBounds(s[m..], k);
      assert Partition(s, k) == [s[..m]] + Partition(s[m..], k);
    }
  }

  /** The split has exactly ceil(n / k) slices, the length of the jagged array. */
  lemma {:induction false} PartitionLength<T>(s: seq<T>, k: nat)
    requires k > 0
    ensures |Partition(s, k)| == CeilDiv(|s|, k)
    decreases |s|
  {
    if s == [] {
      CeilDivUnique(0, k, 0);
    } else if |s| <= k {
      assert s[|s|..] == [];
      CeilDivUnique(|s|, k, 1);
    } else {
      PartitionLength(s[k..], k);
      CeilDivStep(|s|, k);
    }
  }

  /** Removing one full slice removes one from the slice count. */
  lemma CeilDivStep(a: nat, b: nat)
    requires 0 < b <= a
    ensures CeilDiv(a, b) == CeilDiv(a - b, b) + 1
  {
    var c := CeilDiv(a - b, b);
    MulSucc(c, b);
    CeilDivUnique(a, b, c + 1);
  }

  lemma MulSucc(x: nat, b: nat)
    ensures (x + 1) * b == x * b + b
  {
  }

  /** Any r with a <= r * b < a + b is the ceiling. */
  lemma CeilDivUnique(a: nat, b: nat, r: nat)
    requires b > 0
    requires r * b >= a && r * b < a + b
    ensures r == CeilDiv(a, b)
  {
    var c := CeilDiv(a, b);
    if r < c {
      assert r * b <= (c - 1) * b by { MulMonotone(r, c - 1, b); }
    } else if r > c {
      assert (c + 1) * b <= r * b by { MulMonotone(c + 1, r, b); }
    }
  }

  lemma MulMonotone(x: nat, y: nat, b: nat)
    requires x <= y
    ensures x * b <= y * b
  {
  }

  /** Slice i holds the paths from i * k up to min(i * k + k, n): its length is
      min(n - total, k) where total = i * k is the cursor before it is filled. */
  lemma {:induction false} PartitionAt<T>(s: seq<T>, k: nat, i: nat)
    requires k > 0
    requires i < |Partition(s, k)|
    ensures i * k < |s|
    ensures Partition(s, k)[i] == s[i * k .. Min(i * k + k, |s|)]
    decreases |s|
  {
    var m := Min(k, |s|);
    assert Partition(s, k) == [s[..m]] + Partition(s[m..], k);
    if i == 0 {
      assert i * k == 0;
    } else {
      PartitionAt(s[m..], k, i - 1);
      assert Partition(s, k)[i] == Partition(s[m..], k)[i - 1];
      ShiftSlice(s, k, i);
    }
  }

  /** The inductive step of PartitionAt: a slice of s[k..] at (i - 1) * k is
      the slice of s at i * k. */
  lemma ShiftSlice<T>(s: seq<T>, k: nat, i: nat)
    requires 0 < k < |s| && i > 0
    requires (i - 1) * k < |s| - k
    ensures i * k < |s|
    ensures s[k..][(i - 1) * k .. Min((i - 1) * k + k, |s| - k)] == s[i * k .. Min(i * k + k, |s|)]
  {
    var lo := (i - 1) * k;
    var hi := Min(lo + k, |s| - k);
    MulSucc(i - 1, k);
    assert k + lo == i * k;
    SliceOfSuffix(s, k, lo, hi);
  }

  lemma SliceOfSuffix<T>(s: seq<T>, m: nat, lo: nat, hi: nat)
    requires m <= |s| && lo <= hi <= |s| - m
    ensures s[m..][lo .. hi] == s[m + lo .. m + hi]
  {
  }

  /** With k = ceil(n / (P - 2)) there are at most P - 2 slices, so at most
      P - 2 loader threads are used. */
  lemma SliceCountAtMostWorkers(n: nat, processorCount: int)
    requires n > 0 && processorCount > 2
    ensures CeilDiv(n, ChunksPerThread(n, processorCount)) <= processorCount - 2
  {
    var w := processorCount - 2;
    var k := ChunksPerThread(n, processorCount);
    var c := CeilDiv(n, k);
    if c > w {
      MulMonotone(w, c - 1, k);
      MulSucc(c - 1, k);
    }
  }

  /** Any sequence of rows laid out as the fill loop lays them out is the
      reference split, so it has all of that split's properties. */
  lemma RowsArePartition<T>(s: seq<T>, k: nat, rows: seq<seq<T>>)
    requires k > 0
    requires |rows| == CeilDiv(|s|, k)
    requires forall i :: 0 <= i < |rows| ==> i * k < |s| && rows[i] == s[i * k .. Min(i * k + k, |s|)]
    ensures rows == Partition(s, k)
    ensures Flatten(rows) == s
    ensures forall i :: 0 <= i < |rows| ==> 0 < |rows[i]| <= k
  {
    PartitionLength(s, k);
    forall i | 0 <= i < |rows|
      ensures rows[i] == Partition(s, k)[i]
    {
      PartitionAt(s, k, i);
    }
    PartitionFlatten(s, k);
    PartitionSliceBounds(s, k);
  }

  /** The partition as ViewerDisplay.Start runs it (ViewerDisplay.cs lines
      153-175): `totalChunkCount` is TotalChunkCount, `chunksPerThread` the
      slice bound k, `threadedChunkPaths` the jagged array handed to the
      loaders. Each row is filled in place in its own array and stored in
      the outer array as the sequence of its elements. Row i is the run of
      min(n - i * k, k) paths that starts at the cursor value i * k. */
  method PartitionChunkPaths(chunkPaths: array<string>, processorCount: int)
    returns (totalChunkCount: nat, chunksPerThread: nat, threadedChunkPaths: array<seq<string>>)
    requires chunkPaths.Length > 0
    requires processorCount > 2
    ensures totalChunkCount == chunkPaths.Length
    ensures chunksPerThread == CeilDiv(chunkPaths.Length, processorCount - 2)
    ensures threadedChunkPaths.Length == CeilDiv(chunkPaths.Length, chunksPerThread)
    ensures forall i :: 0 <= i < threadedChunkPaths.Length ==>
              i * chunksPerThread < chunkPaths.Length &&
              threadedChunkPaths[i] == chunkPaths[i * chunksPerThread .. Min(i * chunksPerThread + chunksPerThread, chunkPaths.Length)]
    ensures threadedChunkPaths[..] == Partition(chunkPaths[..], chunksPerThread)
    ensures Flatten(threadedChunkPaths[..]) == chunkPaths[..]
    ensures threadedChunkPaths.Length <= processorCount - 2
  {
    var n := chunkPaths.Length;
    totalChunkCount := n;
    chunksPerThread := ChunksPerThread(n, processorCount);
    var k := chunksPerThread;
    var count := CeilDiv(n, k);
    threadedChunkPaths := new seq<string>[count];
    var total := 0;
    ghost var paths := chunkPaths[..];
    MulSucc(count - 1, k);
    for i := 0 to count
      invariant total == Min(i * k, n)
      invariant forall m :: 0 <= m < i ==> m * k < n
      invariant forall m :: 0 <= m < i ==> threadedChunkPaths[m] == paths[m * k .. Min(m * k + k, n)]
    {
      assert i * k < n by { MulMonotone(i, count - 1, k); }
      var chunkCountForThread := Min(n - total, k);
      var row := new string[chunkCountForThread];
      for j := 0 to chunkCountForThread
        modifies row
        invariant total == i * k + j
        invariant row[..j] == paths[i * k .. total]
      {
        row[j] := chunkPaths[total];
        total := total + 1;
      }
      assert row[..] == row[..chunkCountForThread];
      assert row[..] == paths[i * k .. Min(i * k + k, n)];
      threadedChunkPaths[i] := row[..];
      MulSucc(i, k);
    }
    // Every slice has been filled and nothing is left over.
    assert total == n;
    RowsArePartition(paths, k, threadedChunkPaths[..]);
    SliceCountAtMostWorkers(n, processorCount);
  }
}
