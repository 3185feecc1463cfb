/** Batch-size coercion and the cutting of the sentence list into batches
    (process_and_save_transcript, index.py:48-51 and 59-62). */
module Batching {
  import opened Wrappers

  function Pow2(k: nat): (p: nat)
    ensures p >= 1
  {
    if k == 0 then 1 else 2 * Pow2(k - 1)
  }

  /** int(math.log2(b)) for b >= 1, taken as the exact integer floor: 2**e is
      the largest power of two that does not exceed b. */
  function FloorLog2(b: nat): (e: nat)
    requires b >= 1
    ensures Pow2(e) <= b < 2 * Pow2(e)
  {
    if b == 1 then 0 else 1 + FloorLog2(b / 2)
  }

  /** The bounds determine the exponent: FloorLog2 is the only k with them. */
  lemma {:induction false} FloorLog2Unique(b: nat, k: nat)
    requires Pow2(k) <= b < 2 * Pow2(k)
    ensures k == FloorLog2(b)
  {
    if k > 0 {
      assert Pow2(k - 1) <= b / 2 < 2 * Pow2(k - 1);
      FloorLog2Unique(b / 2, k - 1);
    }
  }

  /** `os.cpu_count() or 1`; a count the platform cannot report is 0 here. */
  function CpuCountOrOne(reported: nat): (n: nat)
    ensures n >= 1
    ensures reported == 0 ==> n == 1
    ensures reported >= 1 ==> n == reported
  {
    if reported == 0 then 1 else reported
  }

  /** `2**int(math.log2(batch_size)) if batch_size else num_processes`. None
      stands for the ValueError ("math domain error") that math.log2 raises for
      a negative size. */
  function EffectiveBatchSize(requested: int, reportedCpus: nat): (r: Option<nat>)
    ensures r.None? <==> requested < 0
    ensures r.Some? ==> r.value >= 1
    ensures requested == 0 ==> r == Some(CpuCountOrOne(reportedCpus))
    ensures requested > 0 ==> r.Some? && r.value <= requested < 2 * r.value
    ensures requested > 0 ==> exists k :: Pow2(k) == r.value
  {
    if requested < 0 then None
    else if requested == 0 then Some(CpuCountOrOne(reportedCpus))
    else Some(Pow2(FloorLog2(requested)))
  }

  function Min(a: nat, b: nat): nat {
    if a <= b then a else b
  }

  /** len(range(0, n, size)), that is ceil(n / size): c batches of `size`
      cover the n items, and c - 1 of them would not. */
  function NumBatches(n: nat, size: nat): (c: nat)
    requires size >= 1
    ensures n <= c * size
    ensures n > 0 ==> (c - 1) * size < n
    ensures n == 0 <==> c == 0
  {
    (n + size - 1) / size
  }

  lemma StartBelowLength(n: nat, size: nat, k: nat)
    requires size >= 1 && k < NumBatches(n, size)
    ensures k * size < n
  {
    assert k * size <= (NumBatches(n, size) - 1) * size by {
      MulMonotone(k, NumBatches(n, size) - 1, size);
    }
  }

  lemma MulMonotone(a: nat, b: nat, c: nat)
    requires a <= b
    ensures a * c <= b * c
  {
  }

  /** `[s[i:i+size] for i in range(0, len(s), size)]`; the slice is clipped at the
      end of the list, as Python's slicing is. */
  function Batches<T>(s: seq<T>, size: nat): (bs: seq<seq<T>>)
    requires size >= 1
    ensures |bs| == NumBatches(|s|, size)
  {
    var count := NumBatches(|s|, size);
    seq(count, k requires 0 <= k < count =>
      StartBelowLength(|s|, size, k);
      s[k * size .. Min(k * size + size, |s|)])
  }

  /** `[x for batch in bs for x in batch]` */
  function Flatten<T>(bs: seq<seq<T>>): (r: seq<T>)
    ensures forall k, j :: 0 <= k < |bs| && 0 <= j < |bs[k]| ==> bs[k][j] in r
  {
    if bs == [] then [] else bs[0] + Flatten(bs[1..])
  }

  lemma {:induction false} FlattenAppend<T>(a: seq<seq<T>>, b: seq<seq<T>>)
    ensures Flatten(a + b) == Flatten(a) + Flatten(b)
  {
    if a == [] {
      assert a + b == b;
    } else {
      assert (a + b)[1..] == a[1..] + b;
      FlattenAppend(a[1..], b);
    }
  }

  /** Every batch is non-empty and at most `size` long, every batch but the last
      is exactly `size` long, and batch k starts at position k * size. */
  lemma BatchesShape<T>(s: seq<T>, size: nat, k: nat)
    requires size >= 1 && k < |Batches(s, size)|
    ensures k * size < |s|
    ensures Batches(s, size)[k] == s[k * size .. Min(k * size + size, |s|)]
    ensures 1 <= |Batches(s, size)[k]| <= size
    ensures k < |Batches(s, size)| - 1 ==> |Batches(s, size)[k]| == size
  {
    StartBelowLength(|s|, size, k);
    if k < |Batches(s, size)| - 1 {
      StartBelowLength(|s|, size, k + 1);
      assert (k + 1) * size == k * size + size;
    }
  }

  /** ceil(n / size) batches: NumBatches is the only count c with
      (c - 1) * size < n <= c * size for a non-empty list. */
  lemma NumBatchesIsCeiling(n: nat, size: nat, c: nat)
    requires size >= 1 && n > 0
    requires (c - 1) * size < n <= c * size
    ensures c == NumBatches(n, size)
  {
    var m := NumBatches(n, size);
    if c < m {
      MulMonotone(c, m - 1, size);
    } else if c > m {
      MulMonotone(m, c - 1, size);
    }
  }

  /** Concatenating the batches, in order, gives back the list. */
  lemma FlattenBatches<T>(s: seq<T>, size: nat)
    requires size >= 1
    ensures Flatten(Batches(s, size)) == s
  {
    var bs := Batches(s, size);
    FlattenSuffix(s, size, 0);
    assert bs[0..] == bs;
  }

  lemma {:induction false} FlattenSuffix<T>(s: seq<T>, size: nat, i: nat)
    requires size >= 1 && i <= |Batches(s, size)|
    ensures Flatten(Batches(s, size)[i..]) == s[Min(i * size, |s|)..]
    decreases |Batches(s, size)| - i
  {
    var bs := Batches(s, size);
    if i == |bs| {
      assert |s| <= |bs| * size;
    } else {
      BatchesShape(s, size, i);
      FlattenSuffix(s, size, i + 1);
      assert bs[i..] == [bs[i]] + bs[i + 1..];
      assert (i + 1) * size == i * size + size;
      var lo, mid := i * size, Min(i * size + size, |s|);
      assert s[lo..] == s[lo..mid] + s[mid..];
    }
  }
}
