/** `for i in range(0, len(results), 2): batch = results[i:i+2]`: findings are curated two at a
    time, in order. */
module Batching {

  const BatchSize: nat := 2

  function Min(a: int, b: int): int { if a <= b then a else b }

  /** Number of batches, ⌈n / 2⌉. */
  function NumBatches(n: nat): nat { (n + 1) / 2 }

  /** The consecutive slices of two (the last possibly of one). */
  function Batches<T>(s: seq<T>): (r: seq<seq<T>>)
    ensures |r| == NumBatches(|s|)
    decreases |s|
  {
    if |s| == 0 then []
    else if |s| <= BatchSize then [s]
    else [s[..BatchSize]] + Batches(s[BatchSize..])
  }

  /** Batch `j` is the Python slice `s[2j:2j+2]`; it is never empty and holds at most two findings. */
  lemma {:induction false} BatchAt<T>(s: seq<T>, j: nat)
    requires j < NumBatches(|s|)
    ensures Batches(s)[j] == s[2 * j..Min(2 * j + 2, |s|)]
    ensures 1 <= |Batches(s)[j]| <= BatchSize
    decreases |s|
  {
    if |s| > BatchSize && j > 0 {
      BatchAt(s[BatchSize..], j - 1);
      assert s[BatchSize..][2 * (j - 1)..Min(2 * (j - 1) + 2, |s| - 2)] == s[2 * j..Min(2 * j + 2, |s|)];
    }
  }

  /** The loop's cursor `i = 2j` is still inside the findings exactly while batch `j` exists. */
  lemma BatchIndex(len: nat, j: nat)
    ensures BatchSize * j < len <==> j < NumBatches(len)
  {
  }

  /** `results[i:i + 2]` at cursor `i = 2j` is batch `j`. */
  method SliceBatch<T>(s: seq<T>, i: nat, j: nat) returns (batch: seq<T>)
    requires i == BatchSize * j && j < NumBatches(|s|)
    ensures batch == Batches(s)[j]
  {
    batch := s[i..Min(i + BatchSize, |s|)];
    BatchAt(s, j);
  }

  /** The pauses taken once `j` of `n` batches are done: one after each batch but the last. */
  function PausesAfter(j: nat, n: nat, pause: nat): seq<nat>
    requires j <= n
  {
    if j == 0 then [] else PausesAfter(j - 1, n, pause) + (if j < n then [pause] else [])
  }

  /** All of them are the same pause, and there are `j` of them until the last batch is done. */
  lemma {:induction false} PausesAfterShape(j: nat, n: nat, pause: nat)
    requires j <= n
    ensures |PausesAfter(j, n, pause)| == if j < n || n == 0 then j else n - 1
    ensures forall k | 0 <= k < |PausesAfter(j, n, pause)| :: PausesAfter(j, n, pause)[k] == pause
  {
    if j > 0 {
      PausesAfterShape(j - 1, n, pause);
    }
  }

  lemma PausesAfterStep(j: nat, n: nat, pause: nat)
    requires j < n
    ensures PausesAfter(j + 1, n, pause) == PausesAfter(j, n, pause) + (if j + 1 < n then [pause] else [])
  {
  }

  /** Element `k` of batch `j` is element `2j + k` of the input. */
  lemma BatchElement<T>(s: seq<T>, j: nat, k: nat)
    requires j < NumBatches(|s|) && k < |Batches(s)[j]|
    ensures 2 * j + k < |s| && Batches(s)[j][k] == s[2 * j + k]
  {
    BatchAt(s, j);
    var lo, hi := 2 * j, Min(2 * j + 2, |s|);
    var batch := s[lo..hi];
    assert batch[k] == s[lo + k];
  }

  function Flatten<T>(bs: seq<seq<T>>): seq<T> {
    if bs == [] then [] else bs[0] + Flatten(bs[1..])
  }

  /** Every finding lands in exactly one batch and the batches keep the findings' order:
      concatenating them gives back the input. */
  lemma {:induction false} BatchesPartition<T>(s: seq<T>)
    ensures Flatten(Batches(s)) == s
    decreases |s|
  {
    if |s| > BatchSize {
      BatchesPartition(s[BatchSize..]);
      var bs := Batches(s);
      assert bs[1..] == Batches(s[BatchSize..]);
      assert s == s[..BatchSize] + s[BatchSize..];
    } else if |s| > 0 {
      assert Batches(s)[1..] == [];
      assert s + [] == s;
    }
  }
}
