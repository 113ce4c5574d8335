/** `chunkArray` of src/core/stream.ts: consecutive slices of a fixed size. */
module Stream {

  function Flatten<T>(chunks: seq<seq<T>>): seq<T> {
    if chunks == [] then [] else Flatten(chunks[..|chunks| - 1]) + chunks[|chunks| - 1]
  }

  function Min(a: int, b: int): int {
    if a <= b then a else b
  }

  /** The loop ends after `ceil(n / size)` rounds. */
  lemma ChunkCount(n: nat, size: int, k: nat)
    requires size >= 1 && n <= k * size < n + size
    ensures k == (n + size - 1) / size
  {
    var q := (n + size - 1) / size;
    assert q * size <= n + size - 1 < (q + 1) * size;
    MulMonotone(q + 1, k, size);
    MulMonotone(k + 1, q, size);
    assert (q + 1) * size == q * size + size && (k + 1) * size == k * size + size;
  }

  lemma {:induction false} MulMonotone(a: nat, b: nat, size: nat)
    ensures a <= b ==> a * size <= b * size
    decreases b
  {
    if a < b {
      MulMonotone(a, b - 1, size);
      assert b * size == (b - 1) * size + size;
    }
  }

  /** `k` chunks of `size` elements span `Times(k, size)` elements; the loop adds `size` per round. */
  function Times(k: nat, size: nat): nat {
    if k == 0 then 0 else Times(k - 1, size) + size
  }

  lemma {:induction false} TimesIsProduct(k: nat, size: nat)
    ensures Times(k, size) == k * size
  {
    if k > 0 {
      TimesIsProduct(k - 1, size);
      assert k * size == (k - 1) * size + size;
    }
  }

  /**
   * `chunkArray(array, chunkSize)`: slices of `chunkSize` elements from the
   * front.  The loop advances by `chunkSize`, so a positive size is what it
   * needs to end.
   */
  method ChunkArray<T>(items: seq<T>, chunkSize: int) returns (chunks: seq<seq<T>>)
    requires chunkSize >= 1
    ensures Flatten(chunks) == items
    ensures forall j :: 0 <= j < |chunks| - 1 ==> |chunks[j]| == chunkSize
    ensures chunks != [] ==> 0 < |chunks[|chunks| - 1]| <= chunkSize
    ensures |chunks| == (|items| + chunkSize - 1) / chunkSize
    ensures items == [] <==> chunks == []
  {
    chunks := [];
    var i := 0;
    while i < |items|
      invariant i == Times(|chunks|, chunkSize)
      invariant i <= |items| ==> Flatten(chunks) == items[..i]
      invariant i > |items| ==> Flatten(chunks) == items && i < |items| + chunkSize
      invariant forall j :: 0 <= j < |chunks| - 1 ==> |chunks[j]| == chunkSize
      invariant chunks != [] ==> 0 < |chunks[|chunks| - 1]| <= chunkSize
      invariant chunks != [] && i <= |items| ==> |chunks[|chunks| - 1]| == chunkSize
      decreases |items| - i
    {
      var next := Min(i + chunkSize, |items|);
      var prev := chunks;
      chunks := chunks + [items[i..next]];
      assert chunks[..|chunks| - 1] == prev;
      assert Flatten(chunks) == items[..next] by {
        assert items[..next] == items[..i] + items[i..next];
      }
      i := i + chunkSize;
    }
    if i == |items| {
      assert items[..i] == items;
    }
    TimesIsProduct(|chunks|, chunkSize);
    ChunkCount(|items|, chunkSize, |chunks|);
  }
}
