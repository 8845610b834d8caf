/** Fixed-size slicing, `xs[i:i + n] for i in range(0, len(xs), n)`: the
  * job fetches changed rows in pages of 100 and loads and re-queries
  * films in chunks of 10. */
module Batching {
  import opened Common

  /** Rows per `fetchmany` page. */
  const PageSize: nat := 100

  /** Ids or rows per chunk handed to the loader. */
  const ChunkSize: nat := 10

  function Flatten<T>(xss: seq<seq<T>>): seq<T>
  {
    if xss == [] then [] else xss[0] + Flatten(xss[1..])
  }

  /** Flattening one more slice appends it. */
  lemma {:induction false} FlattenSnoc<T>(xss: seq<seq<T>>, xs: seq<T>)
    ensures Flatten(xss + [xs]) == Flatten(xss) + xs
    decreases |xss|
  {
    if xss == [] {
      assert xss + [xs] == [xs];
      assert Flatten([xs]) == xs + Flatten([xs][1..]);
    } else {
      assert (xss + [xs])[1..] == xss[1..] + [xs];
      FlattenSnoc(xss[1..], xs);
      assert xss[0] + (Flatten(xss[1..]) + xs) == (xss[0] + Flatten(xss[1..])) + xs;
    }
  }

  /** The slices `xs[i:i + n]` for `i` in `range(0, len(xs), n)`. */
  function Chunks<T>(xs: seq<T>, n: nat): (r: seq<seq<T>>)
    requires n > 0
    ensures Flatten(r) == xs
    ensures forall k :: 0 <= k < |r| ==> 1 <= |r[k]| <= n
    ensures forall k :: 0 <= k < |r| - 1 ==> |r[k]| == n
    decreases |xs|
  {
    if xs == [] then []
    else
      var m := Min(n, |xs|);
      [xs[..m]] + Chunks(xs[m..], n)
  }

  /** There are ceil(|xs| / 10) chunks, none for an empty list. */
  lemma {:induction false} ChunkCount<T>(xs: seq<T>)
    ensures |Chunks(xs, ChunkSize)| == (|xs| + ChunkSize - 1) / ChunkSize
    decreases |xs|
  {
    if |xs| > ChunkSize {
      ChunkCount(xs[ChunkSize..]);
    }
  }

  /** A slice of a suffix is the slice of the whole, shifted. */
  lemma SliceOfSuffix<T>(xs: seq<T>, d: nat, lo: nat, hi: nat)
    requires d <= |xs| && lo <= hi <= |xs| - d
    ensures xs[d..][lo..hi] == xs[d + lo..d + hi]
  {
  }

  /** Chunk `k` is exactly the slice `xs[10*k:10*k + 10]` the range loop takes. */
  lemma {:induction false} ChunkAt<T>(xs: seq<T>, k: nat)
    requires k * ChunkSize < |xs|
    ensures k < |Chunks(xs, ChunkSize)|
    ensures Chunks(xs, ChunkSize)[k] == xs[k * ChunkSize..Min(k * ChunkSize + ChunkSize, |xs|)]
    decreases k
  {
    var c := Chunks(xs, ChunkSize);
    if k == 0 {
      assert c[0] == xs[..Min(ChunkSize, |xs|)];
    } else {
      var lo := (k - 1) * ChunkSize;
      assert lo + ChunkSize == k * ChunkSize;
      var rest := xs[ChunkSize..];
      var hi := Min(lo + ChunkSize, |rest|);
      assert hi + ChunkSize == Min(k * ChunkSize + ChunkSize, |xs|);
      assert c == [xs[..ChunkSize]] + Chunks(rest, ChunkSize);
      ChunkAt(rest, k - 1);
      assert c[k] == Chunks(rest, ChunkSize)[k - 1];
      SliceOfSuffix(xs, ChunkSize, lo, hi);
    }
  }

  /** Once `10*k` reaches the length, the range loop has visited every chunk. */
  lemma {:induction false} ChunksEnd<T>(xs: seq<T>, k: nat)
    requires k * ChunkSize >= |xs|
    ensures |Chunks(xs, ChunkSize)| <= k
    decreases k
  {
    if |xs| > ChunkSize {
      ChunksEnd(xs[ChunkSize..], k - 1);
    }
  }
}
