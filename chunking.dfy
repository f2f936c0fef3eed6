/**
 * The URL chunking both desktop planners apply before handing URLs to browser
 * workers: `[xs[i:i + size] for i in range(0, len(xs), size)]`.
 */
module Chunking {
  import opened Common
  import GetChunks

  function Min(a: int, b: int): int {
    if a <= b then a else b
  }

  /** The chunks of a positive size, taken from the front. */
  function Chunks<T>(xs: seq<T>, size: int): (r: seq<seq<T>>)
    requires size > 0
    ensures forall k :: 0 <= k < |r| ==> 0 < |r[k]| <= size
    decreases |xs|
  {
    if |xs| == 0 then []
    else if |xs| <= size then [xs]
    else [xs[..size]] + Chunks(xs[size..], size)
  }

  /**
   * The comprehension itself: a zero step makes `range` raise ValueError, and a
   * negative one gives no offsets at all.
   */
  function SliceChunks<T>(xs: seq<T>, size: int): (r: Result<seq<seq<T>>>)
    ensures r.Err? <==> size == 0
    ensures size < 0 ==> r == Ok([])
  {
    if size == 0 then Err("ValueError: range() arg 3 must not be zero")
    else if size < 0 then Ok([])
    else Ok(Chunks(xs, size))
  }

  /** Concatenating the chunks gives back the list. */
  lemma {:induction false} ChunksFlatten<T>(xs: seq<T>, size: int)
    requires size > 0
    ensures Flatten(Chunks(xs, size)) == xs
    decreases |xs|
  {
    if |xs| > size {
      ChunksFlatten(xs[size..], size);
      assert xs[..size] + xs[size..] == xs;
    } else if |xs| > 0 {
      assert Chunks(xs, size)[1..] == [];
    }
  }

  /** Every chunk but the last has exactly `size` elements. */
  lemma {:induction false} ChunksFull<T>(xs: seq<T>, size: int)
    requires size > 0
    ensures forall k :: 0 <= k < |Chunks(xs, size)| - 1 ==> |Chunks(xs, size)[k]| == size
    decreases |xs|
  {
    if |xs| > size {
      ChunksFull(xs[size..], size);
    }
  }

  /** Chunk k is the slice `xs[k*size : k*size + size]`, and it starts inside the list. */
  lemma {:induction false} ChunksAt<T>(xs: seq<T>, size: int, k: nat)
    requires size > 0 && k < |Chunks(xs, size)|
    ensures k * size < |xs| && Chunks(xs, size)[k] == xs[k * size .. Min(k * size + size, |xs|)]
    decreases k
  {
    if k > 0 {
      var rest := xs[size..];
      ChunksAt(rest, size, k - 1);
      GetChunks.Distrib(k - 1, size);
      var lo := (k - 1) * size;
      var hi := Min(lo + size, |rest|);
      assert lo + size == k * size;
      assert hi + size == Min(k * size + size, |xs|);
      assert rest[lo..hi] == xs[lo + size .. hi + size];
    }
  }

  /** There are ⌈|xs|/size⌉ chunks, stated without division. */
  lemma {:induction false} ChunksCount<T>(xs: seq<T>, size: int)
    requires size > 0 && |xs| > 0
    ensures (|Chunks(xs, size)| - 1) * size < |xs| <= |Chunks(xs, size)| * size
    decreases |xs|
  {
    if |xs| > size {
      ChunksCount(xs[size..], size);
      var m := |Chunks(xs[size..], size)|;
      GetChunks.Distrib(m - 1, size);
      GetChunks.Distrib(m, size);
    }
  }

  /** There is one chunk per offset of `range(0, len(xs), size)`. */
  lemma ChunksPerOffset<T>(xs: seq<T>, size: int)
    requires size > 0
    ensures |Chunks(xs, size)| == |GetChunks.Range(0, |xs|, size)|
  {
    if |xs| > 0 {
      ChunksCount(xs, size);
      GetChunks.RangeLength(0, |xs|, size);
      SameCeiling(|Chunks(xs, size)|, |GetChunks.Range(0, |xs|, size)|, |xs|, size);
    }
  }

  /** Chunk k is the slice of the comprehension that starts at offset k of the range. */
  lemma ChunksMatchOffsets<T>(xs: seq<T>, size: int)
    requires size > 0
    ensures var offsets := GetChunks.Range(0, |xs|, size);
      |Chunks(xs, size)| == |offsets|
      && (forall k :: 0 <= k < |offsets| ==> 0 <= offsets[k] < |xs|)
      && forall k :: 0 <= k < |offsets| ==> Chunks(xs, size)[k] == xs[offsets[k] .. Min(offsets[k] + size, |xs|)]
  {
    ChunksPerOffset(xs, size);
    var offsets := GetChunks.Range(0, |xs|, size);
    forall k | 0 <= k < |offsets| ensures 0 <= offsets[k] < |xs| && Chunks(xs, size)[k] == xs[offsets[k] .. Min(offsets[k] + size, |xs|)] {
      ChunkAtOffset(xs, size, k);
    }
  }

  lemma ChunkAtOffset<T>(xs: seq<T>, size: int, k: nat)
    requires size > 0 && k < |GetChunks.Range(0, |xs|, size)| == |Chunks(xs, size)|
    ensures var o := GetChunks.Range(0, |xs|, size)[k];
      0 <= o < |xs| && Chunks(xs, size)[k] == xs[o .. Min(o + size, |xs|)]
  {
    GetChunks.RangeElements(0, |xs|, size);
    ChunksAt(xs, size, k);
    GetChunks.MulMono(0, k, size);
  }

  /** Two counts that both satisfy (m-1)·d < n ≤ m·d are equal. */
  lemma SameCeiling(m1: int, m2: int, n: int, d: int)
    requires d > 0
    requires (m1 - 1) * d < n <= m1 * d
    requires (m2 - 1) * d < n <= m2 * d
    ensures m1 == m2
  {
    if m1 < m2 {
      GetChunks.MulMono(m1, m2 - 1, d);
    } else if m2 < m1 {
      GetChunks.MulMono(m2, m1 - 1, d);
    }
  }

  /** `chunk * n`: Python list repetition (empty for n ≤ 0). */
  function Repeated<T>(xs: seq<T>, n: int): (r: seq<T>)
    ensures |r| == if n <= 0 then 0 else n * |xs|
    decreases n
  {
    if n <= 0 then [] else Repeated(xs, n - 1) + xs
  }

  /** Element i of a repetition is element i mod |xs| of the list. */
  lemma {:induction false} RepeatedAt<T>(xs: seq<T>, n: int, i: nat)
    requires i < |Repeated(xs, n)|
    ensures |xs| > 0 && Repeated(xs, n)[i] == xs[i % |xs|]
    decreases n
  {
    var prev := Repeated(xs, n - 1);
    if i < |prev| {
      RepeatedAt(xs, n - 1, i);
    } else {
      assert |prev| == (n - 1) * |xs|;
      GetChunks.QuotientUnique(n - 1, i, |xs|);
      GetChunks.DivMod(i, |xs|);
    }
  }
}
