/** A chunked HDF5 dataset as the sequence of its chunks, in the order
    `iter_chunks()` hands them out; the dataset's elements are their concatenation. */
module Chunks {

  /** All elements of the dataset, chunk after chunk. */
  function Flatten<T>(chunks: seq<seq<T>>): seq<T>
  {
    if chunks == [] then [] else Flatten(chunks[..|chunks| - 1]) + chunks[|chunks| - 1]
  }

  /** Global index of the first element of chunk `k`: the total size of the chunks before it. */
  function Offset<T>(chunks: seq<seq<T>>, k: nat): nat
    requires k <= |chunks|
  {
    if k == 0 then 0 else Offset(chunks, k - 1) + |chunks[k - 1]|
  }

  /** The dataset's length (`Dataset.len()`). */
  function Total<T>(chunks: seq<seq<T>>): nat
  {
    Offset(chunks, |chunks|)
  }

  /** Python's `s[a:b]` for non-negative bounds: both ends are clipped to the length. */
  function PySlice<T>(s: seq<T>, a: nat, b: nat): (r: seq<T>)
    ensures a <= b <= |s| ==> r == s[a..b]
    ensures |s| <= a ==> r == []
  {
    var hi := if b < |s| then b else |s|;
    var lo := if a < hi then a else hi;
    s[lo..hi]
  }

  /** Splitting the chunk list splits the elements. */
  lemma {:induction false} FlattenSplit<T>(chunks: seq<seq<T>>, k: nat)
    requires k <= |chunks|
    ensures Flatten(chunks) == Flatten(chunks[..k]) + Flatten(chunks[k..])
    decreases |chunks|
  {
    if k < |chunks| {
      var n := |chunks|;
      var front := chunks[..n - 1];
      assert front[..k] == chunks[..k];
      FlattenSplit(front, k);
      assert chunks[k..][..|chunks[k..]| - 1] == front[k..];
      assert Flatten(chunks[k..]) == Flatten(front[k..]) + chunks[n - 1];
    } else {
      assert chunks[..k] == chunks;
      assert chunks[k..] == [];
    }
  }

  /** The chunks before chunk `k` flatten to `Offset(k)` elements. */
  lemma {:induction false} OffsetPrefix<T>(chunks: seq<seq<T>>, k: nat)
    requires k <= |chunks|
    ensures |Flatten(chunks[..k])| == Offset(chunks, k)
  {
    if k == 0 {
      assert chunks[..k] == [];
    } else {
      assert chunks[..k][..k - 1] == chunks[..k - 1];
      OffsetPrefix(chunks, k - 1);
    }
  }

  /** Offsets only grow along the chunk list. */
  lemma {:induction false} OffsetMonotone<T>(chunks: seq<seq<T>>, k: nat, j: nat)
    requires k <= j <= |chunks|
    ensures Offset(chunks, k) <= Offset(chunks, j)
    decreases j
  {
    if k < j {
      OffsetMonotone(chunks, k, j - 1);
    }
  }

  /** The dataset's length is the number of its elements. */
  lemma TotalLength<T>(chunks: seq<seq<T>>)
    ensures Total(chunks) == |Flatten(chunks)|
  {
    assert chunks[..|chunks|] == chunks;
    OffsetPrefix(chunks, |chunks|);
  }

  /** Chunk `k` ends where chunk `k + 1` starts, within the dataset. */
  lemma OffsetStep<T>(chunks: seq<seq<T>>, k: nat)
    requires k < |chunks|
    ensures Offset(chunks, k + 1) == Offset(chunks, k) + |chunks[k]| <= Total(chunks)
  {
    OffsetMonotone(chunks, k + 1, |chunks|);
  }

  /** Chunk `k` occupies `[Offset(k), Offset(k + 1))` of the dataset. */
  lemma ChunkPlacement<T>(chunks: seq<seq<T>>, k: nat)
    requires k < |chunks|
    ensures Offset(chunks, k + 1) == Offset(chunks, k) + |chunks[k]| <= |Flatten(chunks)|
    ensures Flatten(chunks)[Offset(chunks, k)..Offset(chunks, k + 1)] == chunks[k]
  {
    assert chunks[..k + 1][..k] == chunks[..k];
    assert Flatten(chunks[..k + 1]) == Flatten(chunks[..k]) + chunks[k];
    OffsetPrefix(chunks, k);
    OffsetStep(chunks, k);
    TotalLength(chunks);
    FlattenSplit(chunks, k + 1);
  }

  /** Two adjacent slices make up the slice that spans them. */
  lemma AdjacentSlices<T>(s: seq<T>, a: nat, b: nat, c: nat)
    requires a <= b <= c <= |s|
    ensures s[a..b] + s[b..c] == s[a..c]
  {
  }

  /** Appending two adjacent slices, one after the other, to what has been
      read so far appends the slice that spans them. */
  lemma AppendAdjacent<T>(s: seq<T>, acc: seq<T>, a: nat, b: nat, c: nat)
    requires a <= b <= c <= |s|
    ensures (acc + s[a..b]) + s[b..c] == acc + s[a..c]
  {
    AdjacentSlices(s, a, b, c);
  }

  /** A slice of a slice is a slice of the whole. */
  lemma SliceSlice<T>(s: seq<T>, a: nat, b: nat, i: nat, j: nat)
    requires a <= b <= |s| && i <= j <= b - a
    ensures s[a..b][i..j] == s[a + i..a + j]
  {
    var t := s[a..b];
    assert |t[i..j]| == |s[a + i..a + j]|;
    forall k | 0 <= k < j - i
      ensures t[i..j][k] == s[a + i..a + j][k]
    {
      assert t[i..j][k] == t[i + k] == s[a + i + k];
    }
  }

  /** Chunk `k` is the stretch `[Offset(k), Offset(k + 1))` of `elements`. */
  ghost predicate Placed<T>(chunks: seq<seq<T>>, elements: seq<T>, k: int)
    requires 0 <= k < |chunks|
  {
    Offset(chunks, k + 1) <= |elements| && elements[Offset(chunks, k)..Offset(chunks, k + 1)] == chunks[k]
  }

  /** `elements` is the chunks laid end to end. */
  ghost predicate Layout<T>(chunks: seq<seq<T>>, elements: seq<T>)
  {
    && Total(chunks) == |elements|
    && forall k :: 0 <= k < |chunks| ==> Placed(chunks, elements, k)
  }

  /** The concatenation of the chunks is laid out chunk after chunk. */
  lemma FlattenLayout<T>(chunks: seq<seq<T>>)
    ensures Layout(chunks, Flatten(chunks))
  {
    TotalLength(chunks);
    forall k | 0 <= k < |chunks|
      ensures Placed(chunks, Flatten(chunks), k)
    {
      ChunkPlacement(chunks, k);
    }
  }
}
