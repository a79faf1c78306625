/** `chunkArray`: splitting a sequence into consecutive batches of at most
    `size` elements, the way `Array.from({length: ceil(n / size)}, ...)` with
    `slice` builds them. */
module Chunking {
  import opened JsValues

  /** The batch size every caller of `chunkArray` passes: the destination API's
      limit on records per create call. */
  const BatchSize: nat := 200

  function Min(a: int, b: int): int {
    if a <= b then a else b
  }

  /** Where the `i`-th chunk starts. */
  function Offset(i: nat, size: nat): nat {
    i * size
  }

  lemma MulMono(i: nat, j: nat, size: nat)
    requires i <= j
    ensures i * size <= j * size
  {
  }

  /** `Math.ceil(n / size)`: the least number of chunks of `size` that cover `n`. */
  function CeilDiv(n: nat, size: nat): (k: nat)
    requires size > 0
    ensures k * size >= n
    ensures k > 0 ==> (k - 1) * size < n
  {
    var q := (n + size - 1) / size;
    assert q * size + (n + size - 1) % size == n + size - 1;
    assert q > 0 ==> (q - 1) * size == q * size - size;
    q
  }

  /** The two bounds of CeilDiv determine it. */
  lemma CeilDivUnique(n: nat, size: nat, k: nat)
    requires size > 0
    requires k * size >= n
    requires k > 0 ==> (k - 1) * size < n
    ensures k == CeilDiv(n, size)
  {
    var c := CeilDiv(n, size);
    if k < c {
      MulMono(k, c - 1, size);
    } else if k > c {
      MulMono(c, k - 1, size);
    }
  }

  lemma OffsetBounds(n: nat, size: nat)
    requires size > 0
    ensures forall i: nat :: i < CeilDiv(n, size) ==> Offset(i, size) < n
    ensures forall i: nat :: i + 1 < CeilDiv(n, size) ==> Offset(i, size) + size < n
    ensures forall i: nat :: Offset(i + 1, size) == Offset(i, size) + size
  {
    var k := CeilDiv(n, size);
    forall i: nat | i < k
      ensures Offset(i, size) < n
    {
      MulMono(i, k - 1, size);
    }
    forall i: nat | i + 1 < k
      ensures Offset(i, size) + size < n
    {
      MulMono(i + 1, k - 1, size);
      assert (i + 1) * size == i * size + size;
    }
    forall i: nat
      ensures Offset(i + 1, size) == Offset(i, size) + size
    {
      assert (i + 1) * size == i * size + size;
    }
  }

  /** `chunkArray(a, size)` for a positive size: chunk `i` is
      `a.slice(i * size, i * size + size)`. */
  function Chunks<T>(a: seq<T>, size: nat): (r: seq<seq<T>>)
    requires size > 0
    ensures |r| * size >= |a|
    ensures |r| > 0 ==> (|r| - 1) * size < |a|
    ensures forall i :: 0 <= i < |r| ==> 0 < |r[i]| <= size
    ensures forall i :: 0 <= i < |r| - 1 ==> |r[i]| == size
  {
    var k := CeilDiv(|a|, size);
    OffsetBounds(|a|, size);
    seq(k, i requires 0 <= i < k => a[Offset(i, size) .. Min(Offset(i, size) + size, |a|)])
  }

  /** `chunkArray(a, size)` for every integer size. A zero size asks for an
      array of infinite length, which throws a RangeError unless `a` is empty;
      a negative size yields no chunks. */
  function ChunkArray<T>(a: seq<T>, size: int): (r: Option<seq<seq<T>>>)
    ensures r.None? <==> size == 0 && |a| > 0
    ensures size > 0 ==> r == Some(Chunks(a, size))
    ensures size <= 0 && r.Some? ==> r.value == []
  {
    if size > 0 then Some(Chunks(a, size))
    else if size == 0 && |a| > 0 then None
    else Some([])
  }

  /** Concatenation of a sequence of sequences, in order. */
  function Flatten<T>(ss: seq<seq<T>>): seq<T> {
    if ss == [] then [] else ss[0] + Flatten(ss[1..])
  }

  lemma {:induction false} FlattenConcat<T>(a: seq<seq<T>>, b: seq<seq<T>>)
    ensures Flatten(a + b) == Flatten(a) + Flatten(b)
    decreases |a|
  {
    if a == [] {
      assert a + b == b;
    } else {
      assert (a + b)[1..] == a[1..] + b;
      FlattenConcat(a[1..], b);
    }
  }

  /** Cutting off the first chunk leaves one chunk fewer. */
  lemma CeilDivCons(n: nat, size: nat)
    requires size > 0 && n > 0
    ensures CeilDiv(n, size) == CeilDiv(n - Min(size, n), size) + 1
  {
    var k' := CeilDiv(n - Min(size, n), size);
    if n <= size {
      CeilDivUnique(n, size, 1);
    } else {
      assert (k' + 1) * size == k' * size + size;
      assert k' > 0 ==> (k' - 1) * size + size == k' * size;
      CeilDivUnique(n, size, k' + 1);
    }
  }

  /** Chunk `i` of `a` is chunk `i - 1` of what follows the first chunk. */
  lemma ChunkShift<T>(a: seq<T>, size: nat, i: nat)
    requires size > 0 && |a| > size
    requires 0 < i < |Chunks(a, size)| && i - 1 < |Chunks(a[size..], size)|
    ensures Chunks(a, size)[i] == Chunks(a[size..], size)[i - 1]
  {
    var rest := a[size..];
    var o := Offset(i - 1, size);
    assert Offset(i, size) == o + size by {
      assert (i - 1 + 1) * size == (i - 1) * size + size;
    }
    OffsetBounds(|rest|, size);
    CeilDivUnique(|rest|, size, |Chunks(rest, size)|);
    assert o < |rest|;
    assert Chunks(rest, size)[i - 1] == rest[o..Min(o + size, |rest|)];
    assert Chunks(a, size)[i] == a[o + size..Min(o + size + size, |a|)];
  }

  /** The first chunk is the first `size` elements; the rest are the chunks
      of what follows them. */
  lemma ChunksCons<T>(a: seq<T>, size: nat)
    requires size > 0 && |a| > 0
    ensures Chunks(a, size) == [a[..Min(size, |a|)]] + Chunks(a[Min(size, |a|)..], size)
  {
    var m := Min(size, |a|);
    var rest := a[m..];
    CeilDivUnique(|a|, size, |Chunks(a, size)|);
    CeilDivUnique(|rest|, size, |Chunks(rest, size)|);
    CeilDivCons(|a|, size);
    var lhs := Chunks(a, size);
    var rhs := [a[..m]] + Chunks(rest, size);
    assert |lhs| == |rhs|;
    assert lhs[0] == a[..m] by {
      assert Offset(0, size) == 0;
    }
    forall i | 0 < i < |lhs|
      ensures lhs[i] == rhs[i]
    {
      MulMono(1, |lhs| - 1, size);
      ChunkShift(a, size, i);
    }
  }

  /** Concatenating the chunks gives back the input, in order. */
  lemma {:induction false} FlattenChunks<T>(a: seq<T>, size: nat)
    requires size > 0
    ensures Flatten(Chunks(a, size)) == a
    decreases |a|
  {
    if |a| == 0 {
      assert Chunks(a, size) == [];
    } else {
      var m := Min(size, |a|);
      ChunksCons(a, size);
      FlattenChunks(a[m..], size);
      assert a[..m] + a[m..] == a;
    }
  }

  /** When every sequence but the last has length `size` and none is longer,
      element `j` of sequence `i` sits at position `i * size + j` of the
      concatenation. */
  lemma {:induction false} FlattenAt<T>(ss: seq<seq<T>>, size: nat, i: nat, j: nat)
    requires forall n :: 0 <= n < |ss| - 1 ==> |ss[n]| == size
    requires i < |ss| && j < |ss[i]|
    ensures Offset(i, size) + j < |Flatten(ss)|
    ensures Flatten(ss)[Offset(i, size) + j] == ss[i][j]
    decreases i
  {
    if i == 0 {
      assert Offset(0, size) == 0;
    } else {
      assert |ss[0]| == size;
      FlattenAt(ss[1..], size, i - 1, j);
      assert Offset(i, size) == Offset(i - 1, size) + size by {
        assert (i - 1 + 1) * size == (i - 1) * size + size;
      }
    }
  }

  /** Five elements in chunks of two: three chunks, of sizes 2, 2 and 1. */
  lemma ChunksOfFive()
    ensures Chunks([1, 2, 3, 4, 5], 2) == [[1, 2], [3, 4], [5]]
  {
    var c := Chunks([1, 2, 3, 4, 5], 2);
    assert CeilDiv(5, 2) == 3;
    assert c[0] == [1, 2] && c[1] == [3, 4] && c[2] == [5];
  }
}
