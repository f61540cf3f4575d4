/**
 * Splitting an ordered sequence into consecutive chunks of a bounded size.
 * The frontend's `chunkArray` and the backend's `range(0, n, 1000)` slicing
 * both produce exactly this partition.
 */
module Partition {
  import opened Shared

  /** The chunks of `s`, each `size` long except possibly the last, in order. */
  function Chunks<T>(s: seq<T>, size: nat): seq<seq<T>>
    requires size >= 1
    decreases |s|
  {
    if |s| == 0 then []
    else
      var k := Min(size, |s|);
      [s[..k]] + Chunks(s[k..], size)
  }

  /** Concatenation of a sequence of sequences, in order. */
  function Flatten<T>(ss: seq<seq<T>>): seq<T>
  {
    if |ss| == 0 then [] else ss[0] + Flatten(ss[1..])
  }

  /** One step of a loop that slices from index `i` onward. */
  lemma ChunksFrom<T>(s: seq<T>, size: nat, i: nat)
    requires size >= 1 && i < |s|
    ensures Chunks(s[i..], size) == [s[i..Min(i + size, |s|)]] + Chunks(s[Min(i + size, |s|)..], size)
  {
    var k := Min(size, |s| - i);
    assert s[i..][..k] == s[i..Min(i + size, |s|)];
    assert s[i..][k..] == s[Min(i + size, |s|)..];
  }

  /** Concatenating the chunks in order gives back the input. */
  lemma {:induction false} FlattenChunks<T>(s: seq<T>, size: nat)
    requires size >= 1
    ensures Flatten(Chunks(s, size)) == s
    decreases |s|
  {
    if |s| > 0 {
      var k := Min(size, |s|);
      FlattenChunks(s[k..], size);
      assert Chunks(s, size)[1..] == Chunks(s[k..], size);
      assert s[..k] + s[k..] == s;
    }
  }

  /** Every chunk is non-empty and at most `size` long; all but the last are exactly `size` long. */
  lemma {:induction false} ChunkSizes<T>(s: seq<T>, size: nat)
    requires size >= 1
    ensures forall j :: 0 <= j < |Chunks(s, size)| ==> 1 <= |Chunks(s, size)[j]| <= size
    ensures forall j :: 0 <= j < |Chunks(s, size)| - 1 ==> |Chunks(s, size)[j]| == size
    decreases |s|
  {
    if |s| > 0 {
      var k := Min(size, |s|);
      ChunkSizes(s[k..], size);
      var c := Chunks(s, size);
      assert c[1..] == Chunks(s[k..], size);
      forall j | 1 <= j < |c| ensures c[j] == Chunks(s[k..], size)[j - 1] { }
      if |c| > 1 {
        assert |s[k..]| > 0;
        assert k == size;
      }
    }
  }

  /** There are exactly ceil(|s| / size) chunks. */
  lemma {:induction false} ChunkCount<T>(s: seq<T>, size: nat)
    requires size >= 1
    ensures |Chunks(s, size)| == (|s| + size - 1) / size
    decreases |s|
  {
    if |s| > 0 {
      var k := Min(size, |s|);
      ChunkCount(s[k..], size);
      if |s| <= size {
        DivOne(|s| + size - 1, size);
      } else {
        DivShift(|s| - size + size - 1, size);
      }
    }
  }

  lemma DivOne(x: int, d: int)
    requires d >= 1 && d <= x < 2 * d
    ensures x / d == 1
  {
    DivUnique(x, d, 1, x - d);
  }

  lemma DivShift(x: int, d: int)
    requires d >= 1 && x >= 0
    ensures (x + d) / d == x / d + 1
  {
    var q, r := x / d, x % d;
    assert x == q * d + r;
    assert x + d == (q + 1) * d + r;
    DivUnique(x + d, d, q + 1, r);
  }

  /** Euclidean division has a unique quotient. */
  lemma DivUnique(x: int, d: int, q: int, r: int)
    requires d >= 1 && 0 <= r < d && x == q * d + r
    ensures x / d == q
  {
    var q', r' := x / d, x % d;
    assert x == q' * d + r';
    MulSub(q, q', d);
    if q > q' {
      MulAtLeast(q - q', d);
    } else if q < q' {
      MulSub(q', q, d);
      MulAtLeast(q' - q, d);
    }
  }

  lemma MulSub(a: int, b: int, d: int)
    ensures (a - b) * d == a * d - b * d
  {
  }

  lemma MulAtLeast(a: int, d: int)
    requires a >= 1 && d >= 1
    ensures a * d >= d
  {
  }

  /** Chunk `j` is the slice `[j * size, (j + 1) * size)` of the input, clipped to its end. */
  lemma {:induction false} ChunkAt<T>(s: seq<T>, size: nat, j: nat)
    requires size >= 1 && j < |Chunks(s, size)|
    ensures j * size < |s|
    ensures Chunks(s, size)[j] == s[j * size..Min((j + 1) * size, |s|)]
    decreases |s|
  {
    var k := Min(size, |s|);
    if j > 0 {
      var rest := s[k..];
      assert Chunks(s, size)[j] == Chunks(rest, size)[j - 1];
      ChunkAt(rest, size, j - 1);
      var lo, hi := (j - 1) * size, j * size;
      MulSucc(j - 1, size);
      MulSucc(j, size);
      SliceOfSuffix(s, size, lo, hi);
    }
  }

  /** A slice of the suffix after the first `size` elements, read back in `s`. */
  lemma SliceOfSuffix<T>(s: seq<T>, size: nat, lo: nat, hi: nat)
    requires size <= |s| && lo + size == hi && lo <= |s| - size
    ensures s[size..][lo..Min(hi, |s| - size)] == s[hi..Min(hi + size, |s|)]
  {
  }

  lemma MulSucc(a: int, d: int)
    ensures a * d + d == (a + 1) * d
  {
  }

  /** Flatten distributes over concatenation. */
  lemma {:induction false} FlattenAppend<T>(a: seq<seq<T>>, b: seq<seq<T>>)
    ensures Flatten(a + b) == Flatten(a) + Flatten(b)
    decreases |a|
  {
    if |a| == 0 {
      assert a + b == b;
    } else {
      FlattenAppend(a[1..], b);
      assert (a + b)[0] == a[0];
      assert (a + b)[1..] == a[1..] + b;
    }
  }
}
