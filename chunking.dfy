/** The chunking loop both JDBC repositories share: `saveBatch` on the
    sublists `[i, min(i + chunkSize, n))` for `i = 0, chunkSize, ...`. */
module Chunking {
  import opened JavaLang

  /** How a call of `saveBatchWithChunking` ends: it returns, it throws, or,
      for a chunk size of 0, it saves the same empty chunk forever. */
  datatype ChunkedRun = Finished | Failed(error: Exception) | Diverges

  /** The lists of `ss` one after another. */
  function Flatten<T>(ss: seq<seq<T>>): (r: seq<T>)
    decreases |ss|
  {
    if ss == [] then [] else ss[0] + Flatten(ss[1..])
  }

  /** Flattening one more list appends it. */
  lemma {:induction false} FlattenSnoc<T>(ss: seq<seq<T>>, x: seq<T>)
    ensures Flatten(ss + [x]) == Flatten(ss) + x
    decreases |ss|
  {
    if ss == [] {
      assert [x][1..] == [];
    } else {
      assert (ss + [x])[1..] == ss[1..] + [x];
      FlattenSnoc(ss[1..], x);
    }
  }

  /** The consecutive sublists of `s` of length `size`, the last one
      possibly shorter; none for an empty `s`. */
  function Chunks<T>(s: seq<T>, size: nat): (r: seq<seq<T>>)
    requires size > 0
    ensures s == [] <==> r == []
    decreases |s|
  {
    if s == [] then []
    else if |s| <= size then [s]
    else [s[..size]] + Chunks(s[size..], size)
  }

  lemma {:induction false} ChunksPartition<T>(s: seq<T>, size: nat)
    requires size > 0
    ensures Flatten(Chunks(s, size)) == s
    ensures forall k :: 0 <= k < |Chunks(s, size)| ==> 0 < |Chunks(s, size)[k]| <= size
    ensures forall k :: 0 <= k < |Chunks(s, size)| - 1 ==> |Chunks(s, size)[k]| == size
    decreases |s|
  {
    if s != [] && |s| > size {
      ChunksPartition(s[size..], size);
      assert s[..size] + s[size..] == s;
      var r := Chunks(s, size);
      assert r[1..] == Chunks(s[size..], size);
      assert Flatten(r) == r[0] + Flatten(r[1..]);
    }
  }

  /** The first chunk of `s[i..]` ends at `min(i + size, |s|)`, and the
      others are the chunks of what follows it. */
  lemma ChunksStep<T>(s: seq<T>, size: nat, i: nat)
    requires size > 0 && i < |s|
    ensures Chunks(s[i..], size) == [s[i..Min(i + size, |s|)]] + Chunks(s[Min(i + size, |s|)..], size)
  {
    var end := Min(i + size, |s|);
    if |s[i..]| <= size {
      assert s[i..end] == s[i..];
      assert s[end..] == [];
    } else {
      assert s[i..][..size] == s[i..end];
      assert s[i..][size..] == s[end..];
    }
  }

  /** The chunk after the first `k` of them starts at `p` and ends at
      `min(p + size, |s|)`. */
  lemma ChunkAdvance<T>(s: seq<T>, size: nat, chunks: seq<seq<T>>, k: nat, p: nat)
    requires size > 0 && p < |s| && k <= |chunks| && chunks[k..] == Chunks(s[p..], size)
    ensures k < |chunks| && chunks[k] == s[p..Min(p + size, |s|)]
    ensures chunks[k + 1..] == Chunks(s[Min(p + size, |s|)..], size)
    ensures chunks[..k + 1] == chunks[..k] + [s[p..Min(p + size, |s|)]]
  {
    ChunksStep(s, size, p);
    assert chunks[k..][1..] == chunks[k + 1..];
  }
}
