/**
  Fixed-size chunking of a knowledge-base file: the list comprehension
  `[content[i:i + CHUNK_SIZE] for i in range(0, len(content), CHUNK_SIZE)]`.
*/
module Chunking {

  /** `CHUNK_SIZE`. */
  const ChunkSize: nat := 300

  function Min(a: int, b: int): int {
    if a <= b then a else b
  }

  /** `len(range(0, n, ChunkSize))`: the number of chunk start offsets below `n`. */
  function StartCount(n: nat): nat {
    (n + ChunkSize - 1) / ChunkSize
  }

  /** The chunks of `content`: chunk `k` is the Python slice `content[300k:300k + 300]`. */
  function Chunks(content: string): (chunks: seq<string>)
    ensures forall k :: 0 <= k < |chunks| ==> 0 < |chunks[k]| <= ChunkSize
    ensures forall k :: 0 <= k < |chunks| - 1 ==> |chunks[k]| == ChunkSize
  {
    seq(StartCount(|content|), k requires 0 <= k < StartCount(|content|) =>
      content[k * ChunkSize..Min(k * ChunkSize + ChunkSize, |content|)])
  }

  /** The chunks laid end to end. */
  function Concat(chunks: seq<string>): string {
    if chunks == [] then [] else chunks[0] + Concat(chunks[1..])
  }

  /**
    A file of length L gives ceil(L / 300) chunks: enough chunks to cover the
    file, one fewer would not, and none for an empty file.
  */
  lemma ChunkCountIsCeiling(content: string)
    ensures |Chunks(content)| * ChunkSize >= |content|
    ensures |Chunks(content)| > 0 ==> (|Chunks(content)| - 1) * ChunkSize < |content|
    ensures |content| == 0 <==> Chunks(content) == []
  {
  }

  /** The first chunk, then the chunks of the rest. */
  lemma ChunksUnfold(content: string)
    requires content != []
    ensures var head := Min(ChunkSize, |content|);
      Chunks(content) == [content[..head]] + Chunks(content[head..])
  {
    var head := Min(ChunkSize, |content|);
    var rest := content[head..];
    var chunks, tail := Chunks(content), Chunks(rest);
    assert StartCount(|content|) == 1 + StartCount(|rest|);
    forall k | 0 <= k < |tail| ensures tail[k] == chunks[k + 1] {
      assert (k + 1) * ChunkSize == k * ChunkSize + head;
      assert rest[k * ChunkSize..Min(k * ChunkSize + ChunkSize, |rest|)]
          == content[(k + 1) * ChunkSize..Min((k + 1) * ChunkSize + ChunkSize, |content|)];
    }
    assert chunks == [chunks[0]] + tail;
  }

  /** Concatenating the chunks of a file reproduces its content exactly. */
  lemma {:induction false} ChunksConcat(content: string)
    ensures Concat(Chunks(content)) == content
    decreases |content|
  {
    if content != [] {
      var head := Min(ChunkSize, |content|);
      ChunksUnfold(content);
      ChunksConcat(content[head..]);
      assert content[..head] + content[head..] == content;
    }
  }
}
