/** Lossless chunking of memory content (src/search/chunking.ts). */
module Chunking {
  import opened Common
  import opened Unicode
  import Decimal

  const MAX_CHUNK_BYTES: nat := 4_000

  function Concat(chunks: seq<Text>): Text {
    if chunks == [] then [] else Concat(chunks[..|chunks| - 1]) + chunks[|chunks| - 1]
  }

  /** What the source promises: nothing lost, bounded, and each chunk as full as the next code point allows. */
  ghost predicate IsGreedyChunking(content: Text, chunks: seq<Text>) {
    Concat(chunks) == content && AreFull(chunks)
  }

  /** The chunks after one more code point. */
  function Append(chunks: seq<Text>, c: CodePoint): seq<Text> {
    if chunks == [] then [[c]]
    else
      var last := chunks[|chunks| - 1];
      if ByteLength(last) + Utf8ByteLength(c) > MAX_CHUNK_BYTES then chunks + [[c]]
      else chunks[..|chunks| - 1] + [last + [c]]
  }

  function Chunks(content: Text): seq<Text> {
    if content == [] then [] else Append(Chunks(content[..|content| - 1]), content[|content| - 1])
  }

  lemma {:induction false} ConcatAppend(chunks: seq<Text>, last: Text)
    ensures Concat(chunks + [last]) == Concat(chunks) + last
  {
    assert (chunks + [last])[..|chunks|] == chunks;
  }

  lemma {:induction false} ByteLengthAppend(t: Text, c: CodePoint)
    ensures ByteLength(t + [c]) == ByteLength(t) + Utf8ByteLength(c)
  {
    assert (t + [c])[..|t|] == t;
  }

  lemma {:induction false} AppendKeepsGreedy(content: Text, chunks: seq<Text>, c: CodePoint)
    requires IsGreedyChunking(content, chunks)
    ensures IsGreedyChunking(content + [c], Append(chunks, c))
  {
    if chunks == [] || ByteLength(chunks[|chunks| - 1]) + Utf8ByteLength(c) > MAX_CHUNK_BYTES {
      NewChunkKeepsGreedy(content, chunks, c);
      assert chunks == [] ==> chunks + [[c]] == [[c]];
    } else {
      ExtendLastKeepsGreedy(content, chunks, c);
    }
  }

  lemma {:induction false} SingleLength(c: CodePoint)
    ensures ByteLength([c]) == Utf8ByteLength(c)
  {
    ByteLengthAppend([], c);
    assert [] + [c] == [c];
  }

  lemma {:induction false} NewChunkIsSmall(chunks: seq<Text>, c: CodePoint)
    requires forall i :: 0 <= i < |chunks| ==> chunks[i] != [] && ByteLength(chunks[i]) <= MAX_CHUNK_BYTES
    ensures var after := chunks + [[c]];
      forall i :: 0 <= i < |after| ==> after[i] != [] && ByteLength(after[i]) <= MAX_CHUNK_BYTES
  {
    SingleLength(c);
  }

  lemma {:induction false} NewChunkIsFull(chunks: seq<Text>, c: CodePoint, i: nat)
    requires 0 < i <= |chunks| && forall k :: 0 <= k < |chunks| ==> chunks[k] != []
    requires i < |chunks| ==> ByteLength(chunks[i - 1]) + Utf8ByteLength(chunks[i][0]) > MAX_CHUNK_BYTES
    requires i == |chunks| ==> ByteLength(chunks[i - 1]) + Utf8ByteLength(c) > MAX_CHUNK_BYTES
    ensures ByteLength((chunks + [[c]])[i - 1]) + Utf8ByteLength((chunks + [[c]])[i][0]) > MAX_CHUNK_BYTES
  {
  }

  lemma {:induction false} NewChunkKeepsGreedy(content: Text, chunks: seq<Text>, c: CodePoint)
    requires IsGreedyChunking(content, chunks)
    requires chunks != [] ==> ByteLength(chunks[|chunks| - 1]) + Utf8ByteLength(c) > MAX_CHUNK_BYTES
    ensures IsGreedyChunking(content + [c], chunks + [[c]])
  {
    var after := chunks + [[c]];
    ConcatAppend(chunks, [c]);
    NewChunkIsSmall(chunks, c);
    forall i | 0 < i < |after| ensures ByteLength(after[i - 1]) + Utf8ByteLength(after[i][0]) > MAX_CHUNK_BYTES {
      NewChunkIsFull(chunks, c, i);
    }
  }

  /** Each chunk is bounded and as full as the first code point of the next one allows. */
  ghost predicate AreFull(chunks: seq<Text>) {
    && (forall i :: 0 <= i < |chunks| ==> chunks[i] != [] && ByteLength(chunks[i]) <= MAX_CHUNK_BYTES)
    && (forall i :: 0 < i < |chunks| ==>
          ByteLength(chunks[i - 1]) + Utf8ByteLength(chunks[i][0]) > MAX_CHUNK_BYTES)
  }

  /** The last chunk may be another one that starts alike. */
  lemma {:induction false} OtherLastChunk(chunks: seq<Text>, last: Text)
    requires AreFull(chunks) && chunks != [] && last != [] && ByteLength(last) <= MAX_CHUNK_BYTES
    requires last[0] == chunks[|chunks| - 1][0]
    ensures AreFull(chunks[..|chunks| - 1] + [last])
  {
    var after := chunks[..|chunks| - 1] + [last];
    assert forall i :: 0 <= i < |chunks| - 1 ==> after[i] == chunks[i];
  }

  lemma {:induction false} ExtendLastKeepsGreedy(content: Text, chunks: seq<Text>, c: CodePoint)
    requires IsGreedyChunking(content, chunks) && chunks != []
    requires ByteLength(chunks[|chunks| - 1]) + Utf8ByteLength(c) <= MAX_CHUNK_BYTES
    ensures IsGreedyChunking(content + [c], chunks[..|chunks| - 1] + [chunks[|chunks| - 1] + [c]])
  {
    var front, last := chunks[..|chunks| - 1], chunks[|chunks| - 1];
    var longer := last + [c];
    var after := front + [longer];
    ConcatAppend(front, longer);
    ByteLengthAppend(last, c);
    assert Concat(front) + longer == content + [c];
    OtherLastChunk(chunks, longer);
  }

  lemma {:induction false} ChunksAreGreedy(content: Text)
    ensures IsGreedyChunking(content, Chunks(content))
    ensures content != [] ==> Chunks(content) != []
  {
    if content != [] {
      var front, c := content[..|content| - 1], content[|content| - 1];
      ChunksAreGreedy(front);
      AppendKeepsGreedy(front, Chunks(front), c);
      assert content == front + [c];
    }
  }

  /** The chunks of all but the last code point. */
  function DropLast(chunks: seq<Text>): seq<Text>
    requires chunks != [] && chunks[|chunks| - 1] != []
  {
    var front, last := chunks[..|chunks| - 1], chunks[|chunks| - 1];
    if |last| == 1 then front else front + [last[..|last| - 1]]
  }

  lemma {:induction false} DropLastKeepsGreedy(content: Text, chunks: seq<Text>)
    requires IsGreedyChunking(content, chunks) && chunks != []
    ensures content != [] && IsGreedyChunking(content[..|content| - 1], DropLast(chunks))
    ensures chunks == Append(DropLast(chunks), content[|content| - 1])
  {
    var front, last := chunks[..|chunks| - 1], chunks[|chunks| - 1];
    var rest, c := last[..|last| - 1], last[|last| - 1];
    assert last == rest + [c];
    assert content == Concat(front) + last;
    assert content[..|content| - 1] == Concat(front) + rest;
    ByteLengthAppend(rest, c);
    if |last| == 1 {
      assert rest == [];
      DroppedWhole(chunks, c);
    } else {
      DroppedPart(content, chunks, rest, c);
    }
  }

  lemma {:induction false} DroppedPart(content: Text, chunks: seq<Text>, rest: Text, c: CodePoint)
    requires IsGreedyChunking(content, chunks) && chunks != [] && chunks[|chunks| - 1] == rest + [c] && rest != []
    ensures var shorter := chunks[..|chunks| - 1] + [rest];
      IsGreedyChunking(Concat(chunks[..|chunks| - 1]) + rest, shorter) && chunks == Append(shorter, c)
  {
    var front := chunks[..|chunks| - 1];
    var shorter := front + [rest];
    ByteLengthAppend(rest, c);
    ConcatAppend(front, rest);
    OtherLastChunk(chunks, rest);
    assert shorter[..|shorter| - 1] == front;
    assert chunks == front + [rest + [c]];
  }

  /** A chunk of one code point began where the one before it was full. */
  lemma {:induction false} DroppedWhole(chunks: seq<Text>, c: CodePoint)
    requires chunks != [] && chunks[|chunks| - 1] == [c]
    requires |chunks| > 1 ==> ByteLength(chunks[|chunks| - 2]) + Utf8ByteLength(c) > MAX_CHUNK_BYTES
    ensures chunks == Append(chunks[..|chunks| - 1], c)
  {
    if |chunks| == 1 {
      assert chunks[..0] == [];
    }
  }

  /** Greedy chunkings are unique, so the properties of `IsGreedyChunking` determine the chunks. */
  lemma {:induction false} GreedyChunkingUnique(content: Text, chunks: seq<Text>)
    requires IsGreedyChunking(content, chunks)
    ensures chunks == Chunks(content)
    decreases |content|
  {
    if chunks != [] {
      DropLastKeepsGreedy(content, chunks);
      GreedyChunkingUnique(content[..|content| - 1], DropLast(chunks));
    }
  }

  /** The finished chunks and the one being filled. */
  function Flush(chunks: seq<Text>, chunk: Text): seq<Text> {
    if chunk == [] then chunks else chunks + [chunk]
  }

  lemma {:induction false} FlushAppend(chunks: seq<Text>, chunk: Text, c: CodePoint)
    requires chunk == [] ==> chunks == []
    ensures Append(Flush(chunks, chunk), c) ==
      if chunk != [] && ByteLength(chunk) + Utf8ByteLength(c) > MAX_CHUNK_BYTES
      then Flush(chunks + [chunk], [c]) else Flush(chunks, chunk + [c])
  {
    if chunk == [] {
      assert chunk + [c] == [c];
    } else {
      assert (chunks + [chunk])[..|chunks|] == chunks;
    }
  }

  lemma {:induction false} NextChunks(content: Text, k: nat)
    requires k < |content|
    ensures Chunks(content[..k + 1]) == Append(Chunks(content[..k]), content[k])
  {
    assert content[..k + 1][..k] == content[..k];
  }

  method ChunkMemoryContent(content: Text) returns (r: Result<seq<Text>>)
    ensures r.Failure? <==> content == []
    ensures r.Success? ==> r.value == Chunks(content) && IsGreedyChunking(content, r.value)
  {
    if |content| == 0 {
      return Failure;
    }
    var chunks: seq<Text> := [];
    var chunk: Text := [];
    var estimatedTokens := 0;
    for k := 0 to |content|
      invariant estimatedTokens == ByteLength(chunk)
      invariant chunk == [] ==> k == 0 && chunks == []
      invariant Chunks(content[..k]) == Flush(chunks, chunk)
    {
      var codePoint := content[k];
      var tokenCost := Utf8ByteLength(codePoint);
      NextChunks(content, k);
      FlushAppend(chunks, chunk, codePoint);
      ByteLengthAppend(chunk, codePoint);
      ByteLengthAppend([], codePoint);
      assert [] + [codePoint] == [codePoint];
      if chunk != [] && estimatedTokens + tokenCost > MAX_CHUNK_BYTES {
        chunks := chunks + [chunk];
        chunk := [];
        estimatedTokens := 0;
      }
      chunk := chunk + [codePoint];
      estimatedTokens := estimatedTokens + tokenCost;
    }
    assert content[..|content|] == content;
    if chunk != [] {
      chunks := chunks + [chunk];
    }
    ChunksAreGreedy(content);
    r := Success(chunks);
  }

  function ChunkId(index: nat): string {
    "chunk-" + Decimal.Print(index)
  }

  /** `selectAuthoritativeMemoryChunk`: recompute the chunk a recalled identifier names. */
  function SelectAuthoritativeMemoryChunk(content: Text, chunkId: string): Result<Text> {
    if !("chunk-" <= chunkId) || !Decimal.IsCanonical(chunkId[6..]) then Failure
    else
      var index := Decimal.Value(chunkId[6..]);
      if index > MAX_SAFE_INTEGER || index >= |Chunks(content)| then Failure
      else Success(Chunks(content)[index])
  }

  /** Selection answers exactly for the identifiers the projection writes, and with the chunk written. */
  lemma {:induction false} SelectionFindsWrittenChunk(content: Text, chunkId: string, text: Text)
    requires |Chunks(content)| <= MAX_SAFE_INTEGER
    ensures SelectAuthoritativeMemoryChunk(content, chunkId) == Success(text) <==>
            exists i: nat :: i < |Chunks(content)| && chunkId == ChunkId(i) && text == Chunks(content)[i]
  {
    if SelectAuthoritativeMemoryChunk(content, chunkId) == Success(text) {
      var index := Decimal.Value(chunkId[6..]);
      Decimal.CanonicalIsPrinted(chunkId[6..]);
      assert chunkId == "chunk-" + chunkId[6..];
      assert chunkId == ChunkId(index);
    }
    if i: nat :| i < |Chunks(content)| && chunkId == ChunkId(i) && text == Chunks(content)[i] {
      Decimal.PrintIsCanonical(i);
      assert chunkId[6..] == Decimal.Print(i);
    }
  }
}
