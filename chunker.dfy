/**
 * The chunk loop of `chunk_code` (src/tools/mcp_tools.py): one greedy pass over the extracted
 * records that cuts them into consecutive chunks.  A record joins the open chunk unless the
 * chunk is non-empty and the record would take its size (the sum of `end_line - start_line`)
 * past the bound; then the open chunk is emitted and the record starts the next one.
 */
module Chunker {
  import opened Text
  import opened Analyzer

  /** The size a record adds to its chunk: `end_line - start_line`. */
  function FuncSize(f: FunctionInfo): int {
    f.endLine - f.startLine
  }

  function SizeSum(fs: seq<FunctionInfo>): int {
    if |fs| == 0 then 0 else SizeSum(fs[..|fs| - 1]) + FuncSize(fs[|fs| - 1])
  }

  /** `f"chunk_{k}"`. */
  function ChunkId(k: nat): string {
    "chunk_" + NatToString(k)
  }

  /** A chunk: its position, its records and its size; its `id` is `chunk_<number>`. */
  datatype Chunk = Chunk(number: nat, functions: seq<FunctionInfo>, size: int) {
    function Id(): string {
      ChunkId(number)
    }
  }

  /** The state of the loop: the chunks emitted, the open chunk and its size. */
  datatype Packing = Packing(chunks: seq<Chunk>, current: seq<FunctionInfo>, size: int)

  /** One turn of `for func in functions`. */
  function Step(p: Packing, f: FunctionInfo, maxSize: int): Packing {
    if p.size + FuncSize(f) > maxSize && |p.current| > 0 then
      Packing(p.chunks + [Chunk(|p.chunks|, p.current, p.size)], [f], FuncSize(f))
    else
      Packing(p.chunks, p.current + [f], p.size + FuncSize(f))
  }

  /** The state after the loop has seen all of `fs`. */
  function PackAll(fs: seq<FunctionInfo>, maxSize: int): Packing {
    if |fs| == 0 then Packing([], [], 0)
    else Step(PackAll(fs[..|fs| - 1], maxSize), fs[|fs| - 1], maxSize)
  }

  /** After the loop the open chunk is emitted when it is not empty. */
  function Finish(p: Packing): seq<Chunk> {
    if |p.current| > 0 then p.chunks + [Chunk(|p.chunks|, p.current, p.size)] else p.chunks
  }

  /** The chunk list `chunk_code` builds from `fs` with bound `maxSize`. */
  function ChunksOf(fs: seq<FunctionInfo>, maxSize: int): seq<Chunk> {
    Finish(PackAll(fs, maxSize))
  }

  /** The chunks' record lists, concatenated in order. */
  function Flatten(cs: seq<Chunk>): seq<FunctionInfo> {
    if |cs| == 0 then [] else Flatten(cs[..|cs| - 1]) + cs[|cs| - 1].functions
  }

  /**
   * Chunk number `k` is non-empty, is numbered `k` (so its id is `chunk_k`), records the size of its records and
   * stays within the bound unless it holds a single record.
   */
  predicate GoodChunk(c: Chunk, k: nat, maxSize: int) {
    && |c.functions| > 0
    && c.number == k
    && c.size == SizeSum(c.functions)
    && (|c.functions| >= 2 ==> c.size <= maxSize)
  }

  predicate GoodChunks(cs: seq<Chunk>, maxSize: int) {
    forall k :: 0 <= k < |cs| ==> GoodChunk(cs[k], k, maxSize)
  }

  /** Chunk `a` was closed because the first record of chunk `b` did not fit after it. */
  predicate ClosedBefore(a: Chunk, b: Chunk, maxSize: int) {
    |b.functions| > 0 && a.size + FuncSize(b.functions[0]) > maxSize
  }

  /** Each chunk but the last was closed because the first record of the next did not fit. */
  predicate Greedy(cs: seq<Chunk>, maxSize: int) {
    |cs| <= 1 || (Greedy(cs[..|cs| - 1], maxSize) && ClosedBefore(cs[|cs| - 2], cs[|cs| - 1], maxSize))
  }

  /** `Greedy`, pair by pair. */
  lemma {:induction false} GreedyAt(cs: seq<Chunk>, maxSize: int, k: nat)
    requires Greedy(cs, maxSize) && k + 1 < |cs|
    ensures ClosedBefore(cs[k], cs[k + 1], maxSize)
  {
    if k + 2 < |cs| {
      GreedyAt(cs[..|cs| - 1], maxSize, k);
    }
  }

  /**
   * The loop state is well formed: the emitted chunks are good and greedy, the open chunk is
   * non-empty once a chunk was emitted, and it was opened because its first record did not fit.
   */
  predicate GoodPacking(p: Packing, maxSize: int) {
    && GoodChunks(p.chunks, maxSize)
    && Greedy(p.chunks, maxSize)
    && (|p.chunks| > 0 ==> |p.current| > 0 && p.chunks[|p.chunks| - 1].size + FuncSize(p.current[0]) > maxSize)
    && p.size == SizeSum(p.current)
    && (|p.current| >= 2 ==> p.size <= maxSize)
  }

  lemma FlattenSnoc(cs: seq<Chunk>, c: Chunk)
    ensures Flatten(cs + [c]) == Flatten(cs) + c.functions
  {
    assert (cs + [c])[..|cs|] == cs;
  }

  lemma SizeSumSnoc(fs: seq<FunctionInfo>, f: FunctionInfo)
    ensures SizeSum(fs + [f]) == SizeSum(fs) + FuncSize(f)
  {
    assert (fs + [f])[..|fs|] == fs;
  }

  lemma GreedySnoc(cs: seq<Chunk>, c: Chunk, maxSize: int)
    requires Greedy(cs, maxSize) && |c.functions| > 0
    requires |cs| > 0 ==> cs[|cs| - 1].size + FuncSize(c.functions[0]) > maxSize
    ensures Greedy(cs + [c], maxSize)
  {
    assert (cs + [c])[..|cs|] == cs;
  }

  lemma GoodChunksSnoc(cs: seq<Chunk>, c: Chunk, maxSize: int)
    requires GoodChunks(cs, maxSize) && GoodChunk(c, |cs|, maxSize)
    ensures GoodChunks(cs + [c], maxSize)
  {
    var all := cs + [c];
    forall k | 0 <= k < |all| ensures GoodChunk(all[k], k, maxSize) {
      if k < |cs| {
        assert all[k] == cs[k];
      }
    }
  }

  /** The loop state is well formed and what the loop has seen is emitted plus open. */
  predicate Packed(p: Packing, fs: seq<FunctionInfo>, maxSize: int) {
    GoodPacking(p, maxSize) && Flatten(p.chunks) + p.current == fs
  }

  /** A turn that closes the open chunk keeps the state well formed. */
  lemma StepCloses(p: Packing, fs: seq<FunctionInfo>, f: FunctionInfo, maxSize: int)
    requires Packed(p, fs, maxSize)
    requires p.size + FuncSize(f) > maxSize && |p.current| > 0
    ensures Packed(Packing(p.chunks + [Chunk(|p.chunks|, p.current, p.size)], [f], FuncSize(f)), fs + [f], maxSize)
  {
    var open := Chunk(|p.chunks|, p.current, p.size);
    ClosedChunksGood(p, maxSize);
    SizeSumSnoc([], f);
    assert [] + [f] == [f];
    ClosedChunksFlatten(p, fs, f);
  }

  lemma ClosedChunksGood(p: Packing, maxSize: int)
    requires GoodPacking(p, maxSize) && |p.current| > 0
    ensures GoodChunks(p.chunks + [Chunk(|p.chunks|, p.current, p.size)], maxSize)
    ensures Greedy(p.chunks + [Chunk(|p.chunks|, p.current, p.size)], maxSize)
  {
    var open := Chunk(|p.chunks|, p.current, p.size);
    GoodChunksSnoc(p.chunks, open, maxSize);
    GreedySnoc(p.chunks, open, maxSize);
  }

  lemma ClosedChunksFlatten(p: Packing, fs: seq<FunctionInfo>, f: FunctionInfo)
    requires Flatten(p.chunks) + p.current == fs
    ensures Flatten(p.chunks + [Chunk(|p.chunks|, p.current, p.size)]) + [f] == fs + [f]
  {
    FlattenSnoc(p.chunks, Chunk(|p.chunks|, p.current, p.size));
  }

  /** A turn that adds the record to the open chunk keeps the state well formed. */
  lemma StepExtends(p: Packing, fs: seq<FunctionInfo>, f: FunctionInfo, maxSize: int)
    requires Packed(p, fs, maxSize)
    requires |p.current| == 0 || p.size + FuncSize(f) <= maxSize
    ensures Packed(Packing(p.chunks, p.current + [f], p.size + FuncSize(f)), fs + [f], maxSize)
  {
    SizeSumSnoc(p.current, f);
    if |p.chunks| > 0 {
      assert (p.current + [f])[0] == p.current[0];
    }
    assert Flatten(p.chunks) + (p.current + [f]) == (Flatten(p.chunks) + p.current) + [f];
  }

  /** Every turn of the loop keeps the state well formed. */
  lemma StepPacked(p: Packing, fs: seq<FunctionInfo>, maxSize: int)
    requires |fs| > 0 && Packed(p, fs[..|fs| - 1], maxSize)
    ensures Packed(Step(p, fs[|fs| - 1], maxSize), fs, maxSize)
  {
    var f := fs[|fs| - 1];
    assert fs[..|fs| - 1] + [f] == fs;
    if p.size + FuncSize(f) > maxSize && |p.current| > 0 {
      StepCloses(p, fs[..|fs| - 1], f, maxSize);
    } else {
      StepExtends(p, fs[..|fs| - 1], f, maxSize);
    }
  }

  lemma {:induction false} PackAllFacts(fs: seq<FunctionInfo>, maxSize: int)
    ensures Packed(PackAll(fs, maxSize), fs, maxSize)
  {
    if |fs| > 0 {
      PackAllFacts(fs[..|fs| - 1], maxSize);
      StepPacked(PackAll(fs[..|fs| - 1], maxSize), fs, maxSize);
    }
  }

  /**
   * The chunks partition the records: concatenated in order they give the records back; each
   * is well formed; and each but the last was closed because the next record did not fit.
   */
  lemma ChunksPartition(fs: seq<FunctionInfo>, maxSize: int)
    ensures Flatten(ChunksOf(fs, maxSize)) == fs
    ensures GoodChunks(ChunksOf(fs, maxSize), maxSize)
    ensures Greedy(ChunksOf(fs, maxSize), maxSize)
  {
    PackAllFacts(fs, maxSize);
    var p := PackAll(fs, maxSize);
    var open := Chunk(|p.chunks|, p.current, p.size);
    if |p.current| > 0 {
      FlattenSnoc(p.chunks, open);
      GoodChunksSnoc(p.chunks, open, maxSize);
      GreedySnoc(p.chunks, open, maxSize);
    } else {
      assert Flatten(p.chunks) + [] == Flatten(p.chunks);
    }
  }

  /** No records, no chunks; some records, at least one chunk. */
  lemma ChunksEmptyIff(fs: seq<FunctionInfo>, maxSize: int)
    ensures |ChunksOf(fs, maxSize)| == 0 <==> |fs| == 0
  {
    ChunksPartition(fs, maxSize);
    var cs := ChunksOf(fs, maxSize);
    if |cs| == 0 {
      assert Flatten(cs) == [];
    }
  }

  /** The `for func in functions` loop and the final flush. */
  method ChunkFunctions(functions: seq<FunctionInfo>, maxChunkSize: int) returns (chunks: seq<Chunk>)
    ensures chunks == ChunksOf(functions, maxChunkSize)
  {
    chunks := [];
    var currentChunk: seq<FunctionInfo> := [];
    var currentSize := 0;
    for k := 0 to |functions|
      invariant Packing(chunks, currentChunk, currentSize) == PackAll(functions[..k], maxChunkSize)
    {
      var func := functions[k];
      var funcSize := func.endLine - func.startLine;
      if currentSize + funcSize > maxChunkSize && |currentChunk| > 0 {
        chunks := chunks + [Chunk(|chunks|, currentChunk, currentSize)];
        currentChunk := [func];
        currentSize := funcSize;
      } else {
        currentChunk := currentChunk + [func];
        currentSize := currentSize + funcSize;
      }
      assert functions[..k + 1][..k] == functions[..k];
    }
    assert functions[..|functions|] == functions;
    if |currentChunk| > 0 {
      chunks := chunks + [Chunk(|chunks|, currentChunk, currentSize)];
    }
  }

  /** The result of `chunk_code` for file content `content`. */
  datatype ChunkReport = ChunkReport(totalChunks: nat, chunks: seq<Chunk>, totalLines: nat, totalFunctions: nat)

  /** `chunk_code` from the content on; the default bound is 2000. */
  method ChunkCode(content: string, maxChunkSize: int) returns (report: ChunkReport)
    ensures report.chunks == ChunksOf(FunctionsIn(content), maxChunkSize)
    ensures Flatten(report.chunks) == FunctionsIn(content)
    ensures GoodChunks(report.chunks, maxChunkSize)
    ensures report.totalChunks == |report.chunks|
    ensures report.totalLines == |Split(content)|
    ensures report.totalFunctions == |FunctionsIn(content)|
  {
    var functions := ExtractFunctions(content);
    var chunks := ChunkFunctions(functions, maxChunkSize);
    ChunksPartition(functions, maxChunkSize);
    report := ChunkReport(|chunks|, chunks, |Split(content)|, |functions|);
  }
}
