/** Chunk arithmetic, slicing and merging: internal/upload/service.go and the
    uploadFile loop of web/src/api/client.ts. */
module Chunking {
  import opened Options

  newtype Byte = b: int | 0 <= b < 256

  type Content = seq<Byte>
  type Digest = string

  /** SHA-256 taken as free of collisions. */
  ghost predicate Injective(hash: Content -> Digest) {
    forall a, b :: hash(a) == hash(b) ==> a == b
  }

  const MAX_INT64: int := 0x7fff_ffff_ffff_ffff

  predicate Int64(x: int) {
    -MAX_INT64 - 1 <= x <= MAX_INT64
  }

  datatype Task = Task(fileSize: int, chunkSize: int, totalChunks: int, fileHash: Option<Digest>)

  /** What InitInFolder stores, and the CHECK constraints keep. */
  ghost predicate ValidTask(task: Task) {
    && 0 < task.fileSize <= MAX_INT64
    && 0 < task.chunkSize <= MAX_INT64
    && task.totalChunks == (task.fileSize - 1) / task.chunkSize + 1
  }

  function ExpectedChunkSize(task: Task, chunkNumber: int): int {
    if chunkNumber == task.totalChunks - 1 then task.fileSize - task.chunkSize * (task.totalChunks - 1)
    else task.chunkSize
  }

  lemma TotalChunksCover(task: Task)
    requires ValidTask(task)
    ensures 1 <= task.totalChunks <= task.fileSize
    ensures task.chunkSize * (task.totalChunks - 1) < task.fileSize <= task.chunkSize * task.totalChunks
  {
    DivisionBounds(task.fileSize - 1, task.chunkSize);
  }

  lemma DivisionBounds(x: int, c: int)
    requires 0 <= x && 0 < c
    ensures 0 <= x / c <= x
    ensures c * (x / c) <= x < c * (x / c + 1)
  {
    var q := x / c;
    assert x == c * q + x % c;
    assert c * (q + 1) == c * q + c;
    assert 0 <= q;
    if q > x {
      MulMonotone(1, c, q);
    }
  }

  lemma MulMonotone(a: int, b: int, c: int)
    requires a <= b && 0 <= c
    ensures c * a <= c * b
  {
  }

  /** Every chunk holds between 1 and chunkSize bytes and ends where the next
      one begins or the file ends; no intermediate value leaves int64. */
  lemma ChunkBounds(task: Task, n: int)
    requires ValidTask(task) && 0 <= n < task.totalChunks
    ensures 1 <= ExpectedChunkSize(task, n) <= task.chunkSize
    ensures var end := task.chunkSize * n + ExpectedChunkSize(task, n);
            end == (if task.chunkSize * (n + 1) <= task.fileSize then task.chunkSize * (n + 1) else task.fileSize)
    ensures Int64(task.totalChunks) && Int64(task.chunkSize * (task.totalChunks - 1)) && Int64(task.chunkSize * n)
    ensures Int64(ExpectedChunkSize(task, n)) && Int64(task.chunkSize * n + ExpectedChunkSize(task, n))
  {
    TotalChunksCover(task);
    MulMonotone(n, task.totalChunks - 1, task.chunkSize);
    MulMonotone(0, n, task.chunkSize);
    assert task.chunkSize * (n + 1) == task.chunkSize * n + task.chunkSize;
    if n < task.totalChunks - 1 {
      MulMonotone(n + 1, task.totalChunks - 1, task.chunkSize);
    } else {
      assert task.chunkSize * task.totalChunks == task.chunkSize * (task.totalChunks - 1) + task.chunkSize;
    }
  }

  // ---- slices and their concatenation ----

  function Min(a: int, b: int): int {
    if a <= b then a else b
  }

  /** file.slice(start, end) with start = number * chunk_size; Blob.slice clamps
      both ends to the file. */
  function Slice(content: Content, chunkSize: int, n: int): Content {
    var start := chunkSize * n;
    var end := Min(start + chunkSize, |content|);
    if 0 <= start <= end then content[start..end] else []
  }

  function Concat(parts: seq<Content>): Content {
    if parts == [] then [] else Concat(parts[..|parts| - 1]) + parts[|parts| - 1]
  }

  function Slices(content: Content, chunkSize: int, n: nat): (parts: seq<Content>)
    ensures |parts| == n && forall i :: 0 <= i < n ==> parts[i] == Slice(content, chunkSize, i)
  {
    seq(n, i => Slice(content, chunkSize, i))
  }

  lemma SliceHasExpectedSize(task: Task, content: Content, n: int)
    requires ValidTask(task) && |content| == task.fileSize && 0 <= n < task.totalChunks
    ensures |Slice(content, task.chunkSize, n)| == ExpectedChunkSize(task, n)
    ensures 0 <= task.chunkSize * n <= |content|
    ensures Slice(content, task.chunkSize, n)
         == content[task.chunkSize * n..task.chunkSize * n + ExpectedChunkSize(task, n)]
  {
    ChunkBounds(task, n);
    MulMonotone(0, n, task.chunkSize);
    assert task.chunkSize * (n + 1) == task.chunkSize * n + task.chunkSize;
  }

  lemma {:induction false} SlicesConcatenate(task: Task, content: Content, n: nat)
    requires ValidTask(task) && |content| == task.fileSize && n <= task.totalChunks
    ensures Concat(Slices(content, task.chunkSize, n)) == content[..Min(task.chunkSize * n, |content|)]
    decreases n
  {
    if n > 0 {
      var parts := Slices(content, task.chunkSize, n);
      assert parts[..n - 1] == Slices(content, task.chunkSize, n - 1);
      SlicesConcatenate(task, content, n - 1);
      SliceHasExpectedSize(task, content, n - 1);
      ChunkBounds(task, n - 1);
      JoinSlices(content, task.chunkSize * (n - 1), task.chunkSize * (n - 1) + ExpectedChunkSize(task, n - 1));
    }
  }

  lemma JoinSlices(content: Content, a: int, b: int)
    requires 0 <= a <= b <= |content|
    ensures content[..a] + content[a..b] == content[..b]
  {
  }

  /** The slices put together are the file. */
  lemma SlicesMakeTheFile(task: Task, content: Content)
    requires ValidTask(task) && |content| == task.fileSize
    ensures Concat(Slices(content, task.chunkSize, task.totalChunks)) == content
  {
    SlicesConcatenate(task, content, task.totalChunks);
    TotalChunksCover(task);
  }

  function SumSizes(task: Task, n: nat): int {
    if n == 0 then 0 else SumSizes(task, n - 1) + ExpectedChunkSize(task, n - 1)
  }

  /** The running total of a merge is a chunk boundary, stays within int64 and
      ends at the file size: the check on the total size never fires. */
  lemma {:induction false} SizesAddUp(task: Task, n: nat)
    requires ValidTask(task) && n <= task.totalChunks
    ensures SumSizes(task, n) == Min(task.chunkSize * n, task.fileSize)
    ensures 0 <= SumSizes(task, n) && Int64(SumSizes(task, n))
    ensures n == task.totalChunks ==> SumSizes(task, n) == task.fileSize
    decreases n
  {
    TotalChunksCover(task);
    MulMonotone(0, n, task.chunkSize);
    if n > 0 {
      SizesAddUp(task, n - 1);
      ChunkBounds(task, n - 1);
    }
  }

  // ---- chunk rows ----

  datatype ChunkRow = ChunkRow(number: int, size: int, hash: Option<Digest>)

  /** ORDER BY chunk_number over a primary key (upload, number). */
  ghost predicate SortedRows(rows: seq<ChunkRow>) {
    forall i, j :: 0 <= i < j < |rows| ==> rows[i].number < rows[j].number
  }

  /** What the number check of UploadChunk keeps about stored rows. */
  ghost predicate NumbersInRange(task: Task, rows: seq<ChunkRow>) {
    SortedRows(rows) && forall j :: 0 <= j < |rows| ==> 0 <= rows[j].number < task.totalChunks
  }

  /** N distinct sorted numbers in 0..N-1 are exactly 0..N-1. */
  lemma {:induction false} NumbersAreAllPresent(rows: seq<ChunkRow>, i: int)
    requires SortedRows(rows) && forall j :: 0 <= j < |rows| ==> 0 <= rows[j].number < |rows|
    requires 0 <= i < |rows|
    ensures rows[i].number == i
  {
    NumberAtLeast(rows, i);
    NumberAtMost(rows, i);
  }

  lemma {:induction false} NumberAtLeast(rows: seq<ChunkRow>, i: int)
    requires SortedRows(rows) && 0 <= i < |rows| && 0 <= rows[0].number
    ensures i <= rows[i].number
    decreases i
  {
    if i > 0 {
      NumberAtLeast(rows, i - 1);
    }
  }

  lemma {:induction false} NumberAtMost(rows: seq<ChunkRow>, i: int)
    requires SortedRows(rows) && 0 <= i < |rows| && rows[|rows| - 1].number < |rows|
    ensures rows[i].number <= i
    decreases |rows| - i
  {
    if i < |rows| - 1 {
      NumberAtMost(rows, i + 1);
    }
  }

  // ---- merging ----

  /** The checks of mergeChunks that return ErrChunksIncomplete. */
  datatype Check = RowCount | RowNumber | RowSize | PartMissing | PartSize | TotalSize

  datatype MergeError = ChunksIncomplete(check: Check) | ChunkHashMismatch

  datatype Merged = Merged(content: Content, hash: Digest)

  /** Part i is on disk, has the size both the task and its row expect, and
      hashes to what its row recorded. */
  ghost predicate PartFits(task: Task, rows: seq<ChunkRow>, parts: map<int, Content>, hash: Content -> Digest, i: int)
    requires 0 <= i < |rows|
  {
    && rows[i].number == i
    && rows[i].size == ExpectedChunkSize(task, i)
    && i in parts
    && |parts[i]| == ExpectedChunkSize(task, i)
    && rows[i].hash == Some(hash(parts[i]))
  }

  ghost predicate Mergeable(task: Task, rows: seq<ChunkRow>, parts: map<int, Content>, hash: Content -> Digest) {
    |rows| == task.totalChunks && forall i :: 0 <= i < |rows| ==> PartFits(task, rows, parts, hash, i)
  }

  function PartSeq(parts: map<int, Content>, n: nat): (s: seq<Content>)
    ensures |s| == n && forall i :: 0 <= i < n && i in parts ==> s[i] == parts[i]
  {
    seq(n, i => if i in parts then parts[i] else [])
  }

  method MergeChunks(task: Task, rows: seq<ChunkRow>, parts: map<int, Content>, hash: Content -> Digest)
    returns (r: Result<Merged, MergeError>)
    requires ValidTask(task)
    ensures r.Ok? <==> Mergeable(task, rows, parts, hash)
    ensures r.Ok? ==> r.value.content == Concat(PartSeq(parts, task.totalChunks))
    ensures r.Ok? ==> r.value.hash == hash(r.value.content)
    ensures r.Ok? ==> |r.value.content| == task.fileSize
    ensures r == Err(ChunkHashMismatch) ==>
              |rows| == task.totalChunks
              && exists i ::
                   0 <= i < |rows| && i in parts && |parts[i]| == rows[i].size && rows[i].hash != Some(hash(parts[i]))
    ensures r == Err(ChunksIncomplete(RowCount)) <==> |rows| != task.totalChunks
    ensures r != Err(ChunksIncomplete(TotalSize))
    ensures NumbersInRange(task, rows) ==> r != Err(ChunksIncomplete(RowNumber))
  {
    if |rows| != task.totalChunks {
      return Err(ChunksIncomplete(RowCount));
    }
    var merged: Content := [];
    var totalSize := 0;
    var chunkNumber := 0;
    SizesAddUp(task, 0);
    while chunkNumber < task.totalChunks
      invariant 0 <= chunkNumber <= task.totalChunks
      invariant forall i :: 0 <= i < chunkNumber ==> PartFits(task, rows, parts, hash, i)
      invariant merged == Concat(PartSeq(parts, chunkNumber))
      invariant |merged| == totalSize == SumSizes(task, chunkNumber)
    {
      var chunk := rows[chunkNumber];
      assert Mergeable(task, rows, parts, hash) ==> PartFits(task, rows, parts, hash, chunkNumber);
      var expectedSize := ExpectedChunkSize(task, chunkNumber);
      if chunk.number != chunkNumber {
        if NumbersInRange(task, rows) {
          NumbersAreAllPresent(rows, chunkNumber);
          assert false;
        }
        return Err(ChunksIncomplete(RowNumber));
      }
      if chunk.size != expectedSize {
        return Err(ChunksIncomplete(RowSize));
      }
      if chunkNumber !in parts {
        return Err(ChunksIncomplete(PartMissing));
      }
      var part := parts[chunkNumber];
      if |part| != expectedSize {
        return Err(ChunksIncomplete(PartSize));
      }
      if chunk.hash != Some(hash(part)) {
        return Err(ChunkHashMismatch);
      }
      assert PartSeq(parts, chunkNumber + 1)[..chunkNumber] == PartSeq(parts, chunkNumber);
      merged := merged + part;
      totalSize := totalSize + |part|;
      chunkNumber := chunkNumber + 1;
    }
    SizesAddUp(task, task.totalChunks);
    if totalSize != task.fileSize {
      return Err(ChunksIncomplete(TotalSize));
    }
    return Ok(Merged(merged, hash(merged)));
  }
}
