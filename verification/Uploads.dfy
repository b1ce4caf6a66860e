/** One upload task as the service serves it when calls come one at a time
    (internal/upload/service.go), and the browser loop that drives it
    (web/src/api/client.ts). */
module Uploads {
  import opened Options
  import opened Chunking
  import Protocol = UploadProtocol

  function RowList(rows: map<int, ChunkRow>, n: int): seq<ChunkRow> {
    Protocol.RowList(rows, n)
  }

  datatype UploadError =
    | NameRequired
    | FileSizeInvalid
    | ChunkSizeInvalid
    | FolderNotFound
    | QuotaExceeded
    | TaskNotUploading
    | ChunkNumberInvalid
    | ChunkSizeMismatch
    | MergeFailed(error: MergeError)
    | FileHashMismatch
    | SaveFailed

  /** ListChunks lists every row once, in order, and nothing else. */
  lemma {:induction false} RowListShape(rows: map<int, ChunkRow>, n: nat)
    requires forall k :: k in rows ==> rows[k].number == k
    ensures var list := RowList(rows, n);
            && |list| <= n
            && (forall i :: 0 <= i < |list| ==>
                  0 <= list[i].number < n && list[i].number in rows && list[i] == rows[list[i].number])
            && SortedRows(list)
            && (|list| == n <==> forall k :: 0 <= k < n ==> k in rows)
            && (|list| == n ==> forall i :: 0 <= i < n ==> list[i] == rows[i])
    decreases n
  {
    if n > 0 {
      RowListShape(rows, n - 1);
      if n - 1 !in rows {
        assert !(forall k :: 0 <= k < n ==> k in rows);
      }
    }
  }

  /** Every row describes the part stored under its number. */
  ghost predicate Stored(task: Task, hash: Content -> Digest, rows: map<int, ChunkRow>, parts: map<int, Content>) {
    forall n :: n in rows ==>
      && rows[n] == ChunkRow(n, ExpectedChunkSize(task, n), rows[n].hash)
      && n in parts && |parts[n]| == rows[n].size && rows[n].hash == Some(hash(parts[n]))
  }

  /** With one call at a time the row count is the only check that can fail. */
  lemma MergeableIffAllPresent(task: Task, hash: Content -> Digest, rows: map<int, ChunkRow>, parts: map<int, Content>)
    requires ValidTask(task) && Stored(task, hash, rows, parts)
    ensures Mergeable(task, RowList(rows, task.totalChunks), parts, hash)
            <==> forall n :: 0 <= n < task.totalChunks ==> n in rows
    ensures |RowList(rows, task.totalChunks)| == task.totalChunks
            <==> forall n :: 0 <= n < task.totalChunks ==> n in rows
  {
    TotalChunksCover(task);
    RowListShape(rows, task.totalChunks);
  }

  class Upload {
    const task: Task
    const hash: Content -> Digest
    var status: Protocol.Status
    var rows: map<int, ChunkRow>
    var parts: map<int, Content>
    var created: seq<Content>

    /** Between calls every row describes the part stored under its number, and
        a live task still has its directory. */
    ghost predicate Valid()
      reads this
    {
      && ValidTask(task)
      && status != Protocol.Completing
      && (forall n :: n in rows ==>
            0 <= n < task.totalChunks && rows[n].number == n && rows[n].size == ExpectedChunkSize(task, n))
      && (status == Protocol.Uploading ==> Stored(task, hash, rows, parts))
    }

    constructor (task: Task, hash: Content -> Digest)
      requires ValidTask(task)
      ensures Valid() && this.task == task && this.hash == hash
      ensures status == Protocol.Uploading && rows == map[] && parts == map[] && created == []
    {
      this.task := task;
      this.hash := hash;
      status := Protocol.Uploading;
      rows, parts, created := map[], map[], [];
    }

    /** The stored parts put together. */
    function Whole(stored: map<int, Content>): Content {
      Concat(PartSeq(stored, if task.totalChunks < 0 then 0 else task.totalChunks))
    }

    method UploadChunk(number: int, body: Content) returns (r: Result<ChunkRow, UploadError>)
      requires Valid()
      modifies this`rows, this`parts
      ensures Valid()
      ensures r.Ok? <==>
                && status == Protocol.Uploading
                && 0 <= number < task.totalChunks && |body| == ExpectedChunkSize(task, number)
      ensures r.Ok? ==>
                && r.value == ChunkRow(number, |body|, Some(hash(body)))
                && rows == old(rows)[number := r.value] && parts == old(parts)[number := body]
      ensures r.Err? ==> rows == old(rows) && parts == old(parts)
      ensures r == Err(TaskNotUploading) <==> status != Protocol.Uploading
      ensures r == Err(ChunkSizeMismatch) ==> |body| != ExpectedChunkSize(task, number)
    {
      if status != Protocol.Uploading {
        return Err(TaskNotUploading);
      }
      if number < 0 || number >= task.totalChunks {
        return Err(ChunkNumberInvalid);
      }
      if |body| != ExpectedChunkSize(task, number) {
        return Err(ChunkSizeMismatch);
      }
      parts := parts[number := body];
      var row := ChunkRow(number, |body|, Some(hash(body)));
      rows := rows[number := row];
      return Ok(row);
    }

    /** saved is whether UploadIntoFolder accepts the merged file. */
    method Complete(saved: bool) returns (r: Result<Content, UploadError>)
      requires Valid()
      modifies this`status, this`parts, this`created
      ensures Valid()
      ensures var whole := Whole(old(parts));
              && (r.Ok? <==> old(status) == Protocol.Uploading
                             && (forall n :: 0 <= n < task.totalChunks ==> n in rows)
                             && (task.fileHash.Some? ==> task.fileHash.value == hash(whole))
                             && saved)
              && (r.Ok? ==> r.value == whole && |whole| == task.fileSize
                            && status == Protocol.Completed && created == old(created) + [whole])
      ensures r.Err? ==> status == old(status) && parts == old(parts) && created == old(created)
      ensures r != Err(MergeFailed(ChunkHashMismatch))
      ensures r.Err? && r.error.MergeFailed? ==> r.error.error == ChunksIncomplete(RowCount)
    {
      if status != Protocol.Uploading {
        return Err(TaskNotUploading);
      }
      status := Protocol.Completing;
      var chunks := RowList(rows, task.totalChunks);
      MergeableIffAllPresent(task, hash, rows, parts);
      var merged := MergeChunks(task, chunks, parts, hash);
      if merged.Err? {
        status := Protocol.Uploading;
        return Err(MergeFailed(merged.error));
      }
      if task.fileHash.Some? && task.fileHash.value != merged.value.hash {
        status := Protocol.Uploading;
        return Err(FileHashMismatch);
      }
      if !saved {
        status := Protocol.Uploading;
        return Err(SaveFailed);
      }
      created := created + [merged.value.content];
      status := Protocol.Completed;
      parts := map[];
      return Ok(merged.value.content);
    }

    method Cancel() returns (r: Result<(), UploadError>)
      requires Valid()
      modifies this`status, this`parts
      ensures Valid()
      ensures r.Ok? <==> old(status) == Protocol.Uploading
      ensures r.Ok? ==> status == Protocol.Failed && parts == map[]
      ensures r.Err? ==> status == old(status) && parts == old(parts)
    {
      if status != Protocol.Uploading {
        return Err(TaskNotUploading);
      }
      status := Protocol.Failed;
      parts := map[];
      return Ok(());
    }
  }

  // ---- the client ----

  /** What a resumed upload puts together: the parts the server already had, and
      slices of the chosen file for the rest. */
  function Resumed(task: Task, parts: map<int, Content>, content: Content): (all: seq<Content>)
    requires 0 <= task.totalChunks
    ensures |all| == task.totalChunks
    ensures forall n :: 0 <= n < task.totalChunks ==>
              all[n] == if n in parts then parts[n] else Slice(content, task.chunkSize, n)
  {
    seq(task.totalChunks, n => if n in parts then parts[n] else Slice(content, task.chunkSize, n))
  }

  lemma {:induction false} SamePieces(a: seq<Content>, b: seq<Content>)
    requires |a| == |b| && (forall i :: 0 <= i < |a| ==> |a[i]| == |b[i]|) && Concat(a) == Concat(b)
    ensures a == b
    decreases |a|
  {
    if a != [] {
      var n := |a| - 1;
      var x, y := Concat(a[..n]), Concat(b[..n]);
      SameLengths(a[..n], b[..n]);
      assert Concat(a)[..|x|] == x && Concat(b)[..|y|] == y;
      assert Concat(a)[|x|..] == a[n] && Concat(b)[|y|..] == b[n];
      SamePieces(a[..n], b[..n]);
      assert a == a[..n] + [a[n]] && b == b[..n] + [b[n]];
    }
  }

  lemma {:induction false} SameLengths(a: seq<Content>, b: seq<Content>)
    requires |a| == |b| && forall i :: 0 <= i < |a| ==> |a[i]| == |b[i]|
    ensures |Concat(a)| == |Concat(b)|
    decreases |a|
  {
    if a != [] {
      SameLengths(a[..|a| - 1], b[..|b| - 1]);
    }
  }

  /** Resuming compares the file's name and size, not its bytes: what comes out is
      the chosen file if and only if the parts already there are its slices. */
  lemma ResumedIsTheFileIff(task: Task, parts: map<int, Content>, content: Content)
    requires ValidTask(task) && |content| == task.fileSize
    requires forall n :: n in parts && 0 <= n < task.totalChunks ==> |parts[n]| == ExpectedChunkSize(task, n)
    ensures 0 <= task.totalChunks
    ensures Concat(Resumed(task, parts, content)) == content
       <==> forall n :: 0 <= n < task.totalChunks && n in parts ==> parts[n] == Slice(content, task.chunkSize, n)
  {
    TotalChunksCover(task);
    SlicesMakeTheFile(task, content);
    var all, slices := Resumed(task, parts, content), Slices(content, task.chunkSize, task.totalChunks);
    forall n | 0 <= n < task.totalChunks
      ensures |all[n]| == |slices[n]|
    {
      SliceHasExpectedSize(task, content, n);
    }
    if Concat(all) == content {
      SamePieces(all, slices);
      forall n | 0 <= n < task.totalChunks && n in parts
        ensures parts[n] == Slice(content, task.chunkSize, n)
      {
        assert all[n] == slices[n];
      }
    }
    if forall n :: 0 <= n < task.totalChunks && n in parts ==> parts[n] == Slice(content, task.chunkSize, n) {
      assert all == slices;
    }
  }

  /** The parts the server lists. */
  function Listed(rows: map<int, ChunkRow>, parts: map<int, Content>): map<int, Content> {
    map n | n in rows && n in parts :: parts[n]
  }

  /** So far every row's part is the one the resumed upload should have. */
  ghost predicate OnCourse(task: Task, rows: map<int, ChunkRow>, parts: map<int, Content>, all: seq<Content>) {
    forall n :: n in rows ==> 0 <= n < task.totalChunks && n < |all| && n in parts && parts[n] == all[n]
  }

  lemma AllSent(parts: map<int, Content>, all: seq<Content>)
    requires forall n :: 0 <= n < |all| ==> n in parts && parts[n] == all[n]
    ensures PartSeq(parts, |all|) == all
  {
  }

  /** One turn of the loop. */
  method SendChunk(upload: Upload, content: Content, number: int, ghost all: seq<Content>)
    requires upload.Valid() && upload.status == Protocol.Uploading && |content| == upload.task.fileSize
    requires 0 <= number < upload.task.totalChunks && |all| == upload.task.totalChunks
    requires OnCourse(upload.task, upload.rows, upload.parts, all)
    requires number !in upload.rows ==> all[number] == Slice(content, upload.task.chunkSize, number)
    modifies upload`rows, upload`parts
    ensures upload.Valid() && upload.rows.Keys == old(upload.rows.Keys) + {number}
    ensures OnCourse(upload.task, upload.rows, upload.parts, all)
  {
    if number !in upload.rows {
      SliceHasExpectedSize(upload.task, content, number);
      var sent := upload.UploadChunk(number, Slice(content, upload.task.chunkSize, number));
    } else {
      assert upload.rows.Keys == upload.rows.Keys + {number};
    }
  }

  /** The loop over chunk numbers: numbers already listed are skipped, the other
      slices are sent in turn. */
  method SendMissing(upload: Upload, content: Content, ghost all: seq<Content>)
    requires upload.Valid() && upload.status == Protocol.Uploading && |content| == upload.task.fileSize
    requires |all| == upload.task.totalChunks && OnCourse(upload.task, upload.rows, upload.parts, all)
    requires forall n :: 0 <= n < |all| && n !in upload.rows ==> all[n] == Slice(content, upload.task.chunkSize, n)
    modifies upload`rows, upload`parts
    ensures upload.Valid() && OnCourse(upload.task, upload.rows, upload.parts, all)
    ensures forall n :: 0 <= n < |all| ==> n in upload.rows
  {
    ghost var before := upload.rows.Keys;
    var number := 0;
    while number < upload.task.totalChunks
      invariant 0 <= number <= upload.task.totalChunks
      invariant upload.Valid() && OnCourse(upload.task, upload.rows, upload.parts, all)
      invariant before <= upload.rows.Keys
      invariant forall n :: 0 <= n < number ==> n in upload.rows
    {
      SendChunk(upload, content, number, all);
      number := number + 1;
    }
  }

  lemma ResumedOnCourse(task: Task, rows: map<int, ChunkRow>, parts: map<int, Content>, content: Content)
    requires 0 <= task.totalChunks && forall n :: n in rows ==> 0 <= n < task.totalChunks && n in parts
    ensures var all := Resumed(task, Listed(rows, parts), content);
            && OnCourse(task, rows, parts, all)
            && forall n :: 0 <= n < |all| && n !in rows ==> all[n] == Slice(content, task.chunkSize, n)
  {
  }

  /** uploadFile, from the point where it knows the task. */
  method UploadFile(upload: Upload, content: Content, saved: bool) returns (r: Result<Content, UploadError>)
    requires upload.Valid() && upload.status == Protocol.Uploading && |content| == upload.task.fileSize
    modifies upload
    ensures upload.Valid() && 0 <= upload.task.totalChunks
    ensures var whole := Concat(Resumed(upload.task, Listed(old(upload.rows), old(upload.parts)), content));
            && (r.Ok? <==> saved && (upload.task.fileHash.Some? ==> upload.task.fileHash.value == upload.hash(whole)))
            && (r.Ok? ==> r.value == whole && upload.status == Protocol.Completed)
            && (r.Ok? ==> upload.created == old(upload.created) + [whole])
            && (whole == content <==> forall n :: n in Listed(old(upload.rows), old(upload.parts)) ==>
                                        old(upload.parts)[n] == Slice(content, upload.task.chunkSize, n))
    ensures r.Err? ==> upload.created == old(upload.created) && upload.status == Protocol.Uploading
                       && forall n :: 0 <= n < upload.task.totalChunks ==> n in upload.rows
  {
    ResumedIsTheFileIff(upload.task, Listed(upload.rows, upload.parts), content);
    ghost var all := Resumed(upload.task, Listed(upload.rows, upload.parts), content);
    ResumedOnCourse(upload.task, upload.rows, upload.parts, content);
    SendMissing(upload, content, all);
    AllSent(upload.parts, all);
    r := upload.Complete(saved);
  }
}
