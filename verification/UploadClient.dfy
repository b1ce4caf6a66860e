/** Whole uploads of one client: a new task from InitInFolder, a resumed one, and
    any sequence of chunks sent to a task (internal/upload/service.go and
    web/src/api/client.ts). */
module UploadClients {
  import opened Options
  import opened Chunking
  import opened Uploads
  import opened FileServices
  import Protocol = UploadProtocol
  import Tables

  type UserId = Tables.UserId
  type FolderId = Tables.FolderId

  /** InitInFolder: what it checks, in this order, is what every later call on the
      task relies on. */
  method InitInFolder(files: FileService, user: UserId, parent: Option<FolderId>, name: string, fileSize: int,
                      chunkSize: int, fileHash: Option<Digest>)
    returns (r: Result<Upload, UploadError>)
    requires Int64(fileSize) && Int64(chunkSize)
    ensures r.Ok? <==> name != "" && 0 < fileSize && 0 < chunkSize
                       && Tables.FolderFound(files.repo.Db(), user, parent)
                          && Tables.QuotaOk(files.repo.Db(), user, fileSize)
    ensures r == Err(NameRequired) <==> name == ""
    ensures r == Err(FileSizeInvalid) <==> name != "" && fileSize <= 0
    ensures r == Err(ChunkSizeInvalid) <==> name != "" && 0 < fileSize && chunkSize <= 0
    ensures r == Err(FolderNotFound) ==> 0 < chunkSize && !Tables.FolderFound(files.repo.Db(), user, parent)
    ensures r == Err(QuotaExceeded) ==>
              Tables.FolderFound(files.repo.Db(), user, parent) && !Tables.QuotaOk(files.repo.Db(), user, fileSize)
    ensures r.Err? ==> r.error in {NameRequired, FileSizeInvalid, ChunkSizeInvalid, FolderNotFound, QuotaExceeded}
    ensures r.Ok? ==>
              && fresh(r.value) && r.value.Valid() && r.value.hash == files.hash
              && r.value.task.fileSize == fileSize && r.value.task.chunkSize == chunkSize
                 && r.value.task.fileHash == fileHash
              && r.value.status == Protocol.Uploading
              && r.value.rows == map[] && r.value.parts == map[] && r.value.created == []
  {
    if name == "" {
      return Err(NameRequired);
    }
    if fileSize <= 0 {
      return Err(FileSizeInvalid);
    }
    if chunkSize <= 0 {
      return Err(ChunkSizeInvalid);
    }
    var missing := files.FolderMissing(user, parent);
    if missing {
      return Err(FolderNotFound);
    }
    var allowed := files.EnsureStorageQuota(user, fileSize);
    if !allowed {
      return Err(QuotaExceeded);
    }
    var upload := new Upload(Task(fileSize, chunkSize, (fileSize - 1) / chunkSize + 1, fileHash), files.hash);
    r := Ok(upload);
  }

  /** uploadFile without a task to resume: whatever the sizes, what comes out is the
      file, and only the first checks, a wrong declared hash or the save stop it. */
  method UploadNewFile(files: FileService, user: UserId, parent: Option<FolderId>, name: string, content: Content,
                       chunkSize: int, fileHash: Option<Digest>, saved: bool)
    returns (r: Result<Content, UploadError>)
    requires Int64(|content|) && Int64(chunkSize)
    ensures r.Ok? <==> && name != "" && content != [] && 0 < chunkSize
                       && Tables.FolderFound(files.repo.Db(), user, parent)
                       && Tables.QuotaOk(files.repo.Db(), user, |content|)
                       && (fileHash.Some? ==> fileHash.value == files.hash(content))
                       && saved
    ensures r.Ok? ==> r.value == content
  {
    var init := InitInFolder(files, user, parent, name, |content|, chunkSize, fileHash);
    if init.Err? {
      return Err(init.error);
    }
    r := UploadFile(init.value, content, saved);
  }

  /** A resumed upload can go wrong: a task whose first chunk came from one file,
      resumed with another of the same size, is accepted and does not yield the
      chosen file. */
  method ResumeWithAnotherFile(task: Task, hash: Content -> Digest, begun: Content, chosen: Content)
    returns (r: Result<Content, UploadError>)
    requires MayBeMixedUp(task, begun, chosen)
    ensures r.Ok? && r.value != chosen
  {
    var upload := new Upload(task, hash);
    SliceHasExpectedSize(task, begun, 0);
    var first := upload.UploadChunk(0, Slice(begun, task.chunkSize, 0));
    assert 0 in Listed(upload.rows, upload.parts);
    r := UploadFile(upload, chosen, true);
  }

  ghost predicate MayBeMixedUp(task: Task, begun: Content, chosen: Content) {
    && ValidTask(task) && task.totalChunks == 2 && task.fileHash == None
    && |begun| == |chosen| == task.fileSize
    && Slice(begun, task.chunkSize, 0) != Slice(chosen, task.chunkSize, 0)
  }

  /** Two files of two bytes will do. */
  lemma TwoBytesAreMixedUp()
    ensures MayBeMixedUp(Task(2, 1, 2, None), [1, 1], [2, 2])
  {
    assert Slice([1, 1], 1, 0)[0] == 1 && Slice([2, 2], 1, 0)[0] == 2;
  }

  // ---- chunks in any order, with repeats ----

  datatype Send = Send(number: int, body: Content)

  predicate Accepted(task: Task, send: Send) {
    0 <= send.number < task.totalChunks && |send.body| == ExpectedChunkSize(task, send.number)
  }

  /** The parts after a sequence of sends, of which the server refuses some. */
  function Taken(task: Task, parts: map<int, Content>, sends: seq<Send>): map<int, Content> {
    if sends == [] then parts
    else
      var before, last := Taken(task, parts, sends[..|sends| - 1]), sends[|sends| - 1];
      if Accepted(task, last) then before[last.number := last.body] else before
  }

  /** The i-th send was taken, and none for its number was taken after it. */
  ghost predicate Stays(task: Task, sends: seq<Send>, i: int) {
    && 0 <= i < |sends| && Accepted(task, sends[i])
    && forall j :: i < j < |sends| && Accepted(task, sends[j]) ==> sends[j].number != sends[i].number
  }

  ghost predicate IsTaken(task: Task, sends: seq<Send>, n: int) {
    exists i :: 0 <= i < |sends| && Accepted(task, sends[i]) && sends[i].number == n
  }

  ghost predicate Covers(task: Task, sends: seq<Send>) {
    forall n :: 0 <= n < task.totalChunks ==> IsTaken(task, sends, n)
  }

  ghost predicate Full(task: Task, parts: map<int, Content>) {
    forall n :: 0 <= n < task.totalChunks ==> n in parts
  }

  ghost predicate IsLastBody(task: Task, sends: seq<Send>, n: int, body: Content) {
    exists i :: Stays(task, sends, i) && sends[i].number == n && sends[i].body == body
  }

  /** For every number the last body taken is the file's slice. */
  ghost predicate EndsOnSlices(task: Task, sends: seq<Send>, content: Content) {
    forall i :: Stays(task, sends, i) ==> sends[i].body == Slice(content, task.chunkSize, sends[i].number)
  }

  lemma StaysOnward(task: Task, sends: seq<Send>, k: nat, n: int, body: Content)
    requires k == |sends| - 1 && IsLastBody(task, sends[..k], n, body)
    requires Accepted(task, sends[k]) ==> sends[k].number != n
    ensures IsLastBody(task, sends, n, body)
  {
    var before := sends[..k];
    var i :| Stays(task, before, i) && before[i].number == n && before[i].body == body;
    assert forall j :: 0 <= j < k ==> sends[j] == before[j];
    assert Stays(task, sends, i);
  }

  /** Every part is the last body taken for its number. */
  lemma {:induction false} TakenIsLast(task: Task, sends: seq<Send>)
    ensures forall n :: n in Taken(task, map[], sends) ==> IsLastBody(task, sends, n, Taken(task, map[], sends)[n])
    decreases |sends|
  {
    if sends != [] {
      var k := |sends| - 1;
      TakenIsLast(task, sends[..k]);
      forall n | n in Taken(task, map[], sends)
        ensures IsLastBody(task, sends, n, Taken(task, map[], sends)[n])
      {
        if Accepted(task, sends[k]) && sends[k].number == n {
          assert Stays(task, sends, k);
        } else {
          StaysOnward(task, sends, k, n, Taken(task, map[], sends[..k])[n]);
        }
      }
    }
  }

  lemma {:induction false} TakenHolds(task: Task, sends: seq<Send>, i: int)
    requires 0 <= i < |sends| && Accepted(task, sends[i])
    ensures sends[i].number in Taken(task, map[], sends)
    decreases |sends|
  {
    if i < |sends| - 1 {
      TakenHolds(task, sends[..|sends| - 1], i);
    }
  }

  lemma StayingBodyIsTaken(task: Task, sends: seq<Send>, i: int)
    requires Stays(task, sends, i)
    ensures sends[i].number in Taken(task, map[], sends)
    ensures Taken(task, map[], sends)[sends[i].number] == sends[i].body
  {
    TakenHolds(task, sends, i);
    TakenIsLast(task, sends);
    var n := sends[i].number;
    var j :| Stays(task, sends, j) && sends[j].number == n && sends[j].body == Taken(task, map[], sends)[n];
    assert i == j;
  }

  lemma IsTakenIff(task: Task, sends: seq<Send>, n: int)
    ensures n in Taken(task, map[], sends) <==> IsTaken(task, sends, n)
  {
    if n in Taken(task, map[], sends) {
      TakenIsLast(task, sends);
      assert IsLastBody(task, sends, n, Taken(task, map[], sends)[n]);
    }
    if IsTaken(task, sends, n) {
      var i :| 0 <= i < |sends| && Accepted(task, sends[i]) && sends[i].number == n;
      TakenHolds(task, sends, i);
    }
  }

  /** The server has every chunk exactly when each number was taken at least once,
      and puts the file together exactly when the last bodies taken are its slices,
      whatever the order, the repeats and the refusals. */
  lemma AnyOrderMakesTheFileIff(task: Task, sends: seq<Send>, content: Content)
    requires ValidTask(task) && |content| == task.fileSize
    ensures var parts := Taken(task, map[], sends);
            && (Covers(task, sends) <==> Full(task, parts))
            && 0 <= task.totalChunks
            && (Covers(task, sends) ==>
                  (Concat(PartSeq(parts, task.totalChunks)) == content <==> EndsOnSlices(task, sends, content)))
  {
    TotalChunksCover(task);
    CoversIff(task, sends);
    if Covers(task, sends) {
      SlicesTakenIff(task, sends, content);
      SizesTaken(task, sends);
      WholeIff(task, Taken(task, map[], sends), content);
    }
  }

  lemma CoversIff(task: Task, sends: seq<Send>)
    ensures Covers(task, sends) <==> Full(task, Taken(task, map[], sends))
  {
    var parts := Taken(task, map[], sends);
    forall n | 0 <= n < task.totalChunks
      ensures IsTaken(task, sends, n) <==> n in parts
    {
      IsTakenIff(task, sends, n);
    }
    if Full(task, parts) {
      forall n | 0 <= n < task.totalChunks
        ensures IsTaken(task, sends, n)
      {
        assert n in parts;
      }
    }
  }

  /** A full set of parts makes the file exactly when they are its slices. */
  lemma WholeIff(task: Task, parts: map<int, Content>, content: Content)
    requires ValidTask(task) && |content| == task.fileSize && 0 <= task.totalChunks
    requires Full(task, parts)
    requires forall n :: n in parts ==> 0 <= n < task.totalChunks && |parts[n]| == ExpectedChunkSize(task, n)
    ensures Concat(PartSeq(parts, task.totalChunks)) == content
       <==> forall n :: n in parts ==> parts[n] == Slice(content, task.chunkSize, n)
  {
    ResumedIsTheFileIff(task, parts, content);
    AllSent(parts, Resumed(task, parts, content));
  }

  lemma SizesTaken(task: Task, sends: seq<Send>)
    ensures forall n :: n in Taken(task, map[], sends) ==>
              0 <= n < task.totalChunks && |Taken(task, map[], sends)[n]| == ExpectedChunkSize(task, n)
  {
    TakenIsLast(task, sends);
  }

  lemma SlicesTakenIff(task: Task, sends: seq<Send>, content: Content)
    requires ValidTask(task)
    ensures EndsOnSlices(task, sends, content)
       <==> forall n :: n in Taken(task, map[], sends) ==>
           Taken(task, map[], sends)[n] == Slice(content, task.chunkSize, n)
  {
    var parts := Taken(task, map[], sends);
    TakenIsLast(task, sends);
    forall i | Stays(task, sends, i)
      ensures sends[i].number in parts && parts[sends[i].number] == sends[i].body
    {
      StayingBodyIsTaken(task, sends, i);
    }
  }

  /** The sends, one call each. */
  method SendAll(upload: Upload, sends: seq<Send>)
    requires upload.Valid() && upload.status == Protocol.Uploading && upload.rows == map[] && upload.parts == map[]
    modifies upload`rows, upload`parts
    ensures upload.Valid() && upload.parts == Taken(upload.task, map[], sends) && upload.rows.Keys == upload.parts.Keys
  {
    var i := 0;
    while i < |sends|
      invariant 0 <= i <= |sends| && upload.Valid()
      invariant upload.parts == Taken(upload.task, map[], sends[..i]) && upload.rows.Keys == upload.parts.Keys
    {
      assert sends[..i + 1][..i] == sends[..i];
      var sent := upload.UploadChunk(sends[i].number, sends[i].body);
      i := i + 1;
    }
    assert sends[..i] == sends;
  }

  /** Chunks sent in any order, with any repeats, and completed: the file comes out
      exactly when every number was taken, the last body taken for each is its slice,
      the declared hash is the file's and the save accepts it. */
  method UploadInAnyOrder(upload: Upload, sends: seq<Send>, content: Content, saved: bool)
    returns (r: Result<Content, UploadError>)
    requires upload.Valid() && upload.status == Protocol.Uploading && upload.rows == map[] && upload.parts == map[]
    requires |content| == upload.task.fileSize
    modifies upload
    ensures upload.Valid()
    ensures r == Ok(content) <==>
              && Covers(upload.task, sends) && EndsOnSlices(upload.task, sends, content)
              && (upload.task.fileHash.Some? ==> upload.task.fileHash.value == upload.hash(content))
              && saved
  {
    SendAll(upload, sends);
    AnyOrderMakesTheFileIff(upload.task, sends, content);
    ghost var parts := upload.parts;
    assert upload.Whole(parts) == Concat(PartSeq(parts, upload.task.totalChunks));
    assert parts == Taken(upload.task, map[], sends);
    assert Covers(upload.task, sends) <==> Full(upload.task, parts);
    assert Full(upload.task, parts) <==> forall n :: 0 <= n < upload.task.totalChunks ==> n in upload.rows;
    ghost var rows := upload.rows;
    r := upload.Complete(saved);
    assert upload.rows == rows;
    assert r.Ok? ==> Full(upload.task, parts);
    assert r.Ok? ==> Covers(upload.task, sends) && saved && r.value == upload.Whole(parts);
    assert Covers(upload.task, sends) && EndsOnSlices(upload.task, sends, content) ==> upload.Whole(parts) == content;
  }
}
