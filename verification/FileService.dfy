/** internal/file/service.go: uploads, saves, permanent deletes and usage, as calls
    on the repository, the storage and the usage cache. Storage never fails here;
    ObjectStore interleaves these steps. */
module FileServices {
  import opened Options
  import opened Chunking
  import opened Totals
  import opened Tables
  import opened References
  import opened FileRepositories
  import FileCalls
  import Usage

  /** ListDeletedBefore. */
  function Expired(files: map<FileId, FileRow>, before: Time): set<FileId> {
    set f | f in files && files[f].status == Deleted && files[f].deletedAt.Some? && files[f].deletedAt.value < before
  }

  predicate DeletedBefore(row: FileRow, before: Time) {
    match row.deletedAt
    case Some(at) => row.status == Deleted && at < before
    case None => false
  }

  /** All expired files but those left are gone, and only they. */
  ghost predicate CleanedUp(was: map<FileId, FileRow>, all: set<FileId>, left: set<FileId>,
                            files: map<FileId, FileRow>) {
    left <= all <= was.Keys && files == was - (all - left) && forall f :: f in all ==> was[f].status == Deleted
  }

  lemma OneMoreCleaned(was: map<FileId, FileRow>, all: set<FileId>, left: set<FileId>, files: map<FileId, FileRow>,
                       f: FileId)
    requires CleanedUp(was, all, left, files) && f in left
    ensures f in files && files[f].status == Deleted && CleanedUp(was, all, left - {f}, files - {f})
  {
    assert was - (all - left) - {f} == was - (all - (left - {f}));
  }

  /** The file is the user's, active, in this place and of this name, and all else that
      the object with this hash is. */
  predicate IsFileOfContent(db: Database, f: FileId, user: UserId, parent: Option<FolderId>, name: string,
                            hash: Digest) {
    && f in db.files && db.files[f].objectId in db.objects
    && var kept := db.objects[db.files[f].objectId];
       kept.hash == hash && FileCalls.IsNewRow(db.files[f], kept, user, parent, name, db.files[f].objectId)
  }

  class FileService {
    const repo: FileRepository
    const hash: Content -> Digest
    var stored: map<Path, Content>
    var cache: map<UserId, int>

    constructor (repo: FileRepository, hash: Content -> Digest)
      ensures this.repo == repo && this.hash == hash && stored == map[] && cache == map[]
    {
      this.repo, this.hash := repo, hash;
      stored, cache := map[], map[];
    }

    ghost predicate CacheTrue()
      reads this, repo
    {
      Usage.CacheOk(Usage.State(repo.Db(), cache))
    }

    /** TotalFileSizeByUser and the subtraction-form test. */
    method EnsureStorageQuota(user: UserId, additional: int) returns (allowed: bool)
      ensures allowed == QuotaOk(repo.Db(), user, additional)
    {
      if user !in repo.users {
        return false;
      }
      var used := Sum(SizesOf(repo.files, user));
      var quota := repo.users[user];
      if used > quota || additional > quota - used {
        return false;
      }
      allowed := true;
    }

    method FolderMissing(user: UserId, parent: Option<FolderId>) returns (missing: bool)
      ensures missing == !FolderFound(repo.Db(), user, parent)
    {
      missing := parent.Some? && !(parent.value in repo.folders && repo.folders[parent.value].owner == user);
    }

    /** The object for saved content: an existing one, whose bytes replace the new
        copy, or a new one that takes the copy over. Nobody else is at the tables,
        so the INSERT is not refused and there is no second look. */
    method KeepContent(contentHash: Digest, path: Path, size: int, contentType: string)
      returns (r: Result<Snapshot, DbError>)
      requires repo.Valid() && PathFree(repo.Db(), path) && path in stored
      modifies this`stored, repo
      ensures var before := old(repo.Db());
              var found := FindObject(before, contentHash);
              if found.Some? then r == Ok(found.value) && repo.Db() == before && stored == old(stored) - {path}
              else
                && stored == old(stored)
                && InsertObject(before, contentHash, path, size, contentType) == Some(repo.Db())
                && r == Ok(Snapshot(before.nextObject, ObjectRow(contentHash, path, size, contentType, 0)))
    {
      var found := repo.FindFileObjectByHash(contentHash);
      if found.Some? {
        stored := stored - {path};
        return Ok(found.value);
      }
      r := repo.CreateFileObject(contentHash, path, size, contentType);
    }

    /** An upload from its checks on: the saved content finds its object, and the object
        gets the new file. */
    method KeepAndLink(user: UserId, parent: Option<FolderId>, name: string, contentType: string, contentHash: Digest,
                       size: int, path: Path)
      returns (r: Result<FileId, Usage.CallError>)
      requires repo.Valid() && PathFree(repo.Db(), path) && path in stored
      requires name != "" && FolderFound(repo.Db(), user, parent) && QuotaOk(repo.Db(), user, size)
      modifies this`stored, this`cache, repo
      ensures r.Ok?
      ensures Ok(repo.Db()) == Usage.Upload(old(repo.Db()), user, parent, name, contentType, contentHash, size, path)
      ensures IsFileOfContent(repo.Db(), r.value, user, parent, name, contentHash)
      ensures cache == old(cache) - {user}
      ensures stored == if HasHash(old(repo.Db()), contentHash) then old(stored) - {path} else old(stored)
    {
      var kept := KeepContent(contentHash, path, size, contentType);
      if kept.Err? {
        assert false;
        return Err(Usage.NoSuchObject);
      }
      var linked := repo.CreateWithObjectInFolder(user, parent, name, kept.value);
      if linked.Err? {
        assert false;
        return Err(Usage.Refused(ConstraintViolated));
      }
      cache := cache - {user};
      r := Ok(linked.value);
    }

    /** A new file of the user on new or known content, or nothing changed. */
    method UploadIntoFolder(user: UserId, parent: Option<FolderId>, name: string, contentType: string,
                            content: Content, path: Path)
      returns (r: Result<FileId, Usage.CallError>)
      requires repo.Valid() && PathFree(repo.Db(), path) && path !in stored
      modifies this`stored, this`cache, repo
      ensures r.Ok? ==>
                Ok(repo.Db())
                == Usage.Upload(old(repo.Db()), user, parent, name, contentType, hash(content), |content|, path)
      ensures r.Ok? ==> IsFileOfContent(repo.Db(), r.value, user, parent, name, hash(content))
      ensures r.Ok? ==> cache == old(cache) - {user}
      ensures r.Ok? ==> stored == if HasHash(old(repo.Db()), hash(content)) then old(stored)
                                  else old(stored)[path := content]
      ensures r.Err? ==>
                Usage.Upload(old(repo.Db()), user, parent, name, contentType, hash(content), |content|, path)
                == Err(r.error)
      ensures r.Err? ==> repo.Db() == old(repo.Db()) && stored == old(stored) && cache == old(cache)
    {
      if name == "" {
        return Err(Usage.NameRequired);
      }
      var missing := FolderMissing(user, parent);
      if missing {
        return Err(Usage.NoSuchFolder);
      }
      ghost var storedBefore := stored;
      stored := stored[path := content];
      var allowed := EnsureStorageQuota(user, |content|);
      if !allowed {
        stored := stored - {path};
        assert stored == storedBefore;
        return Err(Usage.OverQuota);
      }
      assert storedBefore[path := content] - {path} == storedBefore;
      r := KeepAndLink(user, parent, name, contentType, hash(content), |content|, path);
    }

    method InstantUploadIntoFolder(user: UserId, parent: Option<FolderId>, name: string, fileHash: Digest)
      returns (r: Result<FileId, Usage.CallError>)
      requires repo.Valid()
      modifies this`cache, repo
      ensures r.Ok? ==> Ok(repo.Db()) == Usage.Instant(old(repo.Db()), user, parent, name, fileHash)
      ensures r.Ok? ==> IsFileOfContent(repo.Db(), r.value, user, parent, name, fileHash)
      ensures r.Ok? ==> cache == old(cache) - {user}
      ensures r.Err? ==> Usage.Instant(old(repo.Db()), user, parent, name, fileHash) == Err(r.error)
      ensures r.Err? ==> repo.Db() == old(repo.Db()) && cache == old(cache)
    {
      if name == "" {
        return Err(Usage.NameRequired);
      }
      if fileHash == "" {
        return Err(Usage.HashRequired);
      }
      var missing := FolderMissing(user, parent);
      if missing {
        return Err(Usage.NoSuchFolder);
      }
      var found := repo.FindFileObjectByHash(fileHash);
      if found.None? {
        return Err(Usage.NoSuchObject);
      }
      var allowed := EnsureStorageQuota(user, found.value.row.size);
      if !allowed {
        return Err(Usage.OverQuota);
      }
      var linked := repo.CreateWithObjectInFolder(user, parent, name, found.value);
      if linked.Err? {
        assert false;
        return Err(Usage.Refused(ConstraintViolated));
      }
      cache := cache - {user};
      r := Ok(linked.value);
    }

    /** The loop that looks every hash up, and stops at the first that fails. */
    method FindInputs(inputs: seq<Usage.Input>) returns (r: Result<seq<NamedObject>, Usage.CallError>)
      requires repo.Valid()
      ensures r == Usage.FindAll(repo.Db(), inputs)
    {
      var items: seq<NamedObject> := [];
      var i := 0;
      while i < |inputs|
        invariant 0 <= i <= |inputs| && Usage.FindAll(repo.Db(), inputs[..i]) == Ok(items)
      {
        assert inputs[..i + 1][..i] == inputs[..i];
        var input := inputs[i];
        var error := None;
        if input.name == "" {
          error := Some(Usage.NameRequired);
        } else if input.hash == "" {
          error := Some(Usage.HashRequired);
        }
        if error.Some? {
          Usage.FindAllFailsFast(repo.Db(), inputs, i + 1);
          return Err(error.value);
        }
        var found := repo.FindFileObjectByHash(input.hash);
        if found.None? {
          Usage.FindAllFailsFast(repo.Db(), inputs, i + 1);
          return Err(Usage.NoSuchObject);
        }
        items := items + [NamedObject(input.name, found.value)];
        i := i + 1;
      }
      assert inputs[..i] == inputs;
      r := Ok(items);
    }

    /** All of a batch or none of it. */
    method InstantUploadManyIntoFolder(user: UserId, parent: Option<FolderId>, inputs: seq<Usage.Input>)
      returns (r: Result<seq<FileId>, Usage.CallError>)
      requires repo.Valid()
      modifies this`cache, repo
      ensures r.Ok? ==> Ok(repo.Db()) == Usage.Batch(old(repo.Db()), user, parent, inputs)
      ensures r.Ok? ==> cache == old(cache) - {user}
      ensures r.Ok? ==> |r.value| == |inputs| && forall i :: 0 <= i < |inputs| ==> r.value[i] == old(repo.nextFile) + i
      ensures r.Err? ==> Usage.Batch(old(repo.Db()), user, parent, inputs) == Err(r.error)
      ensures r.Err? ==> repo.Db() == old(repo.Db()) && cache == old(cache)
    {
      if |inputs| == 0 {
        return Err(Usage.HashRequired);
      }
      var items := FindInputs(inputs);
      if items.Err? {
        return Err(items.error);
      }
      Usage.FoundAll(repo.Db(), inputs);
      if user !in repo.users {
        return Err(Usage.Refused(FileNotFound));
      }
      var created := repo.CreateManyWithObjectsInFolder(user, parent, items.value, repo.users[user]);
      if created.Err? {
        return Err(Usage.Refused(created.error));
      }
      cache := cache - {user};
      r := Ok(created.value);
    }

    /** Rows first, bytes after: the object's and its preview's, when the last
        reference has gone. */
    method PermanentlyDelete(user: UserId, file: FileId) returns (r: Result<(), DbError>)
      requires EveryFileCounted(repo.Db())
      modifies this`stored, this`cache, repo
      ensures r.Ok? <==> PurgeDeleted(old(repo.Db()), user, file).Ok?
      ensures r.Ok? ==> var purged := PurgeDeleted(old(repo.Db()), user, file).value;
                        && repo.Db() == purged.db && cache == old(cache) - {user}
                        && stored == if purged.unreferenced.None? then old(stored)
                                     else old(stored) - {purged.unreferenced.value.path}
                                          - (if purged.unreferenced.value.preview.Some?
                                               then {purged.unreferenced.value.preview.value} else {})
      ensures r.Err? ==> repo.Db() == old(repo.Db()) && stored == old(stored) && cache == old(cache)
    {
      var unreferenced := repo.PermanentlyDeleteDeleted(user, file);
      if unreferenced.Err? {
        return Err(unreferenced.error);
      }
      cache := cache - {user};
      if unreferenced.value.Some? {
        stored := stored - {unreferenced.value.value.path};
        if unreferenced.value.value.preview.Some? {
          stored := stored - {unreferenced.value.value.preview.value};
        }
      }
      r := Ok(());
    }

    /** A trashed file is always deleted for its owner: the count guard is dead. */
    method DeleteTrashed(user: UserId, f: FileId)
      requires repo.Valid() && f in repo.files && repo.files[f].status == Deleted && repo.files[f].owner == user
      modifies this`stored, this`cache, repo
      ensures repo.Valid() && repo.files == old(repo.files) - {f}
    {
      ghost var db := repo.Db();
      CountsCoverFiles(db);
      TrashedGoes(db, user, f);
      var r := PermanentlyDelete(user, f);
    }

    /** CleanupDeletedBefore: the trash loses exactly the files deleted before the
        given time, and nothing else is deleted. */
    method CleanupDeletedBefore(before: Time) returns (cleaned: nat)
      requires repo.Valid()
      modifies this`stored, this`cache, repo
      ensures repo.Valid()
      ensures repo.files == old(repo.files) - Expired(old(repo.files), before)
      ensures forall f :: f in repo.files <==> f in old(repo.files) && !DeletedBefore(old(repo.files[f]), before)
      ensures forall f :: f in repo.files ==> repo.files[f] == old(repo.files[f])
      ensures cleaned == |Expired(old(repo.files), before)|
    {
      var left := Expired(repo.files, before);
      ghost var was, all := repo.files, left;
      cleaned := 0;
      assert was - (all - left) == was;
      while left != {}
        invariant repo.Valid() && CleanedUp(was, all, left, repo.files) && cleaned == |all| - |left|
      {
        var f :| f in left;
        OneMoreCleaned(was, all, left, repo.files, f);
        DeleteTrashed(repo.files[f].owner, f);
        cleaned := cleaned + 1;
        left := left - {f};
      }
    }

    /** GenerateThumbnailForActiveFile: at most one preview per object, and no other
        stored byte changes. Nobody else is at the tables, so the image is never
        discarded. */
    method GenerateThumbnail(file: FileId, image: Option<Content>, path: Path) returns (r: Result<bool, DbError>)
      requires PathFree(repo.Db(), path) && path !in stored
      modifies this`stored, repo`previews
      ensures var found := FindObjectForActiveFile(old(repo.Db()), file);
              r == if found.None? then Err(FileNotFound)
                   else if !SupportsThumbnail(found.value.row.contentType) then Err(ThumbUnsupported)
                   else if found.value.id in old(repo.previews) then Ok(false)
                   else if found.value.row.path !in old(stored) || image.None? then Err(FileObjectNotFound)
                   else Ok(true)
      ensures r == Ok(true) ==>
                var o := FindObjectForActiveFile(old(repo.Db()), file).value.id;
                && InsertPreview(old(repo.Db()), o, path) == Ok(PreviewInsert(repo.Db(), true))
                && stored == old(stored)[path := image.value]
      ensures r != Ok(true) ==> repo.Db() == old(repo.Db()) && stored == old(stored)
    {
      var found := FindObjectForActiveFile(repo.Db(), file);
      if found.None? {
        return Err(FileNotFound);
      }
      if !SupportsThumbnail(found.value.row.contentType) {
        return Err(ThumbUnsupported);
      }
      var o := found.value.id;
      if o in repo.previews {
        return Ok(false);
      }
      if found.value.row.path !in stored || image.None? {
        return Err(FileObjectNotFound);
      }
      stored := stored[path := image.value];
      var created := InsertPreview(repo.Db(), o, path);
      if created.Err? || !created.value.created {
        assert false;
        return Ok(false);
      }
      repo.previews := repo.previews[o := path];
      r := Ok(true);
    }

    /** GetStorageUsage: used, quota and what is left, never negative. */
    method GetStorageUsage(user: UserId) returns (r: Option<(int, int, int)>)
      requires CacheTrue()
      modifies this`cache
      ensures CacheTrue()
      ensures r.Some? <==> user in repo.users
      ensures r.Some? ==> var used, quota := UsedBytes(repo.Db(), user), repo.users[user];
                          r.value == (used, quota, if used <= quota then quota - used else 0)
    {
      if user !in repo.users {
        return None;
      }
      var quota := repo.users[user];
      var used;
      if user in cache {
        used := cache[user];
      } else {
        used := Sum(SizesOf(repo.files, user));
        cache := cache[user := used];
      }
      var available := quota - used;
      if available < 0 {
        available := 0;
      }
      r := Some((used, quota, available));
    }
  }

  lemma TrashedGoes(db: Database, user: UserId, f: FileId)
    requires DbOk(db) && f in db.files && db.files[f].status == Deleted && db.files[f].owner == user
    ensures PurgeDeleted(db, user, f).Ok? && DbOk(PurgeDeleted(db, user, f).value.db)
    ensures PurgeDeleted(db, user, f).value.db.files == db.files - {f}
  {
    PurgeDropsExactlyTheLast(db, user, f);
    PurgeKeeps(db, user, f);
    Usage.PurgeFiles(db, user, f);
  }
}
