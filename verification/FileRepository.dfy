/** internal/file/repository.go: the transactions on files and file objects,
    statement by statement on the tables as they stand. A transaction that fails
    rolls back to where it began. */
module FileRepositories {
  import opened Options
  import opened Chunking
  import opened Totals
  import opened Tables
  import opened References
  import ScanGate

  class FileRepository {
    var users: map<UserId, int>
    var objects: map<ObjectId, ObjectRow>
    var files: map<FileId, FileRow>
    var folders: map<FolderId, FolderRow>
    var previews: map<ObjectId, Path>
    var scans: map<ObjectId, ScanStatus>
    var shares: map<Token, ShareRow>
    var collections: map<Token, CollectionRow>
    var nextObject: ObjectId
    var nextFile: FileId

    function Db(): Database
      reads this
    {
      Database(users, objects, files, folders, previews, scans, shares, collections, nextObject, nextFile)
    }

    ghost predicate Valid()
      reads this
    {
      DbOk(Db())
    }

    constructor ()
      ensures Valid() && Db() == EMPTY
    {
      users, objects, files, folders := map[], map[], map[], map[];
      previews, scans, shares, collections := map[], map[], map[], map[];
      nextObject, nextFile := 1, 1;
    }

    method Rollback(db: Database)
      modifies this
      ensures Db() == db
    {
      users, objects, files, folders := db.users, db.objects, db.files, db.folders;
      previews, scans, shares, collections := db.previews, db.scans, db.shares, db.collections;
      nextObject, nextFile := db.nextObject, db.nextFile;
    }

    method FindFileObjectByHash(hash: Digest) returns (r: Option<Snapshot>)
      requires Valid()
      ensures r == FindObject(Db(), hash)
    {
      if o :| o in objects && objects[o].hash == hash {
        r := Some(Snapshot(o, objects[o]));
        assert HasHash(Db(), hash);
      } else {
        r := None;
      }
    }

    /** The unique index on file_hash refuses the INSERT; a SELECT follows. */
    method CreateFileObject(hash: Digest, path: Path, size: int, contentType: string)
      returns (r: Result<Snapshot, DbError>)
      requires Valid() && PathFree(Db(), path)
      modifies this
      ensures Valid()
      ensures r.Ok? <==> !HasHash(old(Db()), hash)
      ensures r.Ok? ==> InsertObject(old(Db()), hash, path, size, contentType) == Some(Db())
      ensures r.Ok? ==> r.value == Snapshot(old(nextObject), ObjectRow(hash, path, size, contentType, 0))
      ensures r.Err? ==> r.error == ConstraintViolated && Db() == old(Db())
    {
      var existing := FindFileObjectByHash(hash);
      if existing.Some? {
        return Err(ConstraintViolated);
      }
      InsertObjectKeeps(Db(), hash, path, size, contentType);
      objects := objects[nextObject := ObjectRow(hash, path, size, contentType, 0)];
      nextObject := nextObject + 1;
      assert nextObject - 1 in objects;
      var found := FindFileObjectByHash(hash);
      if found.None? {
        assert false;
        return Err(ConstraintViolated);
      }
      r := Ok(found.value);
    }

    /** INSERT INTO user_files with its foreign keys. */
    method InsertUserFile(user: UserId, parent: Option<FolderId>, name: string, snapshot: Snapshot) returns (ok: bool)
      modifies this`files, this`nextFile
      ensures ok <==> user in users && snapshot.id in objects && (parent.Some? ==> parent.value in folders)
      ensures ok ==> files == old(files)[old(nextFile) := NewFile(user, parent, name, snapshot)]
      ensures ok ==> nextFile == old(nextFile) + 1
      ensures !ok ==> files == old(files) && nextFile == old(nextFile)
    {
      ok := user in users && snapshot.id in objects && (parent.None? || parent.value in folders);
      if ok {
        files := files[nextFile := NewFile(user, parent, name, snapshot)];
        nextFile := nextFile + 1;
      }
    }

    /** UPDATE file_objects SET reference_count = reference_count + 1. */
    method IncrementReferences(o: ObjectId) returns (affected: nat)
      modifies this`objects
      ensures affected == if o in old(objects) then 1 else 0
      ensures objects == if o in old(objects) then old(objects)[o := old(objects)[o].(refs := old(objects)[o].refs + 1)]
                         else old(objects)
    {
      affected := 0;
      if o in objects {
        objects := objects[o := objects[o].(refs := objects[o].refs + 1)];
        affected := 1;
      }
    }

    /** Both statements of one new reference. */
    method InsertReference(user: UserId, parent: Option<FolderId>, name: string, snapshot: Snapshot)
      returns (error: Option<DbError>)
      modifies this`files, this`nextFile, this`objects
      ensures error.None? ==> Ok(Db()) == AddReference(old(Db()), user, parent, name, snapshot)
      ensures error.Some? ==> AddReference(old(Db()), user, parent, name, snapshot) == Err(error.value)
    {
      var inserted := InsertUserFile(user, parent, name, snapshot);
      if !inserted {
        return Some(ConstraintViolated);
      }
      var affected := IncrementReferences(snapshot.id);
      if affected != 1 {
        assert false;
        return Some(FileObjectNotFound);
      }
      error := None;
    }

    method CreateWithObjectInFolder(user: UserId, parent: Option<FolderId>, name: string, snapshot: Snapshot)
      returns (r: Result<FileId, DbError>)
      modifies this
      ensures r.Ok? ==> Ok(Db()) == AddReference(old(Db()), user, parent, name, snapshot) && r.value == old(nextFile)
      ensures r.Err? ==> Db() == old(Db()) && AddReference(Db(), user, parent, name, snapshot) == Err(r.error)
    {
      var before := Db();
      var error := InsertReference(user, parent, name, snapshot);
      if error.Some? {
        Rollback(before);
        return Err(error.value);
      }
      r := Ok(nextFile - 1);
    }

    /** SELECT COALESCE(SUM(size), 0) over the user's active files. */
    method SumActive(user: UserId) returns (total: int)
      ensures total == ActiveBytes(Db(), user)
    {
      total := Sum(ActiveSizesOf(files, user));
    }

    method SumSizes(items: seq<NamedObject>) returns (total: int)
      ensures total == SizeSum(items)
    {
      var i := 0;
      total := 0;
      while i < |items|
        invariant 0 <= i <= |items| && total == SizeSum(items[..i])
      {
        assert items[..i + 1][..i] == items[..i];
        total := total + items[i].snapshot.row.size;
        i := i + 1;
      }
      assert items[..i] == items;
    }

    /** The insert loop, up to the first row that fails. */
    method InsertReferences(user: UserId, parent: Option<FolderId>, items: seq<NamedObject>)
      returns (ids: seq<FileId>, error: Option<DbError>)
      modifies this`files, this`nextFile, this`objects
      ensures error.None? ==> Ok(Db()) == AddReferences(old(Db()), user, parent, items)
      ensures error.None? ==> |ids| == |items| && forall k :: 0 <= k < |ids| ==> ids[k] == old(nextFile) + k
      ensures error.Some? ==> AddReferences(old(Db()), user, parent, items) == Err(error.value)
    {
      ids := [];
      var before := Db();
      var i := 0;
      while i < |items|
        invariant 0 <= i <= |items| && |ids| == i && forall k :: 0 <= k < i ==> ids[k] == before.nextFile + k
        invariant AddReferences(before, user, parent, items[..i]) == Ok(Db())
        invariant nextFile == before.nextFile + i
      {
        assert items[..i + 1][..i] == items[..i];
        error := InsertReference(user, parent, items[i].name, items[i].snapshot);
        if error.Some? {
          AddReferencesFailFast(before, user, parent, items, i + 1);
          return;
        }
        ids := ids + [nextFile - 1];
        i := i + 1;
      }
      assert items[..i] == items;
      error := None;
    }

    /** All rows of a batch, or none. */
    method CreateManyWithObjectsInFolder(user: UserId, parent: Option<FolderId>, items: seq<NamedObject>, quota: int)
      returns (r: Result<seq<FileId>, DbError>)
      modifies this
      ensures r.Ok? ==> Ok(Db()) == CreateMany(old(Db()), user, parent, items, quota)
      ensures r.Ok? ==> |r.value| == |items| && forall i :: 0 <= i < |items| ==> r.value[i] == old(nextFile) + i
      ensures r.Err? ==> Db() == old(Db()) && CreateMany(Db(), user, parent, items, quota) == Err(r.error)
    {
      if |items| == 0 {
        return Err(FileObjectNotFound);
      }
      var before := Db();
      if user !in users {
        return Err(FileNotFound);
      }
      if parent.Some? && !(parent.value in folders && folders[parent.value].owner == user) {
        return Err(FolderNotFound);
      }
      var used := SumActive(user);
      var additional := SumSizes(items);
      if used > quota || additional > quota - used {
        return Err(StorageQuotaExceeded);
      }
      var ids, error := InsertReferences(user, parent, items);
      if error.Some? {
        Rollback(before);
        return Err(error.value);
      }
      r := Ok(ids);
    }

    method SoftDeleteWithShareOption(user: UserId, file: FileId, keepShares: bool, now: Time)
      returns (r: Result<(), DbError>)
      modifies this`files, this`shares, this`collections
      ensures r.Ok? ==> Ok(Db()) == SoftDelete(old(Db()), user, file, keepShares, now)
      ensures r.Err? ==> Db() == old(Db()) && SoftDelete(Db(), user, file, keepShares, now) == Err(r.error)
    {
      if !(file in files && files[file].owner == user && files[file].status == Active) {
        return Err(FileNotFound);
      }
      files := files[file := files[file].(status := Deleted, deletedAt := Some(now))];
      // Fired by the change of status.
      collections := WithoutCollectionsOf(collections, file);
      if !keepShares {
        shares := WithoutSharesOf(shares, file);
      }
      r := Ok(());
    }

    method RestoreFile(user: UserId, file: FileId) returns (r: Result<(), DbError>)
      modifies this`files
      ensures r.Ok? ==> Ok(Db()) == Restore(old(Db()), user, file)
      ensures r.Err? ==> Db() == old(Db()) && Restore(Db(), user, file) == Err(r.error)
    {
      if !(file in files && files[file].owner == user && files[file].status == Deleted) {
        return Err(FileNotFound);
      }
      files := files[file := files[file].(status := Active, deletedAt := None)];
      r := Ok(());
    }

    // ---- scans ----

    /** CreatePendingFileScan: the row that is there stays, and is read back. */
    method CreatePendingFileScan(o: ObjectId) returns (r: Result<ScanStatus, DbError>)
      modifies this`scans
      ensures r.Ok? <==> ScanGate.InsertScan(old(Db()), o).Some?
      ensures r.Ok? ==> Some(Db()) == ScanGate.InsertScan(old(Db()), o) && r.value == scans[o]
      ensures r.Err? ==> Db() == old(Db())
    {
      if o !in objects {
        return Err(ConstraintViolated);
      }
      if o !in scans {
        scans := scans[o := Pending];
      }
      r := Ok(scans[o]);
    }

    /** ClaimFileScan: only a pending or failed scan is claimed. */
    method ClaimFileScan(o: ObjectId) returns (claimed: bool)
      modifies this`scans
      ensures claimed == ScanGate.CanClaim(old(Db()), o)
      ensures scans == if claimed then old(scans)[o := Scanning] else old(scans)
    {
      claimed := o in scans && (scans[o] == Pending || scans[o] == ScanFailed);
      if claimed {
        scans := scans[o := Scanning];
      }
    }

    /** CompleteFileScan and FailFileScan: only a running scan takes an outcome. */
    method FinishFileScan(o: ObjectId, outcome: ScanStatus) returns (updated: bool)
      modifies this`scans
      ensures updated <==> ScanGate.FinishScan(old(Db()), o, outcome).Some?
      ensures Db() == if updated then ScanGate.FinishScan(old(Db()), o, outcome).value else old(Db())
    {
      updated := o in scans && scans[o] == Scanning;
      if updated {
        scans := scans[o := outcome];
      }
    }

    /** UPDATE ... SET reference_count = reference_count - 1 WHERE reference_count > 0. */
    method DecrementReferences(o: ObjectId) returns (remaining: Option<int>)
      modifies this`objects
      ensures remaining.Some? <==> o in old(objects) && old(objects)[o].refs > 0
      ensures remaining.Some? ==> remaining.value == old(objects)[o].refs - 1
      ensures remaining.Some? ==> objects == old(objects)[o := old(objects)[o].(refs := remaining.value)]
      ensures remaining.None? ==> objects == old(objects)
    {
      if o in objects && objects[o].refs > 0 {
        objects := objects[o := objects[o].(refs := objects[o].refs - 1)];
        return Some(objects[o].refs);
      }
      remaining := None;
    }

    /** Reads the preview and deletes the object; preview and scan rows cascade. */
    method DeleteFileObject(o: ObjectId) returns (preview: Option<Path>)
      modifies this`objects, this`previews, this`scans
      ensures preview == if o in old(previews) then Some(old(previews)[o]) else None
      ensures objects == old(objects) - {o} && previews == old(previews) - {o} && scans == old(scans) - {o}
    {
      preview := if o in previews then Some(previews[o]) else None;
      objects, previews, scans := objects - {o}, previews - {o}, scans - {o};
    }

    /** Deletes the file row with its shares and its places in collections. */
    method DeleteUserFile(file: FileId)
      modifies this`shares, this`files, this`collections
      ensures shares == WithoutSharesOf(old(shares), file) && files == old(files) - {file}
      ensures collections == WithoutMember(old(collections), file)
    {
      shares := WithoutSharesOf(shares, file);
      files := files - {file};
      collections := WithoutMember(collections, file);
    }

    /** The row guards of this transaction are dead: with exact counts it
        succeeds on every file in its owner's trash. */
    method PermanentlyDeleteDeleted(user: UserId, file: FileId) returns (r: Result<Option<Unreferenced>, DbError>)
      requires EveryFileCounted(Db())
      modifies this
      ensures r.Ok? ==> PurgeDeleted(old(Db()), user, file) == Ok(Purged(Db(), r.value))
      ensures r.Err? ==> r.error == FileNotFound && Db() == old(Db())
      ensures r.Ok? <==> file in old(files) && old(files)[file].owner == user && old(files)[file].status == Deleted
    {
      ghost var before := Db();
      if !(file in files && files[file].owner == user && files[file].status == Deleted
          && files[file].objectId in objects) {
        return Err(FileNotFound);
      }
      var o := files[file].objectId;
      var path := objects[o].path;
      DeleteUserFile(file);
      var remaining := DecrementReferences(o);
      if remaining.None? {
        assert false;
        return Err(FileObjectNotFound);
      }
      if remaining.value > 0 {
        return Ok(None);
      }
      assert objects - {o} == before.objects - {o};
      var preview := DeleteFileObject(o);
      r := Ok(Some(Unreferenced(path, preview)));
    }
  }

  /** A batch fails when one of its rows does. */
  lemma {:induction false} AddReferencesFailFast(db: Database, user: UserId, parent: Option<FolderId>,
                                                 items: seq<NamedObject>, n: nat)
    requires n <= |items| && AddReferences(db, user, parent, items[..n]).Err?
    ensures AddReferences(db, user, parent, items) == AddReferences(db, user, parent, items[..n])
    decreases |items|
  {
    if n < |items| {
      var before := items[..|items| - 1];
      assert before[..n] == items[..n];
      AddReferencesFailFast(db, user, parent, before, n);
    } else {
      assert items[..n] == items;
    }
  }
}
