/** What each call on files leaves in the tables, row by row: exactly when it is
    accepted, what it changes then, and that it changes nothing else. */
module FileCalls {
  import opened Options
  import opened Chunking
  import opened Tables
  import opened References
  import opened Usage

  predicate IsActiveFile(db: Database, user: UserId, f: FileId) {
    f in db.files && db.files[f].owner == user && db.files[f].status == Active
  }

  predicate IsTrashedFile(db: Database, user: UserId, f: FileId) {
    f in db.files && db.files[f].owner == user && db.files[f].status == Deleted
  }

  ghost predicate OtherFilesKept(db: Database, db': Database, f: FileId) {
    forall x :: x != f ==> (x in db'.files <==> x in db.files) && (x in db.files ==> db'.files[x] == db.files[x])
  }

  ghost predicate OtherObjectsKept(db: Database, db': Database, o: ObjectId) {
    forall x :: x != o ==>
      && (x in db'.objects <==> x in db.objects)
      && (x in db.objects ==> db'.objects[x] == db.objects[x])
  }

  // ---- trash and back ----

  /** A trash happens exactly to the user's own active file. The file's shares go unless
      they are kept, the collections that hold it go, and no other share or collection
      does. */
  lemma TrashedFile(db: Database, user: UserId, f: FileId, keepShares: bool, now: Time)
    ensures var r := SoftDelete(db, user, f, keepShares, now);
            && (r.Ok? <==> IsActiveFile(db, user, f))
            && (r.Ok? ==>
                  var db' := r.value;
                  && db' == db.(files := db'.files, shares := db'.shares, collections := db'.collections)
                  && OtherFilesKept(db, db', f) && f in db'.files
                  && db'.files[f] == db.files[f].(status := Deleted, deletedAt := Some(now))
                  && (forall t :: t in db'.shares <==> t in db.shares && (keepShares || db.shares[t].file != f))
                  && (forall t :: t in db'.shares ==> db'.shares[t] == db.shares[t])
                  && (forall t :: t in db'.collections <==> t in db.collections && f !in db.collections[t].members)
                  && (forall t :: t in db'.collections ==> db'.collections[t] == db.collections[t]))
  {
  }

  /** A restore happens exactly to the user's own trashed file and makes it active. */
  lemma RestoredFile(db: Database, user: UserId, f: FileId)
    ensures var r := Restore(db, user, f);
            && (r.Ok? <==> IsTrashedFile(db, user, f))
            && (r.Ok? ==>
                  && r.value == db.(files := r.value.files) && OtherFilesKept(db, r.value, f) && f in r.value.files
                  && r.value.files[f] == db.files[f].(status := Active, deletedAt := None))
  {
  }

  /** A move and a rename happen exactly to the user's own active file, the move to a
      folder that is there, and change its place or its name and nothing else. */
  lemma MovedOrRenamedFile(db: Database, user: UserId, f: FileId, parent: Option<FolderId>, name: string)
    ensures var r := MoveActive(db, user, f, parent);
            && (r.Ok? <==> IsActiveFile(db, user, f) && (parent.Some? ==> parent.value in db.folders))
            && (r.Ok? ==>
                  && r.value == db.(files := r.value.files) && OtherFilesKept(db, r.value, f) && f in r.value.files
                  && r.value.files[f] == db.files[f].(parent := parent))
    ensures var r := RenameActive(db, user, f, name);
            && (r.Ok? <==> IsActiveFile(db, user, f))
            && (r.Ok? ==>
                  && r.value == db.(files := r.value.files) && OtherFilesKept(db, r.value, f) && f in r.value.files
                  && r.value.files[f] == db.files[f].(name := name))
  {
  }

  // ---- gone for good ----

  /** The object with one reference less, or gone with its preview and its scan. */
  ghost predicate OneReferenceLess(db: Database, db': Database, o: ObjectId, last: bool) {
    && o in db.objects
    && OtherObjectsKept(db, db', o)
    && if last then o !in db'.objects && db'.previews == db.previews - {o} && db'.scans == db.scans - {o}
       else
         && o in db'.objects && db'.objects[o] == db.objects[o].(refs := db.objects[o].refs - 1)
         && db'.previews == db.previews && db'.scans == db.scans
  }

  ghost predicate LastOnObject(db: Database, f: FileId) {
    f in db.files && forall x :: x in db.files && db.files[x].objectId == db.files[f].objectId ==> x == f
  }

  lemma PurgeShape(db: Database, user: UserId, f: FileId)
    requires PurgeDeleted(db, user, f).Ok?
    ensures var db' := PurgeDeleted(db, user, f).value.db;
            && IsTrashedFile(db, user, f) && f !in db'.files && OtherFilesKept(db, db', f)
            && OneReferenceLess(db, db', db.files[f].objectId, db.files[f].objectId !in db'.objects)
            && SharesWithout(db, db', f)
            && db' == db.(files := db'.files, objects := db'.objects, previews := db'.previews, scans := db'.scans,
                          shares := db'.shares, collections := db'.collections)
  {
  }

  /** A permanent delete happens exactly to the user's own trashed file. The file goes,
      with its shares and its places in collections; its object loses one reference,
      and goes with preview and scan exactly when the file was the last on it. Nothing
      else changes. */
  lemma PurgedFile(db: Database, user: UserId, f: FileId)
    requires DbOk(db)
    ensures var r := PurgeDeleted(db, user, f);
            && (r.Ok? <==> IsTrashedFile(db, user, f))
            && (r.Ok? ==>
                  var db' := r.value.db;
                  && f !in db'.files && OtherFilesKept(db, db', f)
                  && OneReferenceLess(db, db', db.files[f].objectId, LastOnObject(db, f))
                  && SharesWithout(db, db', f)
                  && db' == db.(files := db'.files, objects := db'.objects, previews := db'.previews,
                                scans := db'.scans, shares := db'.shares, collections := db'.collections))
  {
    PurgeDropsExactlyTheLast(db, user, f);
    if PurgeDeleted(db, user, f).Ok? {
      PurgeShape(db, user, f);
    }
  }

  ghost predicate SharesWithout(db: Database, db': Database, f: FileId) {
    && (forall t :: t in db'.shares <==> t in db.shares && db.shares[t].file != f)
    && (forall t :: t in db'.shares ==> db'.shares[t] == db.shares[t])
    && (forall t :: t in db'.collections <==> t in db.collections)
    && (forall t :: t in db.collections ==>
          db'.collections[t] == db.collections[t].(members := db.collections[t].members - {f}))
  }

  // ---- new files ----

  /** One more file, active, with this owner, place and name, and all else that is the
      object's; one more reference to the object, and no other change but the object
      itself if it is new. */
  ghost predicate OneMoreFile(db: Database, db': Database, user: UserId, parent: Option<FolderId>, name: string,
                              o: ObjectId) {
    var f := db.nextFile;
    && f in db'.files && db'.nextFile == f + 1 && o in db'.objects
    && OtherFilesKept(db, db', f)
    && OtherObjectsKept(db, db', o)
    && db' == db.(files := db'.files, nextFile := f + 1, objects := db'.objects, nextObject := db'.nextObject)
    && IsNewRow(db'.files[f], db'.objects[o], user, parent, name, o)
  }

  predicate IsNewRow(row: FileRow, kept: ObjectRow, user: UserId, parent: Option<FolderId>, name: string, o: ObjectId) {
    && row.owner == user && row.parent == parent && row.name == name && row.status == Active && row.deletedAt == None
    && row.objectId == o && row.path == kept.path && row.size == kept.size && row.contentType == kept.contentType
  }

  lemma AddedFile(db: Database, user: UserId, parent: Option<FolderId>, name: string, snapshot: Snapshot)
    requires AddReference(db, user, parent, name, snapshot).Ok? && db.nextFile !in db.files
    requires db.objects[snapshot.id] == snapshot.row
    ensures var db' := AddReference(db, user, parent, name, snapshot).value;
            && OneMoreFile(db, db', user, parent, name, snapshot.id) && db'.nextObject == db.nextObject
            && db'.objects[snapshot.id] == snapshot.row.(refs := snapshot.row.refs + 1)
  {
  }

  lemma FreshIds(db: Database)
    requires DbOk(db)
    ensures db.nextFile !in db.files && db.nextObject !in db.objects
  {
  }

  lemma KnownHash(db: Database, hash: Digest, o: ObjectId)
    requires DbOk(db) && o in db.objects && db.objects[o].hash == hash
    ensures FindObject(db, hash) == Some(Snapshot(o, db.objects[o]))
  {
    assert HasHash(db, hash);
  }

  /** The new file is on the object with this hash, which is known and otherwise as it was. */
  ghost predicate OnKnownObject(db: Database, db': Database, user: UserId, parent: Option<FolderId>, name: string,
                                hash: Digest) {
    exists o ::
      && o in db.objects && db.objects[o].hash == hash && OneMoreFile(db, db', user, parent, name, o)
      && db'.nextObject == db.nextObject && db'.objects[o] == db.objects[o].(refs := db.objects[o].refs + 1)
  }

  lemma UploadIsAcceptedIff(db: Database, user: UserId, parent: Option<FolderId>, name: string, contentType: string,
                            hash: Digest, size: int, path: Path)
    ensures Upload(db, user, parent, name, contentType, hash, size, path).Ok?
       <==> name != "" && FolderFound(db, user, parent) && QuotaOk(db, user, size)
  {
  }

  lemma NewObjectFile(db: Database, user: UserId, parent: Option<FolderId>, name: string, row: ObjectRow)
    requires user in db.users && (parent.Some? ==> parent.value in db.folders)
    requires db.nextFile !in db.files && db.nextObject !in db.objects
    ensures var o := db.nextObject;
            var r := AddReference(db.(objects := db.objects[o := row], nextObject := o + 1), user, parent, name,
                                  Snapshot(o, row));
            && r.Ok? && OneMoreFile(db, r.value, user, parent, name, o) && r.value.nextObject == o + 1
            && r.value.objects[o] == row.(refs := row.refs + 1)
  {
  }

  /** An upload is accepted exactly with a name, into an own folder or the root, within
      the quota. It adds one such file, on the object with the content's hash if there
      is one and else on a new object of this path, size and type. */
  lemma UploadedFile(db: Database, user: UserId, parent: Option<FolderId>, name: string, contentType: string,
                     hash: Digest, size: int, path: Path)
    requires DbOk(db)
    ensures var r := Upload(db, user, parent, name, contentType, hash, size, path);
            && (r.Ok? <==> name != "" && FolderFound(db, user, parent) && QuotaOk(db, user, size))
            && (r.Ok? && HasHash(db, hash) ==> OnKnownObject(db, r.value, user, parent, name, hash))
            && (r.Ok? && !HasHash(db, hash) ==>
                  var o := db.nextObject;
                  && OneMoreFile(db, r.value, user, parent, name, o) && r.value.nextObject == o + 1
                  && r.value.objects[o] == ObjectRow(hash, path, size, contentType, 1))
  {
    UploadIsAcceptedIff(db, user, parent, name, contentType, hash, size, path);
    if Upload(db, user, parent, name, contentType, hash, size, path).Ok? {
      FreshIds(db);
      var found := FindObject(db, hash);
      if found.Some? {
        AddedFile(db, user, parent, name, found.value);
      } else {
        NewObjectFile(db, user, parent, name, ObjectRow(hash, path, size, contentType, 0));
      }
    }
  }

  lemma InstantIsAcceptedIff(db: Database, user: UserId, parent: Option<FolderId>, name: string, hash: Digest)
    ensures Instant(db, user, parent, name, hash).Ok?
       <==> && name != "" && hash != "" && FolderFound(db, user, parent) && FindObject(db, hash).Some?
            && QuotaOk(db, user, FindObject(db, hash).value.row.size)
  {
  }

  /** An instant upload is accepted exactly with a name and the hash of an object that is
      there, likewise, and adds one file on that object. */
  lemma InstantFile(db: Database, user: UserId, parent: Option<FolderId>, name: string, hash: Digest)
    requires DbOk(db)
    ensures var r := Instant(db, user, parent, name, hash);
            && (r.Ok? <==>
                  && name != "" && hash != "" && FolderFound(db, user, parent)
                  && exists o :: o in db.objects && db.objects[o].hash == hash && QuotaOk(db, user, db.objects[o].size))
            && (r.Ok? ==> OnKnownObject(db, r.value, user, parent, name, hash))
  {
    InstantIsAcceptedIff(db, user, parent, name, hash);
    if o :| o in db.objects && db.objects[o].hash == hash && QuotaOk(db, user, db.objects[o].size) {
      KnownHash(db, hash, o);
    }
    if Instant(db, user, parent, name, hash).Ok? {
      FreshIds(db);
      AddedFile(db, user, parent, name, FindObject(db, hash).value);
    }
  }

  // ---- batches ----

  lemma {:induction false} FoundInOrder(db: Database, inputs: seq<Input>, i: nat)
    requires DbOk(db) && FindAll(db, inputs).Ok? && i < |inputs|
    ensures |FindAll(db, inputs).value| == |inputs|
    ensures var item := FindAll(db, inputs).value[i];
            && item.name == inputs[i].name && item.snapshot.id in db.objects
            && db.objects[item.snapshot.id] == item.snapshot.row && item.snapshot.row.hash == inputs[i].hash
    decreases |inputs|
  {
    FoundAll(db, inputs);
    FoundAll(db, inputs[..|inputs| - 1]);
    if i < |inputs| - 1 {
      FoundInOrder(db, inputs[..|inputs| - 1], i);
    }
  }

  lemma {:induction false} FindAllIff(db: Database, inputs: seq<Input>)
    ensures FindAll(db, inputs).Ok? <==>
              forall i :: 0 <= i < |inputs| ==>
                inputs[i].name != "" && inputs[i].hash != "" && HasHash(db, inputs[i].hash)
    decreases |inputs|
  {
    if inputs != [] {
      var n := |inputs| - 1;
      FindAllIff(db, inputs[..n]);
      assert forall i :: 0 <= i < n ==> inputs[..n][i] == inputs[i];
    }
  }

  lemma {:induction false} AllReferencesAdded(db: Database, user: UserId, parent: Option<FolderId>,
                                              items: seq<NamedObject>)
    requires user in db.users && (parent.Some? ==> parent.value in db.folders)
    requires forall i :: 0 <= i < |items| ==> items[i].snapshot.id in db.objects
    ensures AddReferences(db, user, parent, items).Ok?
    decreases |items|
  {
    if items != [] {
      AllReferencesAdded(db, user, parent, items[..|items| - 1]);
      AddReferencesShape(db, user, parent, items[..|items| - 1]);
    }
  }

  /** A batch is accepted exactly when it asks for something, each input has a name and
      the hash of an object that is there, the folder is the user's own or the root, and
      the sizes fit beside the active bytes. */
  lemma BatchIsAcceptedIff(db: Database, user: UserId, parent: Option<FolderId>, inputs: seq<Input>)
    ensures Batch(db, user, parent, inputs).Ok? <==>
              && inputs != [] && user in db.users && FolderFound(db, user, parent)
              && (forall i :: 0 <= i < |inputs| ==>
                    inputs[i].name != "" && inputs[i].hash != "" && HasHash(db, inputs[i].hash))
              && FindAll(db, inputs).Ok?
              && QuotaAllows(db.users[user], ActiveBytes(db, user), SizeSum(FindAll(db, inputs).value))
  {
    FindAllIff(db, inputs);
    if FindAll(db, inputs).Ok? && user in db.users && FolderFound(db, user, parent) {
      FoundAll(db, inputs);
      AllReferencesAdded(db, user, parent, FindAll(db, inputs).value);
    }
  }

  /** File i of a batch is a new row for input i on an object with its hash. */
  predicate IsBatchRow(db: Database, row: FileRow, user: UserId, parent: Option<FolderId>, input: Input) {
    && row.objectId in db.objects && db.objects[row.objectId].hash == input.hash
    && IsNewRow(row, db.objects[row.objectId], user, parent, input.name, row.objectId)
  }

  /** An accepted batch adds one file per input, in order, and changes no other file. */
  lemma BatchedFiles(db: Database, user: UserId, parent: Option<FolderId>, inputs: seq<Input>)
    requires DbOk(db) && Batch(db, user, parent, inputs).Ok?
    ensures var db' := Batch(db, user, parent, inputs).value;
            && db'.nextFile == db.nextFile + |inputs|
            && (forall f :: f in db'.files <==> f in db.files || db.nextFile <= f < db.nextFile + |inputs|)
            && (forall f :: f in db.files ==> db'.files[f] == db.files[f])
            && (forall f :: db.nextFile <= f < db.nextFile + |inputs| ==>
                  f in db'.files && IsBatchRow(db, db'.files[f], user, parent, inputs[f - db.nextFile]))
  {
    var items := FindAll(db, inputs).value;
    FoundAll(db, inputs);
    AddReferencesAppend(db, user, parent, items);
    forall i | 0 <= i < |inputs|
      ensures IsBatchRow(db, NewFile(user, parent, items[i].name, items[i].snapshot), user, parent, inputs[i])
    {
      FoundInOrder(db, inputs, i);
    }
    RowsOfItems(db, Batch(db, user, parent, inputs).value, user, parent, inputs, items);
  }

  lemma RowsOfItems(db: Database, db': Database, user: UserId, parent: Option<FolderId>, inputs: seq<Input>,
                    items: seq<NamedObject>)
    requires FilesAppended(db, db', user, parent, items) && |items| == |inputs|
    requires forall i :: 0 <= i < |inputs| ==>
               IsBatchRow(db, NewFile(user, parent, items[i].name, items[i].snapshot), user, parent, inputs[i])
    ensures forall f :: db.nextFile <= f < db.nextFile + |inputs| ==>
              f in db'.files && IsBatchRow(db, db'.files[f], user, parent, inputs[f - db.nextFile])
  {
  }
}
