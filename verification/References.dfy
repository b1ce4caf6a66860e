/** What the file tables keep whatever is done to them: unique hashes and paths,
    files that agree with their objects, and exact reference counts. */
module References {
  import opened Options
  import opened Chunking
  import opened Tables

  type Objects = map<ObjectId, ObjectRow>
  type Files = map<FileId, FileRow>
  type Previews = map<ObjectId, Path>

  ghost function RefSet(files: Files, o: ObjectId): set<FileId> {
    set f | f in files && files[f].objectId == o
  }

  ghost predicate CountsOk(objects: Objects, files: Files) {
    forall o :: o in objects ==> objects[o].refs == |RefSet(files, o)|
  }

  ghost predicate IdsOk(objects: Objects, nextObject: ObjectId) {
    forall o :: o in objects ==> o < nextObject
  }

  /** The unique index on file_hash. */
  ghost predicate HashesOk(objects: Objects) {
    forall o, o' :: o in objects && o' in objects && o != o' ==> objects[o].hash != objects[o'].hash
  }

  ghost predicate PathsOk(objects: Objects) {
    forall o, o' :: o in objects && o' in objects && o != o' ==> objects[o].path != objects[o'].path
  }

  ghost predicate PreviewsOk(objects: Objects, previews: Previews) {
    && (forall o :: o in previews ==> o in objects)
    && (forall o, o' :: o in previews && o' in previews && o != o' ==> previews[o] != previews[o'])
    && (forall o, o' :: o in previews && o' in objects ==> previews[o] != objects[o'].path)
  }

  ghost predicate FileAgrees(objects: Objects, row: FileRow) {
    && row.objectId in objects
    && row.path == objects[row.objectId].path
    && row.size == objects[row.objectId].size
    && row.contentType == objects[row.objectId].contentType
  }

  ghost predicate FilesOk(objects: Objects, files: Files, nextFile: FileId) {
    forall f :: f in files ==> f < nextFile && FileAgrees(objects, files[f])
  }

  ghost predicate DbOk(db: Database) {
    && IdsOk(db.objects, db.nextObject)
    && HashesOk(db.objects)
    && PathsOk(db.objects)
    && PreviewsOk(db.objects, db.previews)
    && FilesOk(db.objects, db.files, db.nextFile)
    && CountsOk(db.objects, db.files)
  }

  /** A snapshot is stale in its count at most: ids are never reused and the
      other columns of an object never change. */
  ghost predicate SnapshotOk(db: Database, s: Snapshot) {
    && s.id < db.nextObject
    && (s.id in db.objects ==> db.objects[s.id] == s.row.(refs := db.objects[s.id].refs))
  }

  ghost function ObjectPaths(objects: Objects): set<Path> {
    set o | o in objects :: objects[o].path
  }

  ghost function PreviewPaths(previews: Previews): set<Path> {
    set o | o in previews :: previews[o]
  }

  /** The storage paths the tables name. */
  ghost function RowPaths(objects: Objects, previews: Previews): set<Path> {
    ObjectPaths(objects) + PreviewPaths(previews)
  }

  ghost predicate PathFree(db: Database, path: Path) {
    path !in RowPaths(db.objects, db.previews)
  }

  lemma SamePaths(objects: Objects, objects': Objects, previews: Previews)
    requires OnlyCountsDiffer(objects, objects')
    ensures RowPaths(objects', previews) == RowPaths(objects, previews)
  {
    assert forall o :: o in objects ==> objects'[o].path == objects[o].path;
    assert forall p :: p in ObjectPaths(objects) <==> p in ObjectPaths(objects');
  }

  lemma NewPath(objects: Objects, previews: Previews, next: ObjectId, row: ObjectRow)
    requires next !in objects
    ensures RowPaths(objects[next := row], previews) == RowPaths(objects, previews) + {row.path}
  {
    var objects' := objects[next := row];
    forall p
      ensures p in ObjectPaths(objects') <==> p in ObjectPaths(objects) || p == row.path
    {
      if p == row.path { assert next in objects' && objects'[next].path == p; }
      if x :| x in objects && objects[x].path == p { assert x in objects' && objects'[x].path == p; }
    }
  }

  lemma NewPreviewPath(objects: Objects, previews: Previews, o: ObjectId, path: Path)
    requires o !in previews
    ensures RowPaths(objects, previews[o := path]) == RowPaths(objects, previews) + {path}
  {
    var previews' := previews[o := path];
    forall p
      ensures p in PreviewPaths(previews') <==> p in PreviewPaths(previews) || p == path
    {
      if p == path { assert o in previews' && previews'[o] == p; }
      if x :| x in previews && previews[x] == p { assert x in previews' && previews'[x] == p; }
    }
  }

  ghost function PreviewPath(previews: Previews, o: ObjectId): set<Path> {
    if o in previews then {previews[o]} else {}
  }

  lemma DroppedPaths(objects: Objects, previews: Previews, o: ObjectId)
    requires PathsOk(objects) && PreviewsOk(objects, previews) && o in objects
    ensures objects[o].path in RowPaths(objects, previews) && PreviewPath(previews, o) <= RowPaths(objects, previews)
    ensures RowPaths(objects - {o}, previews - {o})
            == RowPaths(objects, previews) - {objects[o].path} - PreviewPath(previews, o)
  {
    var objects', previews' := objects - {o}, previews - {o};
    forall p | p in RowPaths(objects, previews) && p != objects[o].path && p !in PreviewPath(previews, o)
      ensures p in RowPaths(objects', previews')
    {
      if x :| x in objects && objects[x].path == p {
        assert x in objects' && objects'[x].path == p;
      } else {
        var y :| y in previews && previews[y] == p;
        assert y in previews' && previews'[y] == p;
      }
    }
    forall p | p in RowPaths(objects', previews')
      ensures p in RowPaths(objects, previews) && p != objects[o].path && p !in PreviewPath(previews, o)
    {
      if x :| x in objects' && objects'[x].path == p {
        assert x in objects && x != o && objects[x].path == p;
      } else {
        var y :| y in previews' && previews'[y] == p;
        assert y in previews && y != o && previews[y] == p;
      }
    }
  }

  /** The same objects with other counts. */
  ghost predicate OnlyCountsDiffer(objects: Objects, objects': Objects) {
    && objects'.Keys == objects.Keys
    && forall o :: o in objects ==> objects'[o] == objects[o].(refs := objects'[o].refs)
  }

  lemma OnlyCountsKeep(objects: Objects, objects': Objects, previews: Previews, nextObject: ObjectId)
    requires OnlyCountsDiffer(objects, objects')
    requires IdsOk(objects, nextObject) && HashesOk(objects) && PathsOk(objects) && PreviewsOk(objects, previews)
    ensures IdsOk(objects', nextObject) && HashesOk(objects') && PathsOk(objects') && PreviewsOk(objects', previews)
  {
  }

  lemma InsertObjectKeeps(db: Database, hash: Digest, path: Path, size: int, contentType: string)
    requires DbOk(db) && PathFree(db, path) && !HasHash(db, hash)
    ensures DbOk(InsertObject(db, hash, path, size, contentType).value)
  {
    var row := ObjectRow(hash, path, size, contentType, 0);
    NewRowKeeps(db.objects, db.previews, db.nextObject, row);
    NewRowUnreferenced(db.objects, db.files, db.nextObject, db.nextFile, row);
  }

  lemma NewRowKeeps(objects: Objects, previews: Previews, next: ObjectId, row: ObjectRow)
    requires IdsOk(objects, next) && HashesOk(objects) && PathsOk(objects) && PreviewsOk(objects, previews)
    requires forall o :: o in objects ==> objects[o].hash != row.hash && objects[o].path != row.path
    requires forall o :: o in previews ==> previews[o] != row.path
    ensures var objects' := objects[next := row];
            IdsOk(objects', next + 1) && HashesOk(objects') && PathsOk(objects') && PreviewsOk(objects', previews)
  {
  }

  lemma NewRowUnreferenced(objects: Objects, files: Files, next: ObjectId, nextFile: FileId, row: ObjectRow)
    requires IdsOk(objects, next) && FilesOk(objects, files, nextFile) && CountsOk(objects, files) && row.refs == 0
    ensures FilesOk(objects[next := row], files, nextFile) && CountsOk(objects[next := row], files)
  {
    forall f | f in files
      ensures FileAgrees(objects[next := row], files[f]) && files[f].objectId != next
    {
      assert FileAgrees(objects, files[f]);
    }
    assert RefSet(files, next) == {};
  }

  lemma AddReferenceKeeps(db: Database, user: UserId, parent: Option<FolderId>, name: string, snapshot: Snapshot)
    requires DbOk(db) && SnapshotOk(db, snapshot)
    requires AddReference(db, user, parent, name, snapshot).Ok?
    ensures DbOk(AddReference(db, user, parent, name, snapshot).value)
    ensures OnlyCountsDiffer(db.objects, AddReference(db, user, parent, name, snapshot).value.objects)
  {
    var db' := AddReference(db, user, parent, name, snapshot).value;
    OnlyCountsKeep(db.objects, db'.objects, db.previews, db.nextObject);
    OneMoreReference(db.objects, db.files, db.nextFile, NewFile(user, parent, name, snapshot));
  }

  lemma OneMoreReference(objects: Objects, files: Files, next: FileId, row: FileRow)
    requires FilesOk(objects, files, next) && CountsOk(objects, files) && FileAgrees(objects, row)
    ensures var o := row.objectId;
            var objects' := objects[o := objects[o].(refs := objects[o].refs + 1)];
            CountsOk(objects', files[next := row]) && FilesOk(objects', files[next := row], next + 1)
  {
    var o := row.objectId;
    var objects' := objects[o := objects[o].(refs := objects[o].refs + 1)];
    CountsAfterInsert(objects, files, next, row);
    forall f | f in files
      ensures f < next && FileAgrees(objects', files[f])
    {
      assert FileAgrees(objects, files[f]);
    }
  }

  lemma RefSetWith(files: Files, next: FileId, row: FileRow, o: ObjectId)
    requires next !in files
    ensures |RefSet(files[next := row], o)| == |RefSet(files, o)| + (if row.objectId == o then 1 else 0)
  {
    var before := RefSet(files, o);
    var after := RefSet(files[next := row], o);
    assert next !in before;
    assert forall f :: f in after ==> f == next || f in before;
    assert before <= after;
    assert next in after <==> row.objectId == o;
    assert after == if row.objectId == o then before + {next} else before;
  }

  lemma CountsAfterInsert(objects: Objects, files: Files, next: FileId, row: FileRow)
    requires CountsOk(objects, files) && row.objectId in objects && next !in files
    ensures var o := row.objectId;
            CountsOk(objects[o := objects[o].(refs := objects[o].refs + 1)], files[next := row])
  {
    var o := row.objectId;
    var objects' := objects[o := objects[o].(refs := objects[o].refs + 1)];
    forall p | p in objects'
      ensures objects'[p].refs == |RefSet(files[next := row], p)|
    {
      RefSetWith(files, next, row, p);
    }
  }

  ghost predicate SnapshotsOk(db: Database, items: seq<NamedObject>) {
    forall i :: 0 <= i < |items| ==> SnapshotOk(db, items[i].snapshot)
  }

  /** The files a batch adds: one per item, in order, and nothing else. */
  ghost predicate FilesAppended(db: Database, db': Database, user: UserId, parent: Option<FolderId>,
                                items: seq<NamedObject>) {
    && db'.nextFile == db.nextFile + |items|
    && (forall f :: f in db'.files <==> f in db.files || db.nextFile <= f < db'.nextFile)
    && (forall f :: f in db.files && f < db.nextFile ==> db'.files[f] == db.files[f])
    && (forall f :: db.nextFile <= f < db'.nextFile ==>
          f in db'.files
          && db'.files[f] == NewFile(user, parent, items[f - db.nextFile].name, items[f - db.nextFile].snapshot))
  }

  /** The batch insert touches files, their next id and the counts only. */
  lemma {:induction false} AddReferencesShape(db: Database, user: UserId, parent: Option<FolderId>,
                                              items: seq<NamedObject>)
    requires AddReferences(db, user, parent, items).Ok?
    ensures var db' := AddReferences(db, user, parent, items).value;
            && db' == db.(files := db'.files, nextFile := db'.nextFile, objects := db'.objects)
            && OnlyCountsDiffer(db.objects, db'.objects)
    decreases |items|
  {
    if items != [] {
      AddReferencesShape(db, user, parent, items[..|items| - 1]);
    }
  }

  lemma SnapshotSurvives(db: Database, db': Database, s: Snapshot)
    requires SnapshotOk(db, s) && OnlyCountsDiffer(db.objects, db'.objects) && db'.nextObject == db.nextObject
    ensures SnapshotOk(db', s)
  {
  }

  /** The batch insert keeps the counts exact, whether or not it names one
      object several times. */
  lemma {:induction false} AddReferencesKeep(db: Database, user: UserId, parent: Option<FolderId>,
                                             items: seq<NamedObject>)
    requires DbOk(db) && SnapshotsOk(db, items) && AddReferences(db, user, parent, items).Ok?
    ensures DbOk(AddReferences(db, user, parent, items).value)
    decreases |items|
  {
    if items != [] {
      var before := items[..|items| - 1];
      AddReferencesKeep(db, user, parent, before);
      AddReferencesShape(db, user, parent, before);
      var mid := AddReferences(db, user, parent, before).value;
      var last := items[|items| - 1];
      SnapshotSurvives(db, mid, last.snapshot);
      AddReferenceKeeps(mid, user, parent, last.name, last.snapshot);
    }
  }

  /** Its new rows are one per item, in order, and it changes no other row. */
  lemma {:induction false} AddReferencesAppend(db: Database, user: UserId, parent: Option<FolderId>,
                                               items: seq<NamedObject>)
    requires (forall f :: f in db.files ==> f < db.nextFile) && AddReferences(db, user, parent, items).Ok?
    ensures FilesAppended(db, AddReferences(db, user, parent, items).value, user, parent, items)
    decreases |items|
  {
    if items != [] {
      var before := items[..|items| - 1];
      AddReferencesAppend(db, user, parent, before);
      AppendOne(db, AddReferences(db, user, parent, before).value, user, parent, before, items[|items| - 1]);
      assert before + [items[|items| - 1]] == items;
    }
  }

  lemma AppendOne(db: Database, mid: Database, user: UserId, parent: Option<FolderId>, before: seq<NamedObject>,
                  last: NamedObject)
    requires FilesAppended(db, mid, user, parent, before)
    requires AddReference(mid, user, parent, last.name, last.snapshot).Ok?
    requires forall f :: f in db.files ==> f < db.nextFile
    ensures FilesAppended(db, AddReference(mid, user, parent, last.name, last.snapshot).value, user, parent,
                          before + [last])
  {
  }

  /** Status, name and folder updates touch no reference. */
  lemma UpdateFileKeeps(objects: Objects, files: Files, next: FileId, file: FileId, row: FileRow)
    requires FilesOk(objects, files, next) && CountsOk(objects, files) && file in files
    requires row.objectId == files[file].objectId && row.path == files[file].path && row.size == files[file].size
    requires row.contentType == files[file].contentType
    ensures FilesOk(objects, files[file := row], next) && CountsOk(objects, files[file := row])
  {
    forall o | o in objects
      ensures RefSet(files[file := row], o) == RefSet(files, o)
    {
    }
    assert FileAgrees(objects, files[file]);
  }

  lemma OneFileUpdateKeeps(db: Database, db': Database, file: FileId)
    requires DbOk(db) && file in db.files && file in db'.files && db'.files == db.files[file := db'.files[file]]
    requires db'.objects == db.objects && db'.previews == db.previews
    requires db'.nextObject == db.nextObject && db'.nextFile == db.nextFile
    requires var row, row' := db.files[file], db'.files[file];
             && row'.objectId == row.objectId && row'.path == row.path && row'.size == row.size
             && row'.contentType == row.contentType
    ensures DbOk(db')
  {
    UpdateFileKeeps(db.objects, db.files, db.nextFile, file, db'.files[file]);
  }

  lemma FileUpdatesKeep(db: Database, user: UserId, file: FileId, keepShares: bool, now: Time, parent: Option<FolderId>,
                        name: string)
    requires DbOk(db)
    ensures SoftDelete(db, user, file, keepShares, now).Ok? ==> DbOk(SoftDelete(db, user, file, keepShares, now).value)
    ensures Restore(db, user, file).Ok? ==> DbOk(Restore(db, user, file).value)
    ensures MoveActive(db, user, file, parent).Ok? ==> DbOk(MoveActive(db, user, file, parent).value)
    ensures RenameActive(db, user, file, name).Ok? ==> DbOk(RenameActive(db, user, file, name).value)
  {
    var trashed, restored := SoftDelete(db, user, file, keepShares, now), Restore(db, user, file);
    var moved, renamed := MoveActive(db, user, file, parent), RenameActive(db, user, file, name);
    if trashed.Ok? { OneFileUpdateKeeps(db, trashed.value, file); }
    if restored.Ok? { OneFileUpdateKeeps(db, restored.value, file); }
    if moved.Ok? { OneFileUpdateKeeps(db, moved.value, file); }
    if renamed.Ok? { OneFileUpdateKeeps(db, renamed.value, file); }
  }

  lemma RefSetWithout(files: Files, file: FileId, o: ObjectId)
    requires file in files
    ensures RefSet(files - {file}, o) == RefSet(files, o) - {file}
    ensures |RefSet(files - {file}, o)| == |RefSet(files, o)| - (if files[file].objectId == o then 1 else 0)
  {
    assert file in RefSet(files, o) <==> files[file].objectId == o;
  }

  /** One reference fewer, or the last one gone with its object. */
  lemma OneLessReference(objects: Objects, files: Files, next: FileId, file: FileId, objects': Objects)
    requires FilesOk(objects, files, next) && CountsOk(objects, files) && file in files
    requires var o := files[file].objectId;
             o in objects && objects' == if objects[o].refs > 1
                                           then objects[o := objects[o].(refs := objects[o].refs - 1)]
                                           else objects - {o}
    ensures FilesOk(objects', files - {file}, next) && CountsOk(objects', files - {file})
  {
    var o := files[file].objectId;
    var files' := files - {file};
    RefSetWithout(files, file, o);
    forall p | p in objects'
      ensures objects'[p].refs == |RefSet(files', p)|
    {
      RefSetWithout(files, file, p);
    }
    forall f | f in files'
      ensures f < next && FileAgrees(objects', files'[f])
    {
      assert FileAgrees(objects, files[f]);
      assert files[f].objectId == o ==> f in RefSet(files', o);
    }
  }

  lemma PurgeKeeps(db: Database, user: UserId, file: FileId)
    requires DbOk(db) && PurgeDeleted(db, user, file).Ok?
    ensures DbOk(PurgeDeleted(db, user, file).value.db)
  {
    var db' := PurgeDeleted(db, user, file).value.db;
    OneLessReference(db.objects, db.files, db.nextFile, file, db'.objects);
    if db.files[file].objectId in db'.objects {
      OnlyCountsKeep(db.objects, db'.objects, db.previews, db.nextObject);
    }
  }

  /** The reference guard of a permanent delete never fails: it succeeds on
      every file in its owner's trash, and drops the object row exactly when no
      other file is left on it. */
  lemma PurgeDropsExactlyTheLast(db: Database, user: UserId, file: FileId)
    requires DbOk(db)
    ensures PurgeDeleted(db, user, file).Ok?
       <==> file in db.files && db.files[file].owner == user && db.files[file].status == Deleted
    ensures var r := PurgeDeleted(db, user, file);
            r.Ok? ==>
              var o := db.files[file].objectId;
              && (r.value.unreferenced.Some? <==> forall f :: f in db.files && db.files[f].objectId == o ==> f == file)
              && (r.value.unreferenced.Some? <==> o !in r.value.db.objects)
              && (r.value.unreferenced.Some? ==> r.value.unreferenced.value.path == db.files[file].path)
  {
    if file in db.files && db.files[file].owner == user && db.files[file].status == Deleted {
      var o := db.files[file].objectId;
      assert FileAgrees(db.objects, db.files[file]);
      var refs := RefSet(db.files, o);
      assert file in refs;
      assert refs == {file} + (refs - {file});
      if |refs| == 1 {
        assert refs - {file} == {};
        assert forall f :: f in db.files && db.files[f].objectId == o ==> f in refs;
      } else {
        assert refs - {file} != {};
        var other :| other in refs - {file};
      }
    }
  }

  /** All a permanent delete asks of the tables. */
  ghost predicate EveryFileCounted(db: Database) {
    forall f :: f in db.files ==> db.files[f].objectId in db.objects && db.objects[db.files[f].objectId].refs > 0
  }

  lemma CountsCoverFiles(db: Database)
    requires DbOk(db)
    ensures EveryFileCounted(db)
  {
    forall f | f in db.files
      ensures db.files[f].objectId in db.objects && db.objects[db.files[f].objectId].refs > 0
    {
      assert FileAgrees(db.objects, db.files[f]);
      assert f in RefSet(db.files, db.files[f].objectId);
    }
  }
}
