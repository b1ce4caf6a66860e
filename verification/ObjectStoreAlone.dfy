/** The interleaved machine and the service calls agree: a call of ObjectStore that
    is left alone does exactly what the call of FileServices is proved to do. */
module ObjectStoreAlone {
  import opened Options
  import opened Chunking
  import opened Tables
  import opened References
  import opened ObjectStore
  import Usage

  /** n steps of one call with nobody else at work. */
  ghost function AloneWith(hash: Content -> Digest, st: Store, pc: Pc, path: Path, image: Option<Content>, n: nat): Move
    decreases n, pc
  {
    if n == 0 then Move(st, pc)
    else
      var m := Next(hash, st, pc, path, image, true);
      AloneWith(hash, m.store, m.pc, path, image, n - 1)
  }

  /** The same for calls that decode no image. */
  ghost function Alone(hash: Content -> Digest, st: Store, pc: Pc, path: Path, n: nat): Move {
    AloneWith(hash, st, pc, path, None, n)
  }

  lemma {:induction false} ReturnedStays(hash: Content -> Digest, st: Store, path: Path, n: nat)
    ensures Alone(hash, st, Returned, path, n) == Move(st, Returned)
    decreases n
  {
    if n > 0 {
      ReturnedStays(hash, st, path, n - 1);
    }
  }

  lemma OneStep(hash: Content -> Digest, st: Store, pc: Pc, path: Path, m: Move, n: nat)
    requires Next(hash, st, pc, path, None, true) == m
    ensures Alone(hash, st, pc, path, n + 1) == Alone(hash, m.store, m.pc, path, n)
  {
  }

  function Saved(st: Store, path: Path, content: Content): Store {
    st.(stored := st.stored[path := content], used := st.used + {path})
  }

  /** The checks and the save before the quota is looked at. */
  lemma UploadToQuota(hash: Content -> Digest, st: Store, req: Request, path: Path, n: nat)
    requires path !in st.used && req.name != "" && FolderFound(st.db, req.user, req.parent)
    ensures Alone(hash, st, UploadStart(req), path, n + 2)
         == Alone(hash, Saved(st, path, req.content), UploadQuota(req, path), path, n)
  {
    OneStep(hash, st, UploadStart(req), path, Move(st, UploadSave(req)), n + 1);
    OneStep(hash, st, UploadSave(req), path, Move(Saved(st, path, req.content), UploadQuota(req, path)), n);
  }

  lemma OverQuotaAlone(hash: Content -> Digest, st: Store, req: Request, path: Path)
    requires path !in st.used && st.stored.Keys <= st.used && req.name != "" && FolderFound(st.db, req.user, req.parent)
    requires !QuotaOk(st.db, req.user, |req.content|)
    ensures Alone(hash, st, UploadStart(req), path, 7) == Move(st.(used := st.used + {path}), Returned)
  {
    var saved := Saved(st, path, req.content);
    UploadToQuota(hash, st, req, path, 5);
    OneStep(hash, saved, UploadQuota(req, path), path, Move(saved, Discard(path, false)), 4);
    assert saved.stored - {path} == st.stored;
    OneStep(hash, saved, Discard(path, false), path, Move(st.(used := st.used + {path}), Returned), 3);
    ReturnedStays(hash, st.(used := st.used + {path}), path, 3);
  }

  lemma LinkStep(hash: Content -> Digest, st: Store, req: Request, snapshot: Snapshot, path: Path, n: nat)
    requires AddReference(st.db, req.user, req.parent, req.name, snapshot).Ok?
    ensures Alone(hash, st, Link(req.user, req.parent, req.name, snapshot), path, n + 1)
         == Move(st.(db := AddReference(st.db, req.user, req.parent, req.name, snapshot).value), Returned)
  {
    var st' := st.(db := AddReference(st.db, req.user, req.parent, req.name, snapshot).value);
    OneStep(hash, st, Link(req.user, req.parent, req.name, snapshot), path, Move(st', Returned), n);
    ReturnedStays(hash, st', path, n);
  }

  lemma KnownContentAlone(hash: Content -> Digest, st: Store, req: Request, path: Path, found: Snapshot)
    requires path !in st.used && st.stored.Keys <= st.used && req.name != "" && FolderFound(st.db, req.user, req.parent)
    requires QuotaOk(st.db, req.user, |req.content|) && FindObject(st.db, hash(req.content)) == Some(found)
    ensures AddReference(st.db, req.user, req.parent, req.name, found).Ok?
    ensures Alone(hash, st, UploadStart(req), path, 7)
         == Move(st.(db := AddReference(st.db, req.user, req.parent, req.name, found).value, used := st.used + {path}),
             Returned)
  {
    var saved := Saved(st, path, req.content);
    var st' := st.(used := st.used + {path});
    UploadToQuota(hash, st, req, path, 5);
    OneStep(hash, saved, UploadQuota(req, path), path, Move(saved, UploadFind(req, path)), 4);
    OneStep(hash, saved, UploadFind(req, path), path, Move(saved, UploadDrop(req, path, false, found)), 3);
    assert saved.stored - {path} == st.stored;
    OneStep(hash, saved, UploadDrop(req, path, false, found), path,
        Move(st', Link(req.user, req.parent, req.name, found)), 2);
    LinkStep(hash, st', req, found, path, 1);
  }

  lemma NewRowFound(db: Database, digest: Digest, path: Path, size: int, contentType: string)
    requires !HasHash(db, digest)
    ensures var db' := InsertObject(db, digest, path, size, contentType).value;
            FindObject(db', digest) == Some(Snapshot(db.nextObject, ObjectRow(digest, path, size, contentType, 0)))
  {
    var db' := InsertObject(db, digest, path, size, contentType).value;
    assert db.nextObject in db'.objects;
    assert HasHash(db', digest);
  }

  lemma UploadToInsert(hash: Content -> Digest, st: Store, req: Request, path: Path, n: nat)
    requires path !in st.used && req.name != "" && FolderFound(st.db, req.user, req.parent)
    requires QuotaOk(st.db, req.user, |req.content|) && !HasHash(st.db, hash(req.content))
    ensures Alone(hash, st, UploadStart(req), path, n + 4)
         == Alone(hash, Saved(st, path, req.content), UploadInsert(req, path), path, n)
  {
    var saved := Saved(st, path, req.content);
    UploadToQuota(hash, st, req, path, n + 2);
    OneStep(hash, saved, UploadQuota(req, path), path, Move(saved, UploadFind(req, path)), n + 1);
    OneStep(hash, saved, UploadFind(req, path), path, Move(saved, UploadInsert(req, path)), n);
  }

  /** The snapshot an upload of new content reads back. */
  function NewSnapshot(hash: Content -> Digest, db: Database, req: Request, path: Path): Snapshot {
    Snapshot(db.nextObject, ObjectRow(hash(req.content), path, |req.content|, req.contentType, 0))
  }

  lemma InsertAlone(hash: Content -> Digest, st: Store, req: Request, path: Path, n: nat)
    requires !HasHash(st.db, hash(req.content))
    ensures var db1 := InsertObject(st.db, hash(req.content), path, |req.content|, req.contentType).value;
            Alone(hash, st, UploadInsert(req, path), path, n + 2)
            == Alone(hash, st.(db := db1), Link(req.user, req.parent, req.name, NewSnapshot(hash, st.db, req, path)),
                path, n)
  {
    var digest := hash(req.content);
    var inserted := st.(db := InsertObject(st.db, digest, path, |req.content|, req.contentType).value);
    var snapshot := NewSnapshot(hash, st.db, req, path);
    OneStep(hash, st, UploadInsert(req, path), path, Move(inserted, UploadSelect(req, path)), n + 1);
    NewRowFound(st.db, digest, path, |req.content|, req.contentType);
    OneStep(hash, inserted, UploadSelect(req, path), path,
        Move(inserted, Link(req.user, req.parent, req.name, snapshot)), n);
  }

  lemma NewContentAlone(hash: Content -> Digest, st: Store, req: Request, path: Path)
    requires path !in st.used && req.name != "" && FolderFound(st.db, req.user, req.parent)
    requires QuotaOk(st.db, req.user, |req.content|) && !HasHash(st.db, hash(req.content))
    ensures var db1 := InsertObject(st.db, hash(req.content), path, |req.content|, req.contentType).value;
            var linked := AddReference(db1, req.user, req.parent, req.name, NewSnapshot(hash, st.db, req, path));
            && linked.Ok?
            && Alone(hash, st, UploadStart(req), path, 7)
               == Move(Saved(st, path, req.content).(db := linked.value), Returned)
  {
    var saved := Saved(st, path, req.content);
    var db1 := InsertObject(st.db, hash(req.content), path, |req.content|, req.contentType).value;
    UploadToInsert(hash, st, req, path, 3);
    InsertAlone(hash, saved, req, path, 1);
    LinkStep(hash, saved.(db := db1), req, NewSnapshot(hash, st.db, req, path), path, 0);
  }

  /** An upload left alone returns with the tables of UploadIntoFolder, and keeps
      its bytes exactly when it is accepted with content that was not there. */
  lemma UploadAloneIsTheCall(hash: Content -> Digest, st: Store, req: Request, path: Path)
    requires path !in st.used && st.stored.Keys <= st.used
    ensures var call := Usage.Upload(st.db, req.user, req.parent, req.name, req.contentType, hash(req.content),
              |req.content|, path);
            var m := Alone(hash, st, UploadStart(req), path, 7);
            && m.pc.Returned?
            && m.store.db == (if call.Ok? then call.value else st.db)
            && m.store.stored == if call.Ok? && !HasHash(st.db, hash(req.content)) then st.stored[path := req.content]
                                 else st.stored
  {
    if req.name == "" || !FolderFound(st.db, req.user, req.parent) {
      OneStep(hash, st, UploadStart(req), path, Move(st, Returned), 6);
      ReturnedStays(hash, st, path, 6);
    } else if !QuotaOk(st.db, req.user, |req.content|) {
      OverQuotaAlone(hash, st, req, path);
    } else if HasHash(st.db, hash(req.content)) {
      KnownContentAlone(hash, st, req, path, FindObject(st.db, hash(req.content)).value);
    } else {
      NewContentAlone(hash, st, req, path);
    }
  }

  /** A permanent delete left alone drops the rows, then the object's bytes and the
      preview's. */
  lemma PurgeAloneIsTheCall(hash: Content -> Digest, st: Store, user: UserId, file: FileId, path: Path)
    ensures var call := PurgeDeleted(st.db, user, file);
            var m := Alone(hash, st, PurgeStart(user, file), path, 3);
            && m.pc.Returned?
            && m.store.db == (if call.Ok? then call.value.db else st.db)
            && m.store.stored == if call.Err? || call.value.unreferenced.None? then st.stored
                                 else st.stored - {call.value.unreferenced.value.path}
                                      - (if call.value.unreferenced.value.preview.Some?
                                           then {call.value.unreferenced.value.preview.value} else {})
  {
    var call := PurgeDeleted(st.db, user, file);
    if call.Err? {
      OneStep(hash, st, PurgeStart(user, file), path, Move(st, Returned), 2);
      ReturnedStays(hash, st, path, 2);
    } else if call.value.unreferenced.None? {
      OneStep(hash, st, PurgeStart(user, file), path, Move(st.(db := call.value.db), Returned), 2);
      ReturnedStays(hash, st.(db := call.value.db), path, 2);
    } else {
      var u := call.value.unreferenced.value;
      var st1 := st.(db := call.value.db);
      OneStep(hash, st, PurgeStart(user, file), path, Move(st1, RemoveObject(u.path, u.preview)), 2);
      EraseAlone(hash, st1, u.path, u.preview, path);
    }
  }

  lemma EraseAlone(hash: Content -> Digest, st: Store, p: Path, preview: Option<Path>, path: Path)
    ensures Alone(hash, st, RemoveObject(p, preview), path, 2)
         == Move(st.(stored := st.stored - {p} - (if preview.Some? then {preview.value} else {})), Returned)
  {
    var st1 := st.(stored := st.stored - {p});
    if preview.Some? {
      OneStep(hash, st, RemoveObject(p, preview), path, Move(st1, RemovePreview(preview.value)), 1);
      OneStep(hash, st1, RemovePreview(preview.value), path,
          Move(st1.(stored := st1.stored - {preview.value}), Returned), 0);
    } else {
      OneStep(hash, st, RemoveObject(p, preview), path, Move(st1, Returned), 1);
      ReturnedStays(hash, st1, path, 1);
      assert st1.stored - {} == st1.stored;
    }
  }

  lemma FoundInstantAlone(hash: Content -> Digest, st: Store, req: Request, found: Snapshot, path: Path)
    ensures Alone(hash, st, InstantQuota(req.user, req.parent, req.name, found), path, 2)
         == if QuotaOk(st.db, req.user, found.row.size)
           && AddReference(st.db, req.user, req.parent, req.name, found).Ok?
            then Move(st.(db := AddReference(st.db, req.user, req.parent, req.name, found).value), Returned)
            else Move(st, Returned)
  {
    var pc := InstantQuota(req.user, req.parent, req.name, found);
    if !QuotaOk(st.db, req.user, found.row.size) {
      OneStep(hash, st, pc, path, Move(st, Returned), 1);
      ReturnedStays(hash, st, path, 1);
    } else {
      OneStep(hash, st, pc, path, Move(st, Link(req.user, req.parent, req.name, found)), 1);
      if AddReference(st.db, req.user, req.parent, req.name, found).Ok? {
        LinkStep(hash, st, req, found, path, 0);
      } else {
        OneStep(hash, st, Link(req.user, req.parent, req.name, found), path, Move(st, Returned), 0);
      }
    }
  }

  /** An instant upload left alone is InstantUploadIntoFolder. */
  lemma InstantAloneIsTheCall(hash: Content -> Digest, st: Store, req: Request, digest: Digest, path: Path)
    ensures var call := Usage.Instant(st.db, req.user, req.parent, req.name, digest);
            Alone(hash, st, InstantStart(req.user, req.parent, req.name, digest), path, 4)
            == Move(if call.Ok? then st.(db := call.value) else st, Returned)
  {
    var found := FindObject(st.db, digest);
    var start := InstantStart(req.user, req.parent, req.name, digest);
    var find := InstantFind(req.user, req.parent, req.name, digest);
    if req.name == "" || digest == "" || !FolderFound(st.db, req.user, req.parent) {
      OneStep(hash, st, start, path, Move(st, Returned), 3);
      ReturnedStays(hash, st, path, 3);
    } else {
      OneStep(hash, st, start, path, Move(st, find), 3);
      if found.None? {
        OneStep(hash, st, find, path, Move(st, Returned), 2);
        ReturnedStays(hash, st, path, 2);
      } else {
        OneStep(hash, st, find, path, Move(st, InstantQuota(req.user, req.parent, req.name, found.value)), 2);
        FoundInstantAlone(hash, st, req, found.value, path);
      }
    }
  }

  // ---- batches ----

  function Asked(todo: seq<(string, Digest)>): (inputs: seq<Usage.Input>)
    ensures |inputs| == |todo| && forall i :: 0 <= i < |todo| ==> inputs[i] == Usage.Input(todo[i].0, todo[i].1)
  {
    seq(|todo|, i requires 0 <= i < |todo| => Usage.Input(todo[i].0, todo[i].1))
  }

  ghost function BatchOutcome(st: Store, user: UserId, parent: Option<FolderId>, inputs: seq<Usage.Input>): Move {
    var call := Usage.Batch(st.db, user, parent, inputs);
    Move(if call.Ok? then st.(db := call.value) else st, Returned)
  }

  /** The transaction at the end of a batch whose lookups have all succeeded. */
  lemma BatchLinkAlone(hash: Content -> Digest, st: Store, user: UserId, parent: Option<FolderId>,
                       inputs: seq<Usage.Input>, items: seq<NamedObject>, path: Path)
    requires Usage.FindAll(st.db, inputs) == Ok(items)
    ensures Alone(hash, st, BatchLink(user, parent, items), path, 1) == BatchOutcome(st, user, parent, inputs)
  {
    Usage.FoundAll(st.db, inputs);
    OneStep(hash, st, BatchLink(user, parent, items), path, BatchOutcome(st, user, parent, inputs), 0);
  }

  predicate Fails(db: Database, input: Usage.Input, found: Option<Snapshot>) {
    input.name == "" || input.hash == "" || found.None?
  }

  lemma OneMoreLookup(db: Database, inputs: seq<Usage.Input>, k: nat, items: seq<NamedObject>)
    requires k < |inputs| && Usage.FindAll(db, inputs[..k]) == Ok(items)
    ensures var found := FindObject(db, inputs[k].hash);
            if Fails(db, inputs[k], found) then Usage.FindAll(db, inputs[..k + 1]).Err?
            else Usage.FindAll(db, inputs[..k + 1]) == Ok(items + [NamedObject(inputs[k].name, found.value)])
  {
    assert inputs[..k + 1][..k] == inputs[..k];
  }

  lemma FailedLookup(db: Database, inputs: seq<Usage.Input>, n: nat, user: UserId, parent: Option<FolderId>)
    requires n <= |inputs| && Usage.FindAll(db, inputs[..n]).Err?
    ensures Usage.Batch(db, user, parent, inputs).Err?
  {
    Usage.FindAllFailsFast(db, inputs, n);
  }

  lemma LookupStep(hash: Content -> Digest, st: Store, user: UserId, parent: Option<FolderId>,
                   todo: seq<(string, Digest)>, items: seq<NamedObject>, path: Path, n: nat)
    requires todo != []
    ensures var next := Usage.Input(todo[0].0, todo[0].1);
            var found := FindObject(st.db, next.hash);
            Alone(hash, st, BatchFind(user, parent, todo, items), path, n + 1)
            == if Fails(st.db, next, found) then Move(st, Returned)
               else
                 var items' := items + [NamedObject(next.name, found.value)];
                 Alone(hash, st, BatchFind(user, parent, todo[1..], items'), path, n)
  {
    var next := Usage.Input(todo[0].0, todo[0].1);
    var found := FindObject(st.db, next.hash);
    var pc := BatchFind(user, parent, todo, items);
    if Fails(st.db, next, found) {
      OneStep(hash, st, pc, path, Move(st, Returned), n);
      ReturnedStays(hash, st, path, n);
    } else {
      var items' := items + [NamedObject(next.name, found.value)];
      OneStep(hash, st, pc, path, Move(st, BatchFind(user, parent, todo[1..], items')), n);
    }
  }

  lemma FailedBatch(st: Store, inputs: seq<Usage.Input>, n: nat, user: UserId, parent: Option<FolderId>)
    requires n <= |inputs| && Usage.FindAll(st.db, inputs[..n]).Err?
    ensures BatchOutcome(st, user, parent, inputs) == Move(st, Returned)
  {
    FailedLookup(st.db, inputs, n, user, parent);
  }

  /** A batch that has found the first k inputs and has the others to look up. */
  lemma {:induction false} BatchGoesOn(hash: Content -> Digest, st: Store, user: UserId, parent: Option<FolderId>,
                                       inputs: seq<Usage.Input>, k: nat, todo: seq<(string, Digest)>,
                                       items: seq<NamedObject>, path: Path, end: Move)
    requires k <= |inputs| && Asked(todo) == inputs[k..] && Usage.FindAll(st.db, inputs[..k]) == Ok(items)
    requires end == BatchOutcome(st, user, parent, inputs)
    ensures Alone(hash, st, BatchFind(user, parent, todo, items), path, |todo| + 2) == end
    decreases |todo|
  {
    if todo == [] {
      assert inputs[..k] == inputs;
      OneStep(hash, st, BatchFind(user, parent, todo, items), path, Move(st, BatchLink(user, parent, items)), 1);
      BatchLinkAlone(hash, st, user, parent, inputs, items, path);
    } else {
      assert inputs[k] == Usage.Input(todo[0].0, todo[0].1);
      var found := FindObject(st.db, inputs[k].hash);
      OneMoreLookup(st.db, inputs, k, items);
      LookupStep(hash, st, user, parent, todo, items, path, |todo| + 1);
      if Fails(st.db, inputs[k], found) {
        FailedBatch(st, inputs, k + 1, user, parent);
      } else {
        var items' := items + [NamedObject(inputs[k].name, found.value)];
        BatchGoesOn(hash, st, user, parent, inputs, k + 1, todo[1..], items', path, end);
      }
    }
  }

  /** A batch left alone is InstantUploadManyIntoFolder. */
  lemma BatchAloneIsTheCall(hash: Content -> Digest, st: Store, user: UserId, parent: Option<FolderId>,
                            todo: seq<(string, Digest)>, path: Path)
    ensures var call := Usage.Batch(st.db, user, parent, Asked(todo));
            Alone(hash, st, BatchFind(user, parent, todo, []), path, |todo| + 2)
            == Move(if call.Ok? then st.(db := call.value) else st, Returned)
  {
    BatchGoesOn(hash, st, user, parent, Asked(todo), 0, todo, [], path, BatchOutcome(st, user, parent, Asked(todo)));
  }

  // ---- thumbnails ----

  /** A thumbnail call left alone saves the image and makes it the preview of an active
      image or video file's object that has none; otherwise it changes nothing. */
  lemma ThumbnailAloneIsTheCall(hash: Content -> Digest, st: Store, file: FileId, image: Option<Content>, path: Path)
    requires path !in st.used
    ensures var found := FindObjectForActiveFile(st.db, file);
            var m := AloneWith(hash, st, ThumbnailStart(file), path, image, 5);
            && m.pc == Returned
            && if found.Some? && SupportsThumbnail(found.value.row.contentType) && found.value.id !in st.db.previews
                  && found.value.row.path in st.stored && image.Some?
               then
                 && m.store.db == st.db.(previews := st.db.previews[found.value.id := path])
                 && m.store.stored == st.stored[path := image.value]
               else m.store == st
  {
    var found := FindObjectForActiveFile(st.db, file);
    if found.None? || !SupportsThumbnail(found.value.row.contentType) {
      StepWith(hash, st, ThumbnailStart(file), path, image, Move(st, Returned), 4);
      StaysWith(hash, st, path, image, 4);
    } else {
      StepWith(hash, st, ThumbnailStart(file), path, image, Move(st, ThumbnailFind(found.value)), 4);
      ThumbnailFindAlone(hash, st, found.value, image, path);
    }
  }

  lemma StepWith(hash: Content -> Digest, st: Store, pc: Pc, path: Path, image: Option<Content>, m: Move, n: nat)
    requires Next(hash, st, pc, path, image, true) == m
    ensures AloneWith(hash, st, pc, path, image, n + 1) == AloneWith(hash, m.store, m.pc, path, image, n)
  {
  }

  lemma {:induction false} StaysWith(hash: Content -> Digest, st: Store, path: Path, image: Option<Content>, n: nat)
    ensures AloneWith(hash, st, Returned, path, image, n) == Move(st, Returned)
    decreases n
  {
    if n > 0 {
      StaysWith(hash, st, path, image, n - 1);
    }
  }

  lemma ThumbnailFindAlone(hash: Content -> Digest, st: Store, snapshot: Snapshot, image: Option<Content>, path: Path)
    requires path !in st.used && snapshot.id in st.db.objects
    ensures var m := AloneWith(hash, st, ThumbnailFind(snapshot), path, image, 4);
            && m.pc == Returned
            && if snapshot.id !in st.db.previews && snapshot.row.path in st.stored && image.Some? then
                 && m.store.db == st.db.(previews := st.db.previews[snapshot.id := path])
                 && m.store.stored == st.stored[path := image.value]
               else m.store == st
  {
    if snapshot.id in st.db.previews {
      StepWith(hash, st, ThumbnailFind(snapshot), path, image, Move(st, Returned), 3);
      StaysWith(hash, st, path, image, 3);
    } else {
      StepWith(hash, st, ThumbnailFind(snapshot), path, image, Move(st, ThumbnailOpen(snapshot)), 3);
      if snapshot.row.path !in st.stored || image.None? {
        StepWith(hash, st, ThumbnailOpen(snapshot), path, image, Move(st, Returned), 2);
        StaysWith(hash, st, path, image, 2);
      } else {
        StepWith(hash, st, ThumbnailOpen(snapshot), path, image, Move(st, ThumbnailSave(snapshot, image.value)), 2);
        ThumbnailSaveAlone(hash, st, snapshot, image, path);
      }
    }
  }

  lemma ThumbnailSaveAlone(hash: Content -> Digest, st: Store, snapshot: Snapshot, image: Option<Content>, path: Path)
    requires path !in st.used && snapshot.id in st.db.objects && snapshot.id !in st.db.previews && image.Some?
    ensures var m := AloneWith(hash, st, ThumbnailSave(snapshot, image.value), path, image, 2);
            && m.pc == Returned
            && m.store.db == st.db.(previews := st.db.previews[snapshot.id := path])
            && m.store.stored == st.stored[path := image.value]
  {
    var saved := Saved(st, path, image.value);
    var linked := saved.(db := st.db.(previews := st.db.previews[snapshot.id := path]));
    StepWith(hash, st, ThumbnailSave(snapshot, image.value), path, image, Move(saved, ThumbnailInsert(snapshot, path)),
        1);
    StepWith(hash, saved, ThumbnailInsert(snapshot, path), path, image, Move(linked, Returned), 0);
  }

  // ---- in a run ----

  lemma {:induction false} RunSplits(hash: Content -> Digest, s: State, first: seq<Event>, then_: seq<Event>)
    ensures Run(hash, s, first + then_) == Run(hash, Run(hash, s, first), then_)
    decreases |then_|
  {
    if then_ == [] {
      assert first + then_ == first;
    } else {
      var n := |then_| - 1;
      assert (first + then_)[..|first + then_| - 1] == first + then_[..n];
      RunSplits(hash, s, first, then_[..n]);
    }
  }

  function Times(e: Event, n: nat): seq<Event> {
    seq(n, _ => e)
  }

  /** Events that advance one call only are that call left alone. */
  lemma {:induction false} RunIsAlone(hash: Content -> Digest, s: State, c: CallId, path: Path, image: Option<Content>,
                                      n: nat)
    requires c in s.calls
    ensures var m := AloneWith(hash, s.store, s.calls[c], path, image, n);
            Run(hash, s, Times(Advance(c, path, image, true), n)) == State(m.store, s.calls[c := m.pc])
    decreases n
  {
    var e := Advance(c, path, image, true);
    if n == 0 {
      assert s.calls[c := s.calls[c]] == s.calls;
    } else {
      var m := Next(hash, s.store, s.calls[c], path, image, true);
      var s1 := State(m.store, s.calls[c := m.pc]);
      assert Times(e, n) == [e] + Times(e, n - 1);
      RunSplits(hash, s, [e], Times(e, n - 1));
      assert [e][..0] == [] && Run(hash, s, [e]) == s1;
      RunIsAlone(hash, s1, c, path, image, n - 1);
      var m' := AloneWith(hash, s.store, s.calls[c], path, image, n);
      assert s1.calls[c := m'.pc] == s.calls[c := m'.pc];
    }
  }
}
