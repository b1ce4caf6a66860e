/** Over every interleaving of the calls of ObjectStore: no live object loses its
    bytes, nothing stored is forgotten, and the tables stay consistent. */
module ObjectStoreProofs {
  import opened Options
  import opened Chunking
  import opened Tables
  import opened References
  import opened ObjectStore

  /** The three sets of paths that matter: named by rows, stored, ever used. */
  datatype View = View(rows: set<Path>, stored: set<Path>, used: set<Path>)

  ghost function Rows(st: Store): set<Path> {
    RowPaths(st.db.objects, st.db.previews)
  }

  ghost function ViewOf(st: Store): View {
    View(Rows(st), st.stored.Keys, st.used)
  }

  /** The paths a call has saved and not yet given to a row. */
  function Owned(pc: Pc): set<Path> {
    if pc.UploadQuota? || pc.UploadFind? || pc.UploadInsert? || pc.ThumbnailInsert?
       || ((pc.UploadFindAgain? || pc.UploadDrop? || pc.Discard?) && !pc.given)
    then {pc.path} else {}
  }

  /** The paths a permanent delete has taken over from deleted rows. */
  function Removing(pc: Pc): set<Path> {
    if pc.RemoveObject? then {pc.path} + (if pc.preview.Some? then {pc.preview.value} else {})
    else if pc.RemovePreview? then {pc.path}
    else {}
  }

  function Held(pc: Pc): set<Path> {
    Owned(pc) + Removing(pc)
  }

  /** The path an upload remembers after it gave it to an object row. */
  function Given(pc: Pc): set<Path> {
    if pc.UploadSelect? || ((pc.UploadFindAgain? || pc.UploadDrop? || pc.Discard?) && pc.given) then {pc.path} else {}
  }

  /** Held paths belong to no row; a given path belongs at most to the row it
      was given to, and to none once the upload has missed that row. */
  ghost predicate PathsHeldOk(v: View, pc: Pc) {
    && Owned(pc) <= v.stored
    && Held(pc) !! v.rows
    && Removing(pc) <= v.used
    && Given(pc) <= v.used
    && (!pc.UploadSelect? ==> Given(pc) !! v.rows)
    && (pc.RemoveObject? ==> pc.preview != Some(pc.path))
  }

  ghost predicate OnlyRowIs(db: Database, p: Path, digest: Digest) {
    && (forall o :: o in db.objects && db.objects[o].path == p ==> db.objects[o].hash == digest)
    && (forall o :: o in db.previews ==> db.previews[o] != p)
  }

  ghost predicate ContentOk(hash: Content -> Digest, st: Store, pc: Pc) {
    && (pc.UploadQuota? || pc.UploadFind? || pc.UploadInsert? ==>
          pc.path in st.stored && st.stored[pc.path] == pc.req.content)
    && (pc.UploadSelect? ==> OnlyRowIs(st.db, pc.path, hash(pc.req.content)))
  }

  /** Calls that carry one object as a SELECT returned it. */
  predicate HasSnapshot(pc: Pc) {
    pc.UploadDrop? || pc.Link? || pc.InstantQuota? || pc.ThumbnailFind? || pc.ThumbnailOpen? || pc.ThumbnailSave?
    || pc.ThumbnailInsert?
  }

  ghost predicate SeenOk(db: Database, pc: Pc) {
    && (HasSnapshot(pc) ==> SnapshotOk(db, pc.snapshot))
    && (pc.BatchFind? || pc.BatchLink? ==> SnapshotsOk(db, pc.items))
  }

  ghost predicate PcOk(hash: Content -> Digest, st: Store, pc: Pc) {
    PathsHeldOk(ViewOf(st), pc) && ContentOk(hash, st, pc) && SeenOk(st.db, pc)
  }

  /** Every object row's bytes are there, with the row's hash and size. */
  ghost predicate BytesOk(hash: Content -> Digest, st: Store) {
    && (forall o :: o in st.db.objects ==>
          var row := st.db.objects[o];
          row.path in st.stored && hash(st.stored[row.path]) == row.hash && |st.stored[row.path]| == row.size)
    && (forall o :: o in st.db.previews ==> st.db.previews[o] in st.stored)
    && st.stored.Keys <= st.used
  }

  ghost predicate StoreOk(hash: Content -> Digest, st: Store) {
    DbOk(st.db) && BytesOk(hash, st)
  }

  /** Two calls share no held path, and neither owns a path the other gave away. */
  predicate ApartFrom(a: Pc, b: Pc) {
    Held(a) !! Held(b) && Given(a) !! Owned(b) && Given(b) !! Owned(a)
  }

  /** Whatever is stored belongs to a row or to a call in flight. */
  ghost predicate NoLeak(s: State) {
    forall p :: p in s.store.stored && p !in Rows(s.store) ==> exists c :: c in s.calls && p in Held(s.calls[c])
  }

  ghost predicate Inv(hash: Content -> Digest, s: State) {
    && StoreOk(hash, s.store)
    && (forall c :: c in s.calls ==> PcOk(hash, s.store, s.calls[c]))
    && (forall c, d :: c in s.calls && d in s.calls && c != d ==> ApartFrom(s.calls[c], s.calls[d]))
    && NoLeak(s)
  }

  // ---- what a step does, as sets of paths ----

  /** Rows keep their columns, ids and paths; new ones carry gained paths. */
  ghost predicate DbEvolves(db: Database, db': Database, gained: set<Path>) {
    && db.nextObject <= db'.nextObject
    && (forall o :: o in db'.objects ==>
          if o in db.objects then db'.objects[o] == db.objects[o].(refs := db'.objects[o].refs)
          else db.nextObject <= o && db'.objects[o].path in gained)
    && (forall o :: o in db'.previews ==>
          (o in db.previews && db'.previews[o] == db.previews[o]) || db'.previews[o] in gained)
  }

  /** A step gives owned paths to rows, erases paths that are its own business,
      saves fresh ones, and takes over the paths of rows it drops. */
  datatype Effect = Effect(gained: set<Path>, erased: set<Path>, saved: set<Path>, dropped: set<Path>)

  ghost predicate ViewEffect(v: View, pc: Pc, v': View, f: Effect) {
    && v'.rows == v.rows + f.gained - f.dropped
    && f.gained <= Owned(pc) && f.erased <= Held(pc) + Given(pc) && f.erased !! v.rows && f.saved !! v.used
    && f.dropped <= v.rows && f.gained !! f.dropped
    && v'.used == v.used + f.saved
    && v'.stored == v.stored - f.erased + f.saved
  }

  ghost predicate PcEffect(pc: Pc, pc': Pc, f: Effect) {
    && Held(pc') <= Held(pc) + f.saved + f.dropped
    && Owned(pc') <= Owned(pc) + f.saved
    && Given(pc') <= Given(pc) + f.gained
    && f.saved + f.dropped <= Held(pc')
    && Held(pc) <= Held(pc') + f.gained + f.erased
  }

  /** Bytes once stored are not overwritten. */
  ghost predicate BytesKept(stored: map<Path, Content>, stored': map<Path, Content>, saved: set<Path>) {
    forall p :: p in stored && p in stored' && p !in saved ==> stored'[p] == stored[p]
  }

  ghost predicate HasEffect(st: Store, pc: Pc, m: Move, f: Effect) {
    && ViewEffect(ViewOf(st), pc, ViewOf(m.store), f)
    && PcEffect(pc, m.pc, f)
    && DbEvolves(st.db, m.store.db, f.gained)
    && BytesKept(st.stored, m.store.stored, f.saved)
  }

  lemma PathsSurvive(v: View, pc: Pc, pc': Pc, v': View, f: Effect, other: Pc)
    requires PathsHeldOk(v, other) && ViewEffect(v, pc, v', f) && PcEffect(pc, pc', f)
    requires ApartFrom(pc, other) && v.stored <= v.used
    ensures PathsHeldOk(v', other) && ApartFrom(pc', other)
  {
  }

  lemma ContentSurvives(hash: Content -> Digest, st: Store, pc: Pc, m: Move, f: Effect, other: Pc)
    requires ContentOk(hash, st, other) && HasEffect(st, pc, m, f) && ApartFrom(pc, other) && st.stored.Keys <= st.used
    ensures ContentOk(hash, m.store, other)
  {
    if other.UploadSelect? {
      assert other.path in Given(other);
    }
    if other.UploadQuota? || other.UploadFind? || other.UploadInsert? {
      assert other.path in Owned(other);
    }
  }

  lemma SeenSurvives(db: Database, db': Database, gained: set<Path>, other: Pc)
    requires SeenOk(db, other) && DbEvolves(db, db', gained)
    ensures SeenOk(db', other)
  {
    assert forall x :: SnapshotOk(db, x) ==> SnapshotOk(db', x);
  }

  /** Non-interference: what a step does never invalidates another call. */
  lemma OtherSurvives(hash: Content -> Digest, st: Store, pc: Pc, m: Move, f: Effect, other: Pc)
    requires PcOk(hash, st, other) && HasEffect(st, pc, m, f) && ApartFrom(pc, other) && st.stored.Keys <= st.used
    ensures PcOk(hash, m.store, other) && ApartFrom(m.pc, other)
  {
    PathsSurvive(ViewOf(st), pc, m.pc, ViewOf(m.store), f, other);
    ContentSurvives(hash, st, pc, m, f, other);
    SeenSurvives(st.db, m.store.db, f.gained, other);
  }

  // ---- the reading steps ----

  const NOTHING := Effect({}, {}, {}, {})

  /** A step that changes the call alone and lets go of nothing. */
  lemma QuietEffect(st: Store, pc: Pc, pc': Pc)
    requires Held(pc') == Held(pc) && Owned(pc') == Owned(pc) && Given(pc') <= Given(pc)
    ensures HasEffect(st, pc, Move(st, pc'), NOTHING)
  {
  }

  lemma FoundIsOk(db: Database, digest: Digest)
    requires IdsOk(db.objects, db.nextObject)
    ensures FindObject(db, digest).Some? ==> SnapshotOk(db, FindObject(db, digest).value)
  {
  }

  /** An upload that does not find its own row again finds its path in no row:
      the row would still have the content's hash. */
  lemma LostRow(db: Database, path: Path, digest: Digest)
    requires OnlyRowIs(db, path, digest) && !HasHash(db, digest)
    ensures path !in RowPaths(db.objects, db.previews)
  {
  }

  lemma UploadReadOk(hash: Content -> Digest, st: Store, pc: Pc)
    requires UploadReadPc(pc) && PcOk(hash, st, pc) && IdsOk(st.db.objects, st.db.nextObject)
    ensures var next := NextUploadRead(hash, st, pc);
            && PcOk(hash, st, next) && Held(next) == Held(pc) && Owned(next) == Owned(pc) && Given(next) <= Given(pc)
  {
    FoundIsOk(st.db, hash(pc.req.content));
    if pc.UploadSelect? && !HasHash(st.db, hash(pc.req.content)) {
      LostRow(st.db, pc.path, hash(pc.req.content));
    }
  }

  lemma InstantReadOk(hash: Content -> Digest, st: Store, pc: Pc)
    requires pc.InstantStart? || pc.InstantFind? || pc.InstantQuota? || pc.BatchFind?
    requires SeenOk(st.db, pc) && IdsOk(st.db.objects, st.db.nextObject)
    ensures var next := NextInstantRead(st, pc);
            PcOk(hash, st, next) && Held(next) == Given(next) == {}
  {
    if pc.InstantFind? {
      FoundIsOk(st.db, pc.hash);
    }
    if pc.BatchFind? && pc.todo != [] {
      FoundIsOk(st.db, pc.todo[0].1);
    }
  }

  lemma ThumbnailReadOk(hash: Content -> Digest, st: Store, pc: Pc, image: Option<Content>)
    requires pc.ThumbnailStart? || pc.ThumbnailFind? || pc.ThumbnailOpen?
    requires SeenOk(st.db, pc) && IdsOk(st.db.objects, st.db.nextObject)
    ensures var next := NextThumbnailRead(st, pc, image);
            PcOk(hash, st, next) && Held(next) == Given(next) == {}
  {
  }

  // ---- the writing steps ----

  /** A step that leaves the store sound and the call in a sound place. */
  ghost predicate MoveOk(hash: Content -> Digest, st: Store, pc: Pc, m: Move, f: Effect) {
    StoreOk(hash, m.store) && PcOk(hash, m.store, m.pc) && HasEffect(st, pc, m, f)
  }

  lemma RowsStored(hash: Content -> Digest, st: Store)
    requires BytesOk(hash, st)
    ensures Rows(st) <= st.stored.Keys <= st.used
  {
  }

  /** A step that gives no path to a row keeps every row's bytes. */
  lemma BytesFrame(hash: Content -> Digest, st: Store, pc: Pc, m: Move, f: Effect)
    requires BytesOk(hash, st) && HasEffect(st, pc, m, f) && f.gained == {}
    ensures BytesOk(hash, m.store)
  {
    RowsStored(hash, st);
    forall o | o in m.store.db.objects
      ensures m.store.db.objects[o].path in Rows(m.store)
    {
    }
    forall o | o in m.store.db.previews
      ensures m.store.db.previews[o] in Rows(m.store)
    {
    }
  }

  lemma SaveEffect(st: Store, pc: Pc, newPath: Path)
    requires SavePc(pc) && newPath !in st.used && Rows(st) <= st.stored.Keys <= st.used
    ensures HasEffect(st, pc, NextSave(st, pc, newPath), Effect({}, {}, {newPath}, {}))
  {
  }

  lemma SaveOk(hash: Content -> Digest, st: Store, pc: Pc, newPath: Path)
    requires StoreOk(hash, st) && PcOk(hash, st, pc) && SavePc(pc) && newPath !in st.used
    ensures MoveOk(hash, st, pc, NextSave(st, pc, newPath), Effect({}, {}, {newPath}, {}))
  {
    var m := NextSave(st, pc, newPath);
    RowsStored(hash, st);
    SaveEffect(st, pc, newPath);
    BytesFrame(hash, st, pc, m, Effect({}, {}, {newPath}, {}));
    assert PathsHeldOk(ViewOf(m.store), m.pc);
  }

  lemma EraseEffect(st: Store, pc: Pc, tolerant: bool)
    requires ErasePc(pc) && PathsHeldOk(ViewOf(st), pc)
    ensures HasEffect(st, pc, NextErase(st, pc, tolerant), Effect({}, {pc.path}, {}, {}))
  {
    assert ViewOf(NextErase(st, pc, tolerant).store).stored == ViewOf(st).stored - {pc.path};
  }

  lemma EraseOk(hash: Content -> Digest, st: Store, pc: Pc, tolerant: bool)
    requires StoreOk(hash, st) && PcOk(hash, st, pc) && ErasePc(pc)
    ensures MoveOk(hash, st, pc, NextErase(st, pc, tolerant), Effect({}, {pc.path}, {}, {}))
  {
    EraseEffect(st, pc, tolerant);
    BytesFrame(hash, st, pc, NextErase(st, pc, tolerant), Effect({}, {pc.path}, {}, {}));
    assert PathsHeldOk(ViewOf(NextErase(st, pc, tolerant).store), NextErase(st, pc, tolerant).pc);
  }

  lemma InsertEffect(hash: Content -> Digest, st: Store, pc: Pc)
    requires pc.UploadInsert?
    requires InsertObject(st.db, hash(pc.req.content), pc.path, |pc.req.content|, pc.req.contentType).Some?
    requires IdsOk(st.db.objects, st.db.nextObject) && Owned(pc) <= st.stored.Keys
    ensures HasEffect(st, pc, NextDb(hash, st, pc), Effect({pc.path}, {}, {}, {}))
  {
    NewPath(st.db.objects, st.db.previews, st.db.nextObject,
            ObjectRow(hash(pc.req.content), pc.path, |pc.req.content|, pc.req.contentType, 0));
  }

  lemma InsertBytes(hash: Content -> Digest, st: Store, pc: Pc)
    requires BytesOk(hash, st) && ContentOk(hash, st, pc)
    requires pc.UploadInsert?
    requires InsertObject(st.db, hash(pc.req.content), pc.path, |pc.req.content|, pc.req.contentType).Some?
    ensures BytesOk(hash, NextDb(hash, st, pc).store)
  {
  }

  lemma OnlyNewRow(db: Database, path: Path, row: ObjectRow)
    requires PathFree(db, path) && row.path == path
    ensures OnlyRowIs(db.(objects := db.objects[db.nextObject := row], nextObject := db.nextObject + 1), path, row.hash)
  {
    assert forall o :: o in db.objects ==> db.objects[o].path in RowPaths(db.objects, db.previews);
    assert forall o :: o in db.previews ==> db.previews[o] in RowPaths(db.objects, db.previews);
  }

  lemma InsertPcOk(hash: Content -> Digest, st: Store, pc: Pc)
    requires pc.UploadInsert?
    requires InsertObject(st.db, hash(pc.req.content), pc.path, |pc.req.content|, pc.req.contentType).Some?
    requires PathFree(st.db, pc.path) && pc.path in st.used
    ensures PcOk(hash, NextDb(hash, st, pc).store, NextDb(hash, st, pc).pc)
  {
    var row := ObjectRow(hash(pc.req.content), pc.path, |pc.req.content|, pc.req.contentType, 0);
    OnlyNewRow(st.db, pc.path, row);
  }

  lemma InsertOk(hash: Content -> Digest, st: Store, pc: Pc)
    requires StoreOk(hash, st) && PcOk(hash, st, pc)
    requires pc.UploadInsert?
    requires InsertObject(st.db, hash(pc.req.content), pc.path, |pc.req.content|, pc.req.contentType).Some?
    ensures MoveOk(hash, st, pc, NextDb(hash, st, pc), Effect({pc.path}, {}, {}, {}))
  {
    InsertEffect(hash, st, pc);
    InsertBytes(hash, st, pc);
    InsertObjectKeeps(st.db, hash(pc.req.content), pc.path, |pc.req.content|, pc.req.contentType);
    InsertPcOk(hash, st, pc);
  }

  lemma PreviewEffect(hash: Content -> Digest, st: Store, pc: Pc)
    requires pc.ThumbnailInsert? && pc.snapshot.id in st.db.objects && pc.snapshot.id !in st.db.previews
    requires IdsOk(st.db.objects, st.db.nextObject)
    ensures HasEffect(st, pc, NextDb(hash, st, pc), Effect({pc.path}, {}, {}, {}))
  {
    NewPreviewPath(st.db.objects, st.db.previews, pc.snapshot.id, pc.path);
  }

  lemma PreviewKeeps(objects: Objects, previews: Previews, o: ObjectId, path: Path)
    requires PreviewsOk(objects, previews) && o in objects && o !in previews && path !in RowPaths(objects, previews)
    ensures PreviewsOk(objects, previews[o := path])
  {
    assert forall x :: x in objects ==> objects[x].path in ObjectPaths(objects);
    assert forall x :: x in previews ==> previews[x] in PreviewPaths(previews);
  }

  lemma PreviewBytes(hash: Content -> Digest, st: Store, pc: Pc)
    requires BytesOk(hash, st) && PathsHeldOk(ViewOf(st), pc)
    requires pc.ThumbnailInsert? && pc.snapshot.id in st.db.objects && pc.snapshot.id !in st.db.previews
    ensures BytesOk(hash, NextDb(hash, st, pc).store)
  {
    assert pc.path in Owned(pc);
  }

  lemma PreviewPc(hash: Content -> Digest, st: Store, pc: Pc)
    requires pc.ThumbnailInsert? && pc.snapshot.id in st.db.objects && pc.snapshot.id !in st.db.previews
    ensures NextDb(hash, st, pc)
         == Move(st.(db := st.db.(previews := st.db.previews[pc.snapshot.id := pc.path])), Returned)
  {
  }

  lemma PreviewOk(hash: Content -> Digest, st: Store, pc: Pc)
    requires StoreOk(hash, st) && PcOk(hash, st, pc)
    requires pc.ThumbnailInsert? && pc.snapshot.id in st.db.objects && pc.snapshot.id !in st.db.previews
    ensures MoveOk(hash, st, pc, NextDb(hash, st, pc), Effect({pc.path}, {}, {}, {}))
  {
    PreviewPc(hash, st, pc);
    PreviewEffect(hash, st, pc);
    PreviewBytes(hash, st, pc);
    PreviewKeeps(st.db.objects, st.db.previews, pc.snapshot.id, pc.path);
    NothingLeft(hash, NextDb(hash, st, pc).store);
  }

  lemma CountsOnlyEffect(st: Store, pc: Pc, db': Database)
    requires Held(pc) == {} && OnlyCountsDiffer(st.db.objects, db'.objects)
    requires db'.previews == st.db.previews && db'.nextObject == st.db.nextObject
    ensures HasEffect(st, pc, Move(st.(db := db'), Returned), NOTHING)
  {
    SamePaths(st.db.objects, db'.objects, st.db.previews);
  }

  lemma CountsOnlyOk(hash: Content -> Digest, st: Store, pc: Pc, db': Database)
    requires StoreOk(hash, st) && Held(pc) == {} && DbOk(db')
    requires OnlyCountsDiffer(st.db.objects, db'.objects) && db'.previews == st.db.previews
    requires db'.nextObject == st.db.nextObject
    ensures MoveOk(hash, st, pc, Move(st.(db := db'), Returned), NOTHING)
  {
    CountsOnlyEffect(st, pc, db');
    BytesFrame(hash, st, pc, Move(st.(db := db'), Returned), NOTHING);
    NothingLeft(hash, st.(db := db'));
  }

  lemma NothingLeft(hash: Content -> Digest, st: Store)
    ensures PcOk(hash, st, Returned)
  {
  }

  lemma LinkOk(hash: Content -> Digest, st: Store, pc: Pc)
    requires StoreOk(hash, st) && PcOk(hash, st, pc) && pc.Link?
    ensures MoveOk(hash, st, pc, NextDb(hash, st, pc), NOTHING)
  {
    if AddReference(st.db, pc.user, pc.parent, pc.name, pc.snapshot).Ok? {
      AddReferenceKeeps(st.db, pc.user, pc.parent, pc.name, pc.snapshot);
    }
    CountsOnlyOk(hash, st, pc, NextDb(hash, st, pc).store.db);
  }

  lemma CreateManyOk(db: Database, user: UserId, parent: Option<FolderId>, items: seq<NamedObject>, quota: int)
    requires DbOk(db) && SnapshotsOk(db, items)
    ensures var db' := DbOr(CreateMany(db, user, parent, items, quota), db);
            && DbOk(db') && OnlyCountsDiffer(db.objects, db'.objects)
            && db'.previews == db.previews && db'.nextObject == db.nextObject
  {
    if CreateMany(db, user, parent, items, quota).Ok? {
      AddReferencesShape(db, user, parent, items);
      AddReferencesKeep(db, user, parent, items);
    }
  }

  lemma BatchLinkOk(hash: Content -> Digest, st: Store, pc: Pc)
    requires StoreOk(hash, st) && PcOk(hash, st, pc) && pc.BatchLink?
    ensures MoveOk(hash, st, pc, NextDb(hash, st, pc), NOTHING)
  {
    var quota := if pc.user in st.db.users then st.db.users[pc.user] else 0;
    CreateManyOk(st.db, pc.user, pc.parent, pc.items, quota);
    CountsOnlyOk(hash, st, pc, NextDb(hash, st, pc).store.db);
  }

  ghost function PurgeFreed(db: Database, user: UserId, file: FileId): set<Path> {
    var r := PurgeDeleted(db, user, file);
    if r.Err? || r.value.unreferenced.None? then {}
    else
      var gone := r.value.unreferenced.value;
      {gone.path} + (if gone.preview.Some? then {gone.preview.value} else {})
  }

  lemma PurgeEvolves(db: Database, user: UserId, file: FileId)
    requires PurgeDeleted(db, user, file).Ok?
    ensures DbEvolves(db, PurgeDeleted(db, user, file).value.db, {})
  {
  }

  lemma PurgeRows(db: Database, user: UserId, file: FileId)
    requires PathsOk(db.objects) && PreviewsOk(db.objects, db.previews) && PurgeDeleted(db, user, file).Ok?
    ensures var db' := PurgeDeleted(db, user, file).value.db;
            && RowPaths(db'.objects, db'.previews) == RowPaths(db.objects, db.previews) - PurgeFreed(db, user, file)
            && PurgeFreed(db, user, file) <= RowPaths(db.objects, db.previews)
  {
    var o := db.files[file].objectId;
    if PurgeDeleted(db, user, file).value.unreferenced.Some? {
      DroppedPaths(db.objects, db.previews, o);
      assert PurgeFreed(db, user, file) == {db.objects[o].path} + PreviewPath(db.previews, o);
    } else {
      SamePaths(db.objects, PurgeDeleted(db, user, file).value.db.objects, db.previews);
    }
  }

  lemma PurgePc(hash: Content -> Digest, st: Store, pc: Pc)
    requires pc.PurgeStart? && PreviewsOk(st.db.objects, st.db.previews)
    ensures var m := NextDb(hash, st, pc);
            && Removing(m.pc) == PurgeFreed(st.db, pc.user, pc.file) && Given(m.pc) == Owned(m.pc) == {}
            && (m.pc.RemoveObject? ==> m.pc.preview != Some(m.pc.path))
            && !HasSnapshot(m.pc) && !m.pc.BatchFind? && !m.pc.BatchLink? && !m.pc.UploadSelect?
            && m.store == st.(db := m.store.db)
            && (PurgeDeleted(st.db, pc.user, pc.file).Ok? ==>
                  m.store.db == PurgeDeleted(st.db, pc.user, pc.file).value.db)
            && (PurgeDeleted(st.db, pc.user, pc.file).Err? ==> m.store.db == st.db)
  {
  }

  lemma PurgeEffect(hash: Content -> Digest, st: Store, pc: Pc, m: Move)
    requires pc.PurgeStart? && m == NextDb(hash, st, pc) && PathsOk(st.db.objects)
    requires PreviewsOk(st.db.objects, st.db.previews)
    ensures HasEffect(st, pc, m, Effect({}, {}, {}, PurgeFreed(st.db, pc.user, pc.file)))
    ensures PurgeFreed(st.db, pc.user, pc.file) <= Rows(st)
    ensures Rows(m.store) == Rows(st) - PurgeFreed(st.db, pc.user, pc.file)
  {
    PurgePc(hash, st, pc);
    if PurgeDeleted(st.db, pc.user, pc.file).Ok? {
      PurgeEvolves(st.db, pc.user, pc.file);
      PurgeRows(st.db, pc.user, pc.file);
    }
  }

  lemma PurgeOk(hash: Content -> Digest, st: Store, pc: Pc)
    requires StoreOk(hash, st) && PcOk(hash, st, pc) && pc.PurgeStart?
    ensures MoveOk(hash, st, pc, NextDb(hash, st, pc), Effect({}, {}, {}, PurgeFreed(st.db, pc.user, pc.file)))
  {
    var m := NextDb(hash, st, pc);
    PurgePc(hash, st, pc);
    PurgeEffect(hash, st, pc, m);
    RowsStored(hash, st);
    BytesFrame(hash, st, pc, m, Effect({}, {}, {}, PurgeFreed(st.db, pc.user, pc.file)));
    if PurgeDeleted(st.db, pc.user, pc.file).Ok? {
      PurgeKeeps(st.db, pc.user, pc.file);
    }
  }

  // ---- any step of any call ----

  lemma QuietOk(hash: Content -> Digest, st: Store, pc: Pc, pc': Pc)
    requires StoreOk(hash, st) && PcOk(hash, st, pc')
    requires Held(pc') == Held(pc) && Owned(pc') == Owned(pc) && Given(pc') <= Given(pc)
    ensures MoveOk(hash, st, pc, Move(st, pc'), NOTHING)
  {
    QuietEffect(st, pc, pc');
  }

  lemma RefusedOk(hash: Content -> Digest, st: Store, pc: Pc)
    requires StoreOk(hash, st) && PcOk(hash, st, pc)
    requires pc.UploadInsert? || pc.ThumbnailInsert?
    requires pc.UploadInsert? ==> HasHash(st.db, hash(pc.req.content))
    requires pc.ThumbnailInsert? ==> pc.snapshot.id !in st.db.objects || pc.snapshot.id in st.db.previews
    ensures MoveOk(hash, st, pc, NextDb(hash, st, pc), NOTHING)
  {
    var m := NextDb(hash, st, pc);
    assert m.store == st;
    QuietOk(hash, st, pc, m.pc);
  }

  lemma DbStepOk(hash: Content -> Digest, st: Store, pc: Pc) returns (f: Effect)
    requires StoreOk(hash, st) && PcOk(hash, st, pc) && DbPc(pc)
    ensures MoveOk(hash, st, pc, NextDb(hash, st, pc), f)
  {
    f := NOTHING;
    if pc.UploadInsert? {
      if HasHash(st.db, hash(pc.req.content)) {
        RefusedOk(hash, st, pc);
      } else {
        f := Effect({pc.path}, {}, {}, {});
        InsertOk(hash, st, pc);
      }
    } else if pc.ThumbnailInsert? {
      if pc.snapshot.id !in st.db.objects || pc.snapshot.id in st.db.previews {
        RefusedOk(hash, st, pc);
      } else {
        f := Effect({pc.path}, {}, {}, {});
        PreviewOk(hash, st, pc);
      }
    } else if pc.Link? {
      LinkOk(hash, st, pc);
    } else if pc.BatchLink? {
      BatchLinkOk(hash, st, pc);
    } else {
      f := Effect({}, {}, {}, PurgeFreed(st.db, pc.user, pc.file));
      PurgeOk(hash, st, pc);
    }
  }

  lemma ReadStepOk(hash: Content -> Digest, st: Store, pc: Pc, image: Option<Content>)
    requires StoreOk(hash, st) && PcOk(hash, st, pc) && !SavePc(pc) && !ErasePc(pc) && !DbPc(pc)
    ensures MoveOk(hash, st, pc, Move(st, NextRead(hash, st, pc, image)), NOTHING)
  {
    if UploadReadPc(pc) {
      UploadReadOk(hash, st, pc);
    } else if pc.InstantStart? || pc.InstantFind? || pc.InstantQuota? || pc.BatchFind? {
      InstantReadOk(hash, st, pc);
    } else if pc.ThumbnailStart? || pc.ThumbnailFind? || pc.ThumbnailOpen? {
      ThumbnailReadOk(hash, st, pc, image);
    }
    QuietOk(hash, st, pc, NextRead(hash, st, pc, image));
  }

  lemma NextOk(hash: Content -> Digest, st: Store, pc: Pc, newPath: Path, image: Option<Content>, tolerant: bool)
    returns (f: Effect)
    requires StoreOk(hash, st) && PcOk(hash, st, pc)
    ensures MoveOk(hash, st, pc, Next(hash, st, pc, newPath, image, tolerant), f)
  {
    f := NOTHING;
    if SavePc(pc) {
      if newPath in st.used {
        QuietOk(hash, st, pc, pc);
      } else {
        f := Effect({}, {}, {newPath}, {});
        SaveOk(hash, st, pc, newPath);
      }
    } else if ErasePc(pc) {
      f := Effect({}, {pc.path}, {}, {});
      EraseOk(hash, st, pc, tolerant);
    } else if DbPc(pc) {
      f := DbStepOk(hash, st, pc);
    } else {
      ReadStepOk(hash, st, pc, image);
    }
  }

  lemma NoLeakKept(v: View, pc: Pc, v': View, pc': Pc, f: Effect, p: Path)
    requires ViewEffect(v, pc, v', f) && PcEffect(pc, pc', f) && p in v'.stored && p !in v'.rows
    ensures p in Held(pc') || (p in v.stored && p !in v.rows && p !in Held(pc))
  {
  }

  lemma AdvanceKeepsNoLeak(s: State, c: CallId, m: Move, f: Effect)
    requires NoLeak(s) && c in s.calls && HasEffect(s.store, s.calls[c], m, f)
    ensures NoLeak(State(m.store, s.calls[c := m.pc]))
  {
    var s' := State(m.store, s.calls[c := m.pc]);
    forall p | p in s'.store.stored && p !in Rows(s'.store)
      ensures exists d :: d in s'.calls && p in Held(s'.calls[d])
    {
      NoLeakKept(ViewOf(s.store), s.calls[c], ViewOf(m.store), m.pc, f, p);
      if p in Held(m.pc) {
        assert c in s'.calls && p in Held(s'.calls[c]);
      } else {
        var d :| d in s.calls && p in Held(s.calls[d]);
        assert d in s'.calls && p in Held(s'.calls[d]);
      }
    }
  }

  lemma AdvanceKeepsInv(hash: Content -> Digest, s: State, c: CallId, m: Move, f: Effect)
    requires Inv(hash, s) && c in s.calls && MoveOk(hash, s.store, s.calls[c], m, f)
    ensures Inv(hash, State(m.store, s.calls[c := m.pc]))
  {
    var s' := State(m.store, s.calls[c := m.pc]);
    forall d | d in s.calls && d != c
      ensures PcOk(hash, m.store, s.calls[d]) && ApartFrom(m.pc, s.calls[d])
    {
      OtherSurvives(hash, s.store, s.calls[c], m, f, s.calls[d]);
    }
    AdvanceKeepsNoLeak(s, c, m, f);
  }

  lemma FirstPcOk(hash: Content -> Digest, st: Store, first: Pc)
    requires FirstPc(first)
    ensures PcOk(hash, st, first) && Held(first) == Given(first) == {}
  {
    assert first.BatchFind? ==> SnapshotsOk(st.db, first.items);
  }

  lemma ArriveKeepsNoLeak(s: State, c: CallId, first: Pc)
    requires NoLeak(s) && c !in s.calls
    ensures NoLeak(s.(calls := s.calls[c := first]))
  {
    var s' := s.(calls := s.calls[c := first]);
    forall p | p in s'.store.stored && p !in Rows(s'.store)
      ensures exists d :: d in s'.calls && p in Held(s'.calls[d])
    {
      var d :| d in s.calls && p in Held(s.calls[d]);
      assert d in s'.calls && p in Held(s'.calls[d]);
    }
  }

  lemma ArriveKeepsInv(hash: Content -> Digest, s: State, c: CallId, first: Pc)
    requires Inv(hash, s) && c !in s.calls && FirstPc(first)
    ensures Inv(hash, s.(calls := s.calls[c := first]))
  {
    FirstPcOk(hash, s.store, first);
    ArriveKeepsNoLeak(s, c, first);
    assert forall d :: d in s.calls ==> ApartFrom(first, s.calls[d]) && ApartFrom(s.calls[d], first);
  }

  lemma TablesFrame(db: Database, e: Event)
    ensures var db' := NextTables(db, e);
            db'.objects == db.objects && db'.previews == db.previews && db'.nextObject == db.nextObject
  {
  }

  /** Statements on files, users and folders alone. */
  lemma TablesStepOk(db: Database, e: Event)
    requires DbOk(db)
    ensures DbOk(NextTables(db, e))
  {
    if e.Trash? {
      FileUpdatesKeep(db, e.user, e.file, e.keepShares, e.now, None, "");
    } else if e.Untrash? {
      FileUpdatesKeep(db, e.user, e.file, false, 0, None, "");
    } else if e.MoveFile? {
      FileUpdatesKeep(db, e.user, e.file, false, 0, e.parent, "");
    } else if e.RenameFile? {
      FileUpdatesKeep(db, e.user, e.file, false, 0, None, e.name);
    }
  }

  lemma SameRowsKeepPc(hash: Content -> Digest, st: Store, db': Database, pc: Pc)
    requires PcOk(hash, st, pc)
    requires db'.objects == st.db.objects && db'.previews == st.db.previews && db'.nextObject == st.db.nextObject
    ensures PcOk(hash, st.(db := db'), pc)
  {
    if pc.BatchFind? || pc.BatchLink? {
      assert SnapshotsOk(db', pc.items);
    }
  }

  lemma TablesKeepInv(hash: Content -> Digest, s: State, e: Event)
    requires Inv(hash, s)
    ensures Inv(hash, s.(store := s.store.(db := NextTables(s.store.db, e))))
  {
    var s' := s.(store := s.store.(db := NextTables(s.store.db, e)));
    TablesFrame(s.store.db, e);
    TablesStepOk(s.store.db, e);
    forall c | c in s.calls
      ensures PcOk(hash, s'.store, s.calls[c])
    {
      SameRowsKeepPc(hash, s.store, s'.store.db, s.calls[c]);
    }
    assert Rows(s'.store) == Rows(s.store);
    assert NoLeak(s');
  }

  lemma StepKeepsInv(hash: Content -> Digest, s: State, e: Event)
    requires Inv(hash, s)
    ensures Inv(hash, Step(hash, s, e))
  {
    if e.Arrive? {
      if e.call !in s.calls && FirstPc(e.first) {
        ArriveKeepsInv(hash, s, e.call, e.first);
      }
    } else if e.Advance? {
      if e.call in s.calls {
        var f := NextOk(hash, s.store, s.calls[e.call], e.newPath, e.image, e.tolerant);
        AdvanceKeepsInv(hash, s, e.call, Next(hash, s.store, s.calls[e.call], e.newPath, e.image, e.tolerant), f);
      }
    } else {
      TablesKeepInv(hash, s, e);
    }
  }

  lemma InitHasInv(hash: Content -> Digest, users: map<UserId, int>)
    ensures Inv(hash, Init(users))
  {
  }

  lemma {:induction false} RunKeepsInv(hash: Content -> Digest, s: State, events: seq<Event>)
    requires Inv(hash, s)
    ensures Inv(hash, Run(hash, s, events))
    decreases |events|
  {
    if events != [] {
      RunKeepsInv(hash, s, events[..|events| - 1]);
      StepKeepsInv(hash, Run(hash, s, events[..|events| - 1]), events[|events| - 1]);
    }
  }
}
