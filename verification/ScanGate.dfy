/** Virus scans and everything that opens content, with a scanner configured:
    scan jobs, private and shared downloads, previews, thumbnails
    (internal/file/service.go, internal/file/thumbnail.go,
    internal/share/service.go). Each statement, storage call and scanner run is
    one step, so every check-then-open can be overtaken by uploads, deletes and
    other scans. */
module ScanGate {
  import opened Options
  import opened Chunking
  import opened Tables
  import opened References

  type CallId = nat

  datatype Pc =
    | ScanStart(user: UserId, file: FileId)
    | ScanFind(file: FileId)
    | ScanInsert(file: FileId, snapshot: Snapshot)
    | ScanSelect(file: FileId, snapshot: Snapshot)
    | ScanClaim(file: FileId, snapshot: Snapshot)
    | ScanOpen(file: FileId, snapshot: Snapshot)
    | ScanRun(file: FileId, snapshot: Snapshot, content: Content)
    | ScanFinish(file: FileId, snapshot: Snapshot, infected: bool)
    | ScanFail(file: FileId, snapshot: Snapshot)
    | ScanEnqueue(file: FileId, snapshot: Snapshot)
    | ReadStart(user: UserId, file: FileId)
    | ReadFind(file: FileId, row: FileRow)
    | SharedStart(file: FileId)
    | PreviewStart(user: UserId, file: FileId)
    | PublicPreviewStart(file: FileId)
    | PublicPreviewCheck(file: FileId, objectId: ObjectId)
    | PublicPreviewFind(file: FileId, objectId: ObjectId)
    | ReadCheck(objectId: ObjectId, path: Path, preview: bool)
    | ReadOpen(objectId: ObjectId, path: Path, preview: bool)
    | Reading(objectId: ObjectId, path: Path, preview: bool, content: Content)
    | ThumbStart(file: FileId)
    | ThumbFind(snapshot: Snapshot)
    | ThumbOpen(snapshot: Snapshot)
    | Decoding(snapshot: Snapshot, content: Content)
    | ThumbSave(snapshot: Snapshot, image: Content)
    | ThumbInsert(snapshot: Snapshot, path: Path)
    | Returned

  /** origins, cleared, flagged and passed are history, read by no step: the
      content a path was saved from (for a thumbnail, the content it was decoded
      from), the contents the scanner has found clean or infected, and the objects
      whose scan row has been set to clean. */
  datatype Store = Store(
    db: Database, stored: map<Path, Content>, thumbJobs: set<FileId>,
    origins: map<Path, Content>, cleared: set<Content>, flagged: set<Content>, passed: set<ObjectId>)

  datatype State = State(store: Store, calls: map<CallId, Pc>)

  /** Advance carries what is decided elsewhere: the scanner's verdict (None when
      it fails or times out), the decoder's image and the fresh name. The other
      events are what uploads, deletes and folders do to the shared tables. */
  datatype Event =
    | Arrive(call: CallId, first: Pc)
    | Advance(call: CallId, infected: Option<bool>, image: Option<Content>, newPath: Path)
    | NewObject(hash: Digest, path: Path, content: Content, contentType: string)
    | Pend(objectId: ObjectId)
    | LinkFile(user: UserId, parent: Option<FolderId>, name: string, objectId: ObjectId)
    | Trash(user: UserId, file: FileId, keepShares: bool, now: Time)
    | Untrash(user: UserId, file: FileId)
    | Purge(user: UserId, file: FileId)
    | Erase(path: Path)

  function Init(users: map<UserId, int>): State {
    State(Store(EMPTY.(users := users), map[], {}, map[], {}, {}, {}), map[])
  }

  predicate FirstPc(st: Store, pc: Pc) {
    pc.ScanStart? || pc.ReadStart? || pc.SharedStart? || pc.PreviewStart? || pc.PublicPreviewStart?
    || (pc.ThumbStart? && pc.file in st.thumbJobs)
  }

  // ---- the scan transitions of the repository ----

  /** CreatePendingFileScan's INSERT: needs the object, keeps an existing row. */
  function InsertScan(db: Database, o: ObjectId): Option<Database> {
    if o !in db.objects then None
    else if o in db.scans then Some(db)
    else Some(db.(scans := db.scans[o := Pending]))
  }

  predicate CanClaim(db: Database, o: ObjectId) {
    o in db.scans && (db.scans[o] == Pending || db.scans[o] == ScanFailed)
  }

  /** updateRunningFileScan. */
  function FinishScan(db: Database, o: ObjectId, status: ScanStatus): Option<Database> {
    if o in db.scans && db.scans[o] == Scanning then Some(db.(scans := db.scans[o := status])) else None
  }

  /** CheckFileObjectDownload. */
  predicate MayDownload(db: Database, o: ObjectId) {
    o in db.scans && db.scans[o] == Clean
  }

  // ---- steps ----

  datatype Move = Move(store: Store, pc: Pc)

  predicate ScanPc(pc: Pc) {
    pc.ScanStart? || pc.ScanFind? || pc.ScanInsert? || pc.ScanSelect? || pc.ScanClaim? || pc.ScanOpen?
    || pc.ScanRun? || pc.ScanFinish? || pc.ScanFail? || pc.ScanEnqueue?
  }

  /** ScanActiveFile. */
  function NextScan(st: Store, pc: Pc, infected: Option<bool>): Move
    requires ScanPc(pc)
  {
    var db := st.db;
    match pc
    case ScanStart(user, file) =>
      Move(st, if file in db.files && db.files[file].owner == user && db.files[file].status == Active
                 then ScanFind(file) else Returned)
    case ScanFind(file) =>
      var found := FindObjectForActiveFile(db, file);
      Move(st, if found.Some? then ScanInsert(file, found.value) else Returned)
    case ScanInsert(file, snapshot) =>
      var r := InsertScan(db, snapshot.id);
      if r.Some? then Move(st.(db := r.value), ScanSelect(file, snapshot)) else Move(st, Returned)
    case ScanSelect(file, snapshot) =>
      Move(st, if snapshot.id in db.scans then ScanClaim(file, snapshot) else Returned)
    case ScanClaim(file, snapshot) =>
      if CanClaim(db, snapshot.id)
        then Move(st.(db := db.(scans := db.scans[snapshot.id := Scanning])), ScanOpen(file, snapshot))
      else Move(st, Returned)
    case ScanOpen(file, snapshot) =>
      Move(st, if snapshot.row.path in st.stored then ScanRun(file, snapshot, st.stored[snapshot.row.path])
               else ScanFail(file, snapshot))
    case ScanRun(file, snapshot, content) =>
      if infected.None? then Move(st, ScanFail(file, snapshot))
      else if infected.value then Move(st.(flagged := st.flagged + {content}), ScanFinish(file, snapshot, true))
      else Move(st.(cleared := st.cleared + {content}), ScanFinish(file, snapshot, false))
    case ScanFinish(file, snapshot, isInfected) =>
      var r := FinishScan(db, snapshot.id, if isInfected then Infected else Clean);
      if r.None? then Move(st, Returned)
      else if isInfected then Move(st.(db := r.value), Returned)
      else Move(st.(db := r.value, passed := st.passed + {snapshot.id}), ScanEnqueue(file, snapshot))
    case ScanFail(file, snapshot) =>
      var r := FinishScan(db, snapshot.id, ScanFailed);
      Move(if r.Some? then st.(db := r.value) else st, Returned)
    case ScanEnqueue(file, snapshot) =>
      var wanted := SupportsThumbnail(snapshot.row.contentType) && snapshot.id !in db.previews;
      Move(if wanted then st.(thumbJobs := st.thumbJobs + {file}) else st, Returned)
  }

  predicate ReadPc(pc: Pc) {
    pc.ReadStart? || pc.ReadFind? || pc.SharedStart? || pc.PreviewStart? || pc.PublicPreviewStart?
    || pc.PublicPreviewCheck? || pc.PublicPreviewFind? || pc.ReadCheck? || pc.ReadOpen?
  }

  predicate ActiveFile(db: Database, file: FileId) {
    file in db.files && db.files[file].status == Active
  }

  /** The join of an active file with the preview of its object. */
  function FindPreview(db: Database, file: FileId): Option<Path> {
    if ActiveFile(db, file) && db.files[file].objectId in db.previews then Some(db.previews[db.files[file].objectId])
    else None
  }

  /** OpenForDownload and OpenInlinePreview (ReadStart), a shared or collection
      file (SharedStart), OpenThumbnailForDownload (PreviewStart) and
      OpenPublicPreviewFromIP, which checks the file's object and then looks its
      preview up. */
  function NextRead(st: Store, pc: Pc): Pc
    requires ReadPc(pc)
  {
    var db := st.db;
    match pc
    case ReadStart(user, file) =>
      if ActiveFile(db, file) && db.files[file].owner == user then ReadFind(file, db.files[file]) else Returned
    case ReadFind(file, row) =>
      var found := FindObjectForActiveFile(db, file);
      if found.Some? then ReadCheck(found.value.id, row.path, false) else Returned
    case SharedStart(file) =>
      if ActiveFile(db, file) then ReadCheck(db.files[file].objectId, db.files[file].path, false) else Returned
    case PreviewStart(user, file) =>
      var found := FindPreview(db, file);
      if found.Some? && db.files[file].owner == user then ReadCheck(db.files[file].objectId, found.value, true)
      else Returned
    case PublicPreviewStart(file) =>
      if ActiveFile(db, file) then PublicPreviewCheck(file, db.files[file].objectId) else Returned
    case PublicPreviewCheck(file, o) => if MayDownload(db, o) then PublicPreviewFind(file, o) else Returned
    case PublicPreviewFind(file, o) =>
      var found := FindPreview(db, file);
      if found.Some? then ReadOpen(o, found.value, true) else Returned
    case ReadCheck(o, path, preview) => if MayDownload(db, o) then ReadOpen(o, path, preview) else Returned
    case ReadOpen(o, path, preview) => if path in st.stored then Reading(o, path, preview, st.stored[path])
                                       else Returned
  }

  predicate ThumbPc(pc: Pc) {
    pc.ThumbStart? || pc.ThumbFind? || pc.ThumbOpen? || pc.Decoding? || pc.ThumbSave? || pc.ThumbInsert?
  }

  /** GenerateThumbnailForActiveFile. */
  function NextThumb(st: Store, pc: Pc, image: Option<Content>, newPath: Path): Move
    requires ThumbPc(pc)
  {
    match pc
    case ThumbStart(file) =>
      var found := FindObjectForActiveFile(st.db, file);
      Move(st, if found.Some? && SupportsThumbnail(found.value.row.contentType) then ThumbFind(found.value)
               else Returned)
    case ThumbFind(snapshot) => Move(st, if snapshot.id in st.db.previews then Returned else ThumbOpen(snapshot))
    case ThumbOpen(snapshot) =>
      Move(st, if snapshot.row.path in st.stored then Decoding(snapshot, st.stored[snapshot.row.path]) else Returned)
    case Decoding(snapshot, content) => Move(st, if image.Some? then ThumbSave(snapshot, image.value) else Returned)
    case ThumbSave(snapshot, bytes) =>
      if newPath in st.origins || snapshot.row.path !in st.origins then Move(st, pc)
      else Move(st.(stored := st.stored[newPath := bytes],
            origins := st.origins[newPath := st.origins[snapshot.row.path]]),
                ThumbInsert(snapshot, newPath))
    case ThumbInsert(snapshot, path) =>
      var r := InsertPreview(st.db, snapshot.id, path);
      if r.Ok? && r.value.created then Move(st.(db := r.value.db), Returned)
      else Move(st.(stored := st.stored - {path}), Returned)
  }

  function Next(st: Store, pc: Pc, e: Event): Move
    requires e.Advance?
  {
    if ScanPc(pc) then NextScan(st, pc, e.infected)
    else if ReadPc(pc) then Move(st, NextRead(st, pc))
    else if ThumbPc(pc) then NextThumb(st, pc, e.image, e.newPath)
    else Move(st, Returned)
  }

  /** What the rest of the service does, one statement or transaction at a time. */
  ghost function NextStore(st: Store, e: Event): Store {
    match e
    case NewObject(hash, path, content, contentType) =>
      var r := InsertObject(st.db, hash, path, |content|, contentType);
      if r.None? || path in st.origins then st
      else st.(db := r.value, stored := st.stored[path := content], origins := st.origins[path := content])
    case Pend(o) =>
      var r := InsertScan(st.db, o);
      if r.Some? then st.(db := r.value) else st
    case LinkFile(user, parent, name, o) =>
      if o !in st.db.objects then st
      else st.(db := DbOr(AddReference(st.db, user, parent, name, Snapshot(o, st.db.objects[o])), st.db))
    case Trash(user, file, keepShares, now) => st.(db := DbOr(SoftDelete(st.db, user, file, keepShares, now), st.db))
    case Untrash(user, file) => st.(db := DbOr(Restore(st.db, user, file), st.db))
    case Purge(user, file) =>
      var r := PurgeDeleted(st.db, user, file);
      if r.Ok? then st.(db := r.value.db) else st
    case Erase(path) => st.(stored := st.stored - {path})
    case _ => st
  }

  ghost function Step(s: State, e: Event): State {
    match e
    case Arrive(c, first) => if c in s.calls || !FirstPc(s.store, first) then s else s.(calls := s.calls[c := first])
    case Advance(c, _, _, _) =>
      if c !in s.calls then s
      else
        var m := Next(s.store, s.calls[c], e);
        State(m.store, s.calls[c := m.pc])
    case _ => s.(store := NextStore(s.store, e))
  }

  ghost function Run(s: State, events: seq<Event>): State {
    if events == [] then s else Step(Run(s, events[..|events| - 1]), events[|events| - 1])
  }
}
