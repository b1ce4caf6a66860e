/** Uploads, instant uploads, batch saves, thumbnails and permanent deletes
    sharing one deduplicated object store (internal/file/service.go,
    internal/file/thumbnail.go). One SQL statement or transaction, or one
    storage call, is one step; the steps of all calls interleave freely. */
module ObjectStore {
  import opened Options
  import opened Chunking
  import opened Tables
  import opened References

  type CallId = nat

  datatype Request = Request(user: UserId, parent: Option<FolderId>, name: string, contentType: string,
      content: Content)

  /** Where a call is. given marks an upload whose INSERT succeeded, so that the
      object row, not the call, has the path. */
  datatype Pc =
    | UploadStart(req: Request)
    | UploadSave(req: Request)
    | UploadQuota(req: Request, path: Path)
    | UploadFind(req: Request, path: Path)
    | UploadInsert(req: Request, path: Path)
    | UploadSelect(req: Request, path: Path)
    | UploadFindAgain(req: Request, path: Path, given: bool)
    | UploadDrop(req: Request, path: Path, given: bool, snapshot: Snapshot)
    | Discard(path: Path, given: bool)
    | Link(user: UserId, parent: Option<FolderId>, name: string, snapshot: Snapshot)
    | InstantStart(user: UserId, parent: Option<FolderId>, name: string, hash: Digest)
    | InstantFind(user: UserId, parent: Option<FolderId>, name: string, hash: Digest)
    | InstantQuota(user: UserId, parent: Option<FolderId>, name: string, snapshot: Snapshot)
    | BatchFind(user: UserId, parent: Option<FolderId>, todo: seq<(string, Digest)>, items: seq<NamedObject>)
    | BatchLink(user: UserId, parent: Option<FolderId>, items: seq<NamedObject>)
    | PurgeStart(user: UserId, file: FileId)
    | RemoveObject(path: Path, preview: Option<Path>)
    | RemovePreview(path: Path)
    | ThumbnailStart(file: FileId)
    | ThumbnailFind(snapshot: Snapshot)
    | ThumbnailOpen(snapshot: Snapshot)
    | ThumbnailSave(snapshot: Snapshot, image: Content)
    | ThumbnailInsert(snapshot: Snapshot, path: Path)
    | Returned

  /** What the calls share. used holds every path ever handed out: uuid names
      are fresh. */
  datatype Store = Store(db: Database, stored: map<Path, Content>, used: set<Path>)

  datatype State = State(store: Store, calls: map<CallId, Pc>)

  /** Choices made outside this model: the fresh path, the decoder's outcome,
      whether storage reports a missing file as an error (local disk does, MinIO
      does not), and what other services do to files and folders. */
  datatype Event =
    | Arrive(call: CallId, first: Pc)
    | Advance(call: CallId, newPath: Path, image: Option<Content>, tolerant: bool)
    | Trash(user: UserId, file: FileId, keepShares: bool, now: Time)
    | Untrash(user: UserId, file: FileId)
    | MoveFile(user: UserId, file: FileId, parent: Option<FolderId>)
    | RenameFile(user: UserId, file: FileId, name: string)
    | Others(users: map<UserId, int>, folders: map<FolderId, FolderRow>)

  function Init(users: map<UserId, int>): State {
    State(Store(EMPTY.(users := users), map[], {}), map[])
  }

  predicate FirstPc(pc: Pc) {
    pc.UploadStart? || pc.InstantStart? || (pc.BatchFind? && pc.items == []) || pc.PurgeStart? || pc.ThumbnailStart?
  }

  // ---- steps ----

  datatype Move = Move(store: Store, pc: Pc)

  predicate SavePc(pc: Pc) {
    pc.UploadSave? || pc.ThumbnailSave?
  }

  /** storage.Save under a fresh name. */
  function NextSave(st: Store, pc: Pc, newPath: Path): Move
    requires SavePc(pc)
  {
    var bytes := if pc.UploadSave? then pc.req.content else pc.image;
    Move(st.(stored := st.stored[newPath := bytes], used := st.used + {newPath}),
         if pc.UploadSave? then UploadQuota(pc.req, newPath) else ThumbnailInsert(pc.snapshot, newPath))
  }

  predicate ErasePc(pc: Pc) {
    pc.UploadDrop? || pc.Discard? || pc.RemoveObject? || pc.RemovePreview?
  }

  /** storage.Delete. */
  function NextErase(st: Store, pc: Pc, tolerant: bool): Move
    requires ErasePc(pc)
  {
    Move(st.(stored := st.stored - {pc.path}),
         if pc.UploadDrop? && (pc.path in st.stored || tolerant)
           then Link(pc.req.user, pc.req.parent, pc.req.name, pc.snapshot)
         else if pc.RemoveObject? && pc.preview.Some? then RemovePreview(pc.preview.value)
         else Returned)
  }

  predicate DbPc(pc: Pc) {
    pc.UploadInsert? || pc.Link? || pc.BatchLink? || pc.PurgeStart? || pc.ThumbnailInsert?
  }

  /** One INSERT or one transaction. */
  ghost function NextDb(hash: Content -> Digest, st: Store, pc: Pc): Move
    requires DbPc(pc)
  {
    match pc
    case UploadInsert(req, path) =>
      var r := InsertObject(st.db, hash(req.content), path, |req.content|, req.contentType);
      if r.Some? then Move(st.(db := r.value), UploadSelect(req, path)) else Move(st, UploadFindAgain(req, path, false))
    case Link(user, parent, name, snapshot) =>
      Move(st.(db := DbOr(AddReference(st.db, user, parent, name, snapshot), st.db)), Returned)
    case BatchLink(user, parent, items) =>
      var quota := if user in st.db.users then st.db.users[user] else 0;
      Move(st.(db := DbOr(CreateMany(st.db, user, parent, items, quota), st.db)), Returned)
    case PurgeStart(user, file) =>
      var r := PurgeDeleted(st.db, user, file);
      if r.Err? then Move(st, Returned)
      else
        var u := r.value.unreferenced;
        Move(st.(db := r.value.db), if u.Some? then RemoveObject(u.value.path, u.value.preview) else Returned)
    case ThumbnailInsert(snapshot, path) =>
      var r := InsertPreview(st.db, snapshot.id, path);
      if r.Ok? && r.value.created then Move(st.(db := r.value.db), Returned) else Move(st, Discard(path, false))
  }

  /** The steps that only read. */
  ghost function NextRead(hash: Content -> Digest, st: Store, pc: Pc, image: Option<Content>): Pc {
    if UploadReadPc(pc) then NextUploadRead(hash, st, pc)
    else if pc.InstantStart? || pc.InstantFind? || pc.InstantQuota? || pc.BatchFind? then NextInstantRead(st, pc)
    else if pc.ThumbnailStart? || pc.ThumbnailFind? || pc.ThumbnailOpen? then NextThumbnailRead(st, pc, image)
    else Returned
  }

  predicate UploadReadPc(pc: Pc) {
    pc.UploadStart? || pc.UploadQuota? || pc.UploadFind? || pc.UploadSelect? || pc.UploadFindAgain?
  }

  ghost function NextUploadRead(hash: Content -> Digest, st: Store, pc: Pc): Pc
    requires UploadReadPc(pc)
  {
    var found := FindObject(st.db, hash(pc.req.content));
    if pc.UploadStart? then
      if pc.req.name != "" && FolderFound(st.db, pc.req.user, pc.req.parent) then UploadSave(pc.req) else Returned
    else if pc.UploadQuota? then
      if QuotaOk(st.db, pc.req.user, |pc.req.content|) then UploadFind(pc.req, pc.path) else Discard(pc.path, false)
    else if pc.UploadFind? then
      if found.Some? then UploadDrop(pc.req, pc.path, false, found.value) else UploadInsert(pc.req, pc.path)
    // The SELECT at the end of CreateFileObject.
    else if pc.UploadSelect? then
      if found.Some? then Link(pc.req.user, pc.req.parent, pc.req.name, found.value)
      else UploadFindAgain(pc.req, pc.path, true)
    // The second look after CreateFileObject has failed.
    else
      if found.Some? then UploadDrop(pc.req, pc.path, pc.given, found.value) else Discard(pc.path, pc.given)
  }

  ghost function NextInstantRead(st: Store, pc: Pc): Pc
    requires pc.InstantStart? || pc.InstantFind? || pc.InstantQuota? || pc.BatchFind?
  {
    match pc
    case InstantStart(user, parent, name, digest) =>
      if name != "" && digest != "" && FolderFound(st.db, user, parent) then InstantFind(user, parent, name, digest)
      else Returned
    case InstantFind(user, parent, name, digest) =>
      var found := FindObject(st.db, digest);
      if found.Some? then InstantQuota(user, parent, name, found.value) else Returned
    case InstantQuota(user, parent, name, snapshot) =>
      if QuotaOk(st.db, user, snapshot.row.size) then Link(user, parent, name, snapshot) else Returned
    case BatchFind(user, parent, todo, items) =>
      if todo == [] then BatchLink(user, parent, items)
      else
        var found := FindObject(st.db, todo[0].1);
        if todo[0].0 == "" || todo[0].1 == "" || found.None? then Returned
        else BatchFind(user, parent, todo[1..], items + [NamedObject(todo[0].0, found.value)])
  }

  ghost function NextThumbnailRead(st: Store, pc: Pc, image: Option<Content>): Pc
    requires pc.ThumbnailStart? || pc.ThumbnailFind? || pc.ThumbnailOpen?
  {
    match pc
    case ThumbnailStart(file) =>
      var found := FindObjectForActiveFile(st.db, file);
      if found.Some? && SupportsThumbnail(found.value.row.contentType) then ThumbnailFind(found.value) else Returned
    case ThumbnailFind(snapshot) => if snapshot.id in st.db.previews then Returned else ThumbnailOpen(snapshot)
    case ThumbnailOpen(snapshot) =>
      if snapshot.row.path in st.stored && image.Some? then ThumbnailSave(snapshot, image.value) else Returned
  }

  ghost function Next(hash: Content -> Digest, st: Store, pc: Pc, newPath: Path, image: Option<Content>,
      tolerant: bool): Move {
    if SavePc(pc) then (if newPath in st.used then Move(st, pc) else NextSave(st, pc, newPath))
    else if ErasePc(pc) then NextErase(st, pc, tolerant)
    else if DbPc(pc) then NextDb(hash, st, pc)
    else Move(st, NextRead(hash, st, pc, image))
  }

  /** What the calls that are one statement do to the tables. */
  function NextTables(db: Database, e: Event): Database {
    match e
    case Trash(user, file, keepShares, now) => DbOr(SoftDelete(db, user, file, keepShares, now), db)
    case Untrash(user, file) => DbOr(Restore(db, user, file), db)
    case MoveFile(user, file, parent) => DbOr(MoveActive(db, user, file, parent), db)
    case RenameFile(user, file, name) => DbOr(RenameActive(db, user, file, name), db)
    case Others(users, folders) => db.(users := users, folders := folders)
    case _ => db
  }

  ghost function Step(hash: Content -> Digest, s: State, e: Event): State {
    match e
    case Arrive(c, first) => if c in s.calls || !FirstPc(first) then s else s.(calls := s.calls[c := first])
    case Advance(c, newPath, image, tolerant) =>
      if c !in s.calls then s
      else
        var move := Next(hash, s.store, s.calls[c], newPath, image, tolerant);
        State(move.store, s.calls[c := move.pc])
    case _ => s.(store := s.store.(db := NextTables(s.store.db, e)))
  }

  ghost function Run(hash: Content -> Digest, s: State, events: seq<Event>): State {
    if events == [] then s else Step(hash, Run(hash, s, events[..|events| - 1]), events[|events| - 1])
  }
}
