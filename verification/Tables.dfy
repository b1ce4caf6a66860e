/** The tables of internal/file and internal/share, and the statements and
    transactions of their repositories as functions from tables to tables. */
module Tables {
  import opened Options
  import opened Chunking
  import opened Totals

  type UserId = int
  type FileId = nat
  type ObjectId = nat
  type FolderId = nat
  type Path = string
  type Token = string

  datatype FileStatus = Active | Deleted

  datatype FileRow = FileRow(
    owner: UserId, parent: Option<FolderId>, objectId: ObjectId, name: string,
    path: Path, size: int, contentType: string, status: FileStatus, deletedAt: Option<Time>)

  datatype ObjectRow = ObjectRow(hash: Digest, path: Path, size: int, contentType: string, refs: int)

  datatype FolderRow = FolderRow(owner: UserId, parent: Option<FolderId>, name: string)

  datatype ScanStatus = Pending | Scanning | Clean | Infected | ScanFailed

  datatype ShareRow = ShareRow(file: FileId, maxDownloads: Option<int>, downloads: int)

  datatype CollectionRow = CollectionRow(owner: UserId, members: set<FileId>, maxDownloads: Option<int>, downloads: int)

  /** users maps each account to its storage_quota_bytes. */
  datatype Database = Database(
    users: map<UserId, int>,
    objects: map<ObjectId, ObjectRow>,
    files: map<FileId, FileRow>,
    folders: map<FolderId, FolderRow>,
    previews: map<ObjectId, Path>,
    scans: map<ObjectId, ScanStatus>,
    shares: map<Token, ShareRow>,
    collections: map<Token, CollectionRow>,
    nextObject: ObjectId,
    nextFile: FileId)

  const EMPTY := Database(map[], map[], map[], map[], map[], map[], map[], map[], 1, 1)

  datatype DbError =
    | FileNotFound
    | FileObjectNotFound
    | FolderNotFound
    | StorageQuotaExceeded
    | ConstraintViolated
    | ThumbUnsupported

  /** The tables after a statement or transaction that may have been refused. */
  function DbOr(r: Result<Database, DbError>, db: Database): Database {
    if r.Ok? then r.value else db
  }

  // ---- queries ----

  /** A row as a SELECT returned it; the table may have moved on since. */
  datatype Snapshot = Snapshot(id: ObjectId, row: ObjectRow)

  ghost predicate HasHash(db: Database, hash: Digest) {
    exists o :: o in db.objects && db.objects[o].hash == hash
  }

  /** FindFileObjectByHash. */
  ghost function FindObject(db: Database, hash: Digest): (r: Option<Snapshot>)
    ensures r.Some? <==> HasHash(db, hash)
    ensures r.Some? ==> r.value.id in db.objects && db.objects[r.value.id] == r.value.row && r.value.row.hash == hash
  {
    if HasHash(db, hash) then
      var o :| o in db.objects && db.objects[o].hash == hash;
      Some(Snapshot(o, db.objects[o]))
    else None
  }

  /** FindObjectForActiveFile: the join of an active file with its object. */
  function FindObjectForActiveFile(db: Database, file: FileId): Option<Snapshot> {
    if file in db.files && db.files[file].status == Active && db.files[file].objectId in db.objects
    then Some(Snapshot(db.files[file].objectId, db.objects[db.files[file].objectId]))
    else None
  }

  function FolderFound(db: Database, user: UserId, parent: Option<FolderId>): bool {
    parent.Some? ==> parent.value in db.folders && db.folders[parent.value].owner == user
  }

  function SizesOf(files: map<FileId, FileRow>, user: UserId): map<FileId, int> {
    map f | f in files && files[f].owner == user :: files[f].size
  }

  function ActiveSizesOf(files: map<FileId, FileRow>, user: UserId): map<FileId, int> {
    map f | f in files && files[f].owner == user && files[f].status == Active :: files[f].size
  }

  /** TotalFileSizeByUser: trash counts. */
  ghost function UsedBytes(db: Database, user: UserId): int {
    Total(SizesOf(db.files, user))
  }

  /** The sum inside CreateManyWithObjectsInFolder: trash does not count. */
  ghost function ActiveBytes(db: Database, user: UserId): int {
    Total(ActiveSizesOf(db.files, user))
  }

  /** The quota test in the form that cannot overflow. */
  function QuotaAllows(quota: int, used: int, additional: int): bool {
    !(used > quota || additional > quota - used)
  }

  /** EnsureStorageQuota. */
  ghost predicate QuotaOk(db: Database, user: UserId, additional: int) {
    user in db.users && QuotaAllows(db.users[user], UsedBytes(db, user), additional)
  }

  // ---- file objects and previews ----

  /** The INSERT of CreateFileObject, refused by the unique index on file_hash. */
  ghost function InsertObject(db: Database, hash: Digest, path: Path, size: int,
                              contentType: string): Option<Database> {
    if HasHash(db, hash) then None
    else Some(db.(objects := db.objects[db.nextObject := ObjectRow(hash, path, size, contentType, 0)],
                  nextObject := db.nextObject + 1))
  }

  predicate SupportsThumbnail(contentType: string) {
    || contentType == "image/jpeg" || contentType == "image/png" || contentType == "image/gif"
    || contentType == "image/webp" || "video/" <= contentType
  }

  datatype PreviewInsert = PreviewInsert(db: Database, created: bool)

  /** CreateFilePreview: refused without its object, ignored on conflict. */
  function InsertPreview(db: Database, objectId: ObjectId, path: Path): Result<PreviewInsert, DbError> {
    if objectId !in db.objects then Err(ConstraintViolated)
    else if objectId in db.previews then Ok(PreviewInsert(db, false))
    else Ok(PreviewInsert(db.(previews := db.previews[objectId := path]), true))
  }

  // ---- user files ----

  function NewFile(user: UserId, parent: Option<FolderId>, name: string, snapshot: Snapshot): FileRow {
    FileRow(user, parent, snapshot.id, name, snapshot.row.path, snapshot.row.size, snapshot.row.contentType, Active,
        None)
  }

  /** One INSERT INTO user_files with its foreign keys, and the increment. */
  function AddReference(db: Database, user: UserId, parent: Option<FolderId>, name: string, snapshot: Snapshot)
    : Result<Database, DbError>
  {
    if user !in db.users || snapshot.id !in db.objects || (parent.Some? && parent.value !in db.folders) then
      Err(ConstraintViolated)
    else
      var row := db.objects[snapshot.id];
      Ok(db.(files := db.files[db.nextFile := NewFile(user, parent, name, snapshot)],
             nextFile := db.nextFile + 1,
             objects := db.objects[snapshot.id := row.(refs := row.refs + 1)]))
  }

  datatype NamedObject = NamedObject(name: string, snapshot: Snapshot)

  /** The insert loop of CreateManyWithObjectsInFolder. */
  function AddReferences(db: Database, user: UserId, parent: Option<FolderId>, items: seq<NamedObject>)
    : Result<Database, DbError>
  {
    if items == [] then Ok(db)
    else
      var first := AddReferences(db, user, parent, items[..|items| - 1]);
      if first.Err? then first
      else
        var last := items[|items| - 1];
        AddReference(first.value, user, parent, last.name, last.snapshot)
  }

  function SizeSum(items: seq<NamedObject>): int {
    if items == [] then 0 else SizeSum(items[..|items| - 1]) + items[|items| - 1].snapshot.row.size
  }

  /** CreateManyWithObjectsInFolder: one transaction, so an error changes nothing. */
  ghost function CreateMany(db: Database, user: UserId, parent: Option<FolderId>, items: seq<NamedObject>, quota: int)
    : Result<Database, DbError>
  {
    if items == [] then Err(FileObjectNotFound)
    else if user !in db.users then Err(FileNotFound)
    else if !FolderFound(db, user, parent) then Err(FolderNotFound)
    else if !QuotaAllows(quota, ActiveBytes(db, user), SizeSum(items)) then Err(StorageQuotaExceeded)
    else AddReferences(db, user, parent, items)
  }

  function WithoutSharesOf(shares: map<Token, ShareRow>, file: FileId): map<Token, ShareRow> {
    map t | t in shares && shares[t].file != file :: shares[t]
  }

  /** The trigger: a file that goes to trash takes its collections with it. */
  function WithoutCollectionsOf(collections: map<Token, CollectionRow>, file: FileId): map<Token, CollectionRow> {
    map t | t in collections && file !in collections[t].members :: collections[t]
  }

  /** ON DELETE CASCADE from user_files to share_collection_items. */
  function WithoutMember(collections: map<Token, CollectionRow>, file: FileId): map<Token, CollectionRow> {
    map t | t in collections :: collections[t].(members := collections[t].members - {file})
  }

  function SoftDelete(db: Database, user: UserId, file: FileId, keepShares: bool,
                      now: Time): Result<Database, DbError> {
    if file in db.files && db.files[file].owner == user && db.files[file].status == Active then
      Ok(db.(files := db.files[file := db.files[file].(status := Deleted, deletedAt := Some(now))],
             collections := WithoutCollectionsOf(db.collections, file),
             shares := if keepShares then db.shares else WithoutSharesOf(db.shares, file)))
    else Err(FileNotFound)
  }

  function Restore(db: Database, user: UserId, file: FileId): Result<Database, DbError> {
    if file in db.files && db.files[file].owner == user && db.files[file].status == Deleted then
      Ok(db.(files := db.files[file := db.files[file].(status := Active, deletedAt := None)]))
    else Err(FileNotFound)
  }

  function MoveActive(db: Database, user: UserId, file: FileId, parent: Option<FolderId>): Result<Database, DbError> {
    if !(file in db.files && db.files[file].owner == user && db.files[file].status == Active) then Err(FileNotFound)
    else if parent.Some? && parent.value !in db.folders then Err(ConstraintViolated)
    else Ok(db.(files := db.files[file := db.files[file].(parent := parent)]))
  }

  function RenameActive(db: Database, user: UserId, file: FileId, name: string): Result<Database, DbError> {
    if file in db.files && db.files[file].owner == user && db.files[file].status == Active then
      Ok(db.(files := db.files[file := db.files[file].(name := name)]))
    else Err(FileNotFound)
  }

  /** The paths PermanentlyDelete still has to remove from storage. */
  datatype Unreferenced = Unreferenced(path: Path, preview: Option<Path>)

  datatype Purged = Purged(db: Database, unreferenced: Option<Unreferenced>)

  /** PermanentlyDeleteDeleted: one transaction. */
  function PurgeDeleted(db: Database, user: UserId, file: FileId): Result<Purged, DbError> {
    if !(file in db.files && db.files[file].owner == user && db.files[file].status == Deleted
         && db.files[file].objectId in db.objects)
    then Err(FileNotFound)
    else
      var o := db.files[file].objectId;
      var row := db.objects[o];
      if row.refs <= 0 then Err(FileObjectNotFound)
      else
        var without := db.(files := db.files - {file},
                           shares := WithoutSharesOf(db.shares, file),
                           collections := WithoutMember(db.collections, file));
        if row.refs > 1 then
          Ok(Purged(without.(objects := db.objects[o := row.(refs := row.refs - 1)]), None))
        else
          Ok(Purged(without.(objects := db.objects - {o}, previews := db.previews - {o}, scans := db.scans - {o}),
                    Some(Unreferenced(row.path, if o in db.previews then Some(db.previews[o]) else None))))
  }
}
