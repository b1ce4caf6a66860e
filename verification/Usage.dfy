/** Storage usage, its cache and the quota (internal/file/service.go), one service
    call at a time. */
module Usage {
  import opened Options
  import opened Chunking
  import opened Totals
  import opened Tables
  import opened References

  datatype CallError = NameRequired | HashRequired | NoSuchFolder | NoSuchObject | OverQuota | Refused(error: DbError)

  function Linked(r: Result<Database, DbError>): Result<Database, CallError> {
    if r.Ok? then Ok(r.value) else Err(Refused(r.error))
  }

  /** UploadIntoFolder, as far as the tables go: the content's object, found or
      new, gets one more file. */
  ghost function Upload(db: Database, user: UserId, parent: Option<FolderId>, name: string, contentType: string,
                        hash: Digest, size: int, path: Path): Result<Database, CallError> {
    if name == "" then Err(NameRequired)
    else if !FolderFound(db, user, parent) then Err(NoSuchFolder)
    else if !QuotaOk(db, user, size) then Err(OverQuota)
    else
      var found := FindObject(db, hash);
      if found.Some? then Linked(AddReference(db, user, parent, name, found.value))
      else
        Linked(AddReference(InsertObject(db, hash, path, size, contentType).value, user, parent, name,
                            Snapshot(db.nextObject, ObjectRow(hash, path, size, contentType, 0))))
  }

  /** InstantUploadIntoFolder. */
  ghost function Instant(db: Database, user: UserId, parent: Option<FolderId>, name: string,
                         hash: Digest): Result<Database, CallError> {
    if name == "" then Err(NameRequired)
    else if hash == "" then Err(HashRequired)
    else if !FolderFound(db, user, parent) then Err(NoSuchFolder)
    else
      var found := FindObject(db, hash);
      if found.None? then Err(NoSuchObject)
      else if !QuotaOk(db, user, found.value.row.size) then Err(OverQuota)
      else Linked(AddReference(db, user, parent, name, found.value))
  }

  datatype Input = Input(name: string, hash: Digest)

  /** The lookups of InstantUploadManyIntoFolder. */
  ghost function FindAll(db: Database, inputs: seq<Input>): Result<seq<NamedObject>, CallError> {
    if inputs == [] then Ok([])
    else
      var before := FindAll(db, inputs[..|inputs| - 1]);
      var last := inputs[|inputs| - 1];
      if before.Err? then before
      else if last.name == "" then Err(NameRequired)
      else if last.hash == "" then Err(HashRequired)
      else
        var found := FindObject(db, last.hash);
        if found.None? then Err(NoSuchObject) else Ok(before.value + [NamedObject(last.name, found.value)])
  }

  /** InstantUploadManyIntoFolder. */
  ghost function Batch(db: Database, user: UserId, parent: Option<FolderId>,
                       inputs: seq<Input>): Result<Database, CallError> {
    if inputs == [] then Err(HashRequired)
    else
      var items := FindAll(db, inputs);
      if items.Err? then Err(items.error)
      else if user !in db.users then Err(Refused(FileNotFound))
      else Linked(CreateMany(db, user, parent, items.value, db.users[user]))
  }

  // ---- the quota test ----

  /** The subtraction form neither overflows int64 nor misjudges a sum that would. */
  lemma QuotaTestIsExact(quota: int, used: int, additional: int)
    requires Int64(quota) && Int64(used) && Int64(additional) && 0 <= quota && 0 <= used && 0 <= additional
    ensures QuotaAllows(quota, used, additional) <==> used + additional <= quota
    ensures used <= quota ==> Int64(quota - used)
  {
  }

  // ---- what each statement does to a user's bytes ----

  lemma SizeAfterPut(files: map<FileId, FileRow>, f: FileId, row: FileRow, user: UserId)
    ensures Total(SizesOf(files[f := row], user))
         == Total(SizesOf(files, user))
            + (if row.owner == user then row.size else 0)
            - (if f in files && files[f].owner == user then files[f].size else 0)
  {
    var rest := SizesOf(files, user) - {f};
    if f in SizesOf(files, user) { TotalSplit(SizesOf(files, user), f); } else { assert SizesOf(files, user) == rest; }
    if row.owner == user {
      assert SizesOf(files[f := row], user) == rest[f := row.size];
      TotalPut(rest, f, row.size);
    } else {
      assert SizesOf(files[f := row], user) == rest;
    }
  }

  lemma SizeAfterDrop(files: map<FileId, FileRow>, f: FileId, user: UserId)
    requires f in files
    ensures Total(SizesOf(files - {f}, user))
            == Total(SizesOf(files, user)) - (if files[f].owner == user then files[f].size else 0)
  {
    var sizes := SizesOf(files, user);
    assert SizesOf(files - {f}, user) == sizes - {f};
    if f in sizes { TotalSplit(sizes, f); } else { assert sizes - {f} == sizes; }
  }

  lemma LinkAddsBytes(db: Database, user: UserId, parent: Option<FolderId>, name: string, snapshot: Snapshot,
                      other: UserId)
    requires (forall f :: f in db.files ==> f < db.nextFile) && AddReference(db, user, parent, name, snapshot).Ok?
    ensures UsedBytes(AddReference(db, user, parent, name, snapshot).value, other)
         == UsedBytes(db, other) + (if other == user then snapshot.row.size else 0)
  {
    SizeAfterPut(db.files, db.nextFile, NewFile(user, parent, name, snapshot), other);
  }

  lemma OneUpdateKeepsBytes(db: Database, db': Database, file: FileId, other: UserId)
    requires file in db.files && file in db'.files && db'.files == db.files[file := db'.files[file]]
    requires db'.files[file].owner == db.files[file].owner && db'.files[file].size == db.files[file].size
    ensures UsedBytes(db', other) == UsedBytes(db, other)
  {
    SizeAfterPut(db.files, file, db'.files[file], other);
  }

  /** Trash, restore, move and rename leave everyone's usage as it was. */
  lemma UpdatesKeepBytes(db: Database, user: UserId, file: FileId, keepShares: bool, now: Time,
                         parent: Option<FolderId>,
                         name: string, other: UserId)
    ensures var r := SoftDelete(db, user, file, keepShares, now); r.Ok? ==>
              UsedBytes(r.value, other) == UsedBytes(db, other)
    ensures var r := Restore(db, user, file); r.Ok? ==> UsedBytes(r.value, other) == UsedBytes(db, other)
    ensures var r := MoveActive(db, user, file, parent); r.Ok? ==> UsedBytes(r.value, other) == UsedBytes(db, other)
    ensures var r := RenameActive(db, user, file, name); r.Ok? ==> UsedBytes(r.value, other) == UsedBytes(db, other)
  {
    var trashed, restored := SoftDelete(db, user, file, keepShares, now), Restore(db, user, file);
    var moved, renamed := MoveActive(db, user, file, parent), RenameActive(db, user, file, name);
    if trashed.Ok? { OneUpdateKeepsBytes(db, trashed.value, file, other); }
    if restored.Ok? { OneUpdateKeepsBytes(db, restored.value, file, other); }
    if moved.Ok? { OneUpdateKeepsBytes(db, moved.value, file, other); }
    if renamed.Ok? { OneUpdateKeepsBytes(db, renamed.value, file, other); }
  }

  /** A permanent delete frees the file's size for its owner alone. */
  lemma PurgeFreesBytes(db: Database, user: UserId, file: FileId, other: UserId)
    requires PurgeDeleted(db, user, file).Ok?
    ensures UsedBytes(PurgeDeleted(db, user, file).value.db, other)
         == UsedBytes(db, other) - (if other == user then db.files[file].size else 0)
  {
    PurgeFiles(db, user, file);
    SizeAfterDrop(db.files, file, other);
  }

  lemma PurgeFiles(db: Database, user: UserId, file: FileId)
    requires PurgeDeleted(db, user, file).Ok?
    ensures PurgeDeleted(db, user, file).value.db.files == db.files - {file}
    ensures file in db.files && db.files[file].owner == user
    ensures PurgeDeleted(db, user, file).value.db.users == db.users
  {
  }

  lemma {:induction false} BatchAddsBytes(db: Database, user: UserId, parent: Option<FolderId>,
                                          items: seq<NamedObject>, other: UserId)
    requires (forall f :: f in db.files ==> f < db.nextFile) && AddReferences(db, user, parent, items).Ok?
    ensures var db' := AddReferences(db, user, parent, items).value;
            && UsedBytes(db', other) == UsedBytes(db, other) + (if other == user then SizeSum(items) else 0)
            && ActiveBytes(db', user) == ActiveBytes(db, user) + SizeSum(items)
            && (forall f :: f in db'.files ==> f < db'.nextFile)
            && db'.users == db.users
    decreases |items|
  {
    if items != [] {
      var before := items[..|items| - 1];
      var last := items[|items| - 1];
      BatchAddsBytes(db, user, parent, before, other);
      var mid := AddReferences(db, user, parent, before).value;
      LinkAddsBytes(mid, user, parent, last.name, last.snapshot, other);
      LinkAddsActive(mid, user, parent, last.name, last.snapshot);
    }
  }

  lemma LinkAddsActive(db: Database, user: UserId, parent: Option<FolderId>, name: string, snapshot: Snapshot)
    requires (forall f :: f in db.files ==> f < db.nextFile) && AddReference(db, user, parent, name, snapshot).Ok?
    ensures ActiveBytes(AddReference(db, user, parent, name, snapshot).value, user)
            == ActiveBytes(db, user) + snapshot.row.size
  {
    var sizes := ActiveSizesOf(db.files, user);
    var row := NewFile(user, parent, name, snapshot);
    assert ActiveSizesOf(db.files[db.nextFile := row], user) == sizes[db.nextFile := row.size];
    TotalPut(sizes, db.nextFile, row.size);
  }

  /** A batch that is let through leaves the active bytes within the quota. */
  lemma BatchKeepsActiveQuota(db: Database, user: UserId, parent: Option<FolderId>, inputs: seq<Input>)
    requires DbOk(db) && Batch(db, user, parent, inputs).Ok?
    ensures ActiveBytes(Batch(db, user, parent, inputs).value, user) <= db.users[user]
  {
    var items := FindAll(db, inputs).value;
    BatchAddsBytes(db, user, parent, items, user);
  }

  // ---- runs ----

  datatype Event =
    | UploadCall(user: UserId, parent: Option<FolderId>, name: string, contentType: string, content: Content,
        path: Path)
    | InstantCall(user: UserId, parent: Option<FolderId>, name: string, hash: Digest)
    | BatchCall(user: UserId, parent: Option<FolderId>, inputs: seq<Input>)
    | Trash(user: UserId, file: FileId, keepShares: bool, now: Time)
    | Untrash(user: UserId, file: FileId)
    | Move(user: UserId, file: FileId, parent: Option<FolderId>)
    | Rename(user: UserId, file: FileId, name: string)
    | Purge(user: UserId, file: FileId)
    | GetUsage(user: UserId)
    | Expire(user: UserId)

  /** cache holds the cached usage of some users. */
  datatype State = State(db: Database, cache: map<UserId, int>)

  predicate UpdateEvent(e: Event) {
    e.Trash? || e.Untrash? || e.Move? || e.Rename?
  }

  function UpdateOf(db: Database, e: Event): Result<Database, DbError>
    requires UpdateEvent(e)
  {
    if e.Trash? then SoftDelete(db, e.user, e.file, e.keepShares, e.now)
    else if e.Untrash? then Restore(db, e.user, e.file)
    else if e.Move? then (if FolderFound(db, e.user, e.parent) then MoveActive(db, e.user, e.file, e.parent)
                          else Err(FolderNotFound))
    else if e.name == "" then Err(FileNotFound)
    else RenameActive(db, e.user, e.file, e.name)
  }

  predicate AddEvent(e: Event) {
    e.UploadCall? || e.InstantCall? || e.BatchCall?
  }

  ghost function AddOf(hash: Content -> Digest, db: Database, e: Event): Result<Database, CallError>
    requires AddEvent(e)
  {
    if e.UploadCall? then Upload(db, e.user, e.parent, e.name, e.contentType, hash(e.content), |e.content|, e.path)
    else if e.InstantCall? then Instant(db, e.user, e.parent, e.name, e.hash)
    else Batch(db, e.user, e.parent, e.inputs)
  }

  /** Calls that add or purge files drop the cached value; the others do not. */
  ghost function Step(hash: Content -> Digest, s: State, e: Event): State {
    if AddEvent(e) then
      var r := AddOf(hash, s.db, e);
      if r.Ok? then State(r.value, s.cache - {e.user}) else s
    else if UpdateEvent(e) then
      var r := UpdateOf(s.db, e);
      if r.Ok? then s.(db := r.value) else s
    else if e.Purge? then
      var r := PurgeDeleted(s.db, e.user, e.file);
      if r.Ok? then State(r.value.db, s.cache - {e.user}) else s
    else if e.GetUsage? then
      if e.user in s.cache then s else s.(cache := s.cache[e.user := UsedBytes(s.db, e.user)])
    else s.(cache := s.cache - {e.user})
  }

  ghost function Run(hash: Content -> Digest, s: State, events: seq<Event>): State {
    if events == [] then s else Step(hash, Run(hash, s, events[..|events| - 1]), events[|events| - 1])
  }

  /** A cached value is the sum of the user's active and trashed sizes. */
  ghost predicate CacheOk(s: State) {
    forall u :: u in s.cache ==> s.cache[u] == UsedBytes(s.db, u)
  }

  predicate Bounded(db: Database) {
    && (forall f :: f in db.files ==> f < db.nextFile && 0 <= db.files[f].size)
    && (forall o :: o in db.objects ==> o < db.nextObject && 0 <= db.objects[o].size)
  }

  /** What a call of one user may do. */
  ghost predicate OnlyBytesOf(db: Database, db': Database, user: UserId) {
    db'.users == db.users && forall u :: u != user ==> UsedBytes(db', u) == UsedBytes(db, u)
  }

  lemma LinkOnlyOwn(db: Database, user: UserId, parent: Option<FolderId>, name: string, snapshot: Snapshot)
    requires Bounded(db) && 0 <= snapshot.row.size && AddReference(db, user, parent, name, snapshot).Ok?
    ensures var db' := AddReference(db, user, parent, name, snapshot).value;
            && OnlyBytesOf(db, db', user) && Bounded(db')
            && UsedBytes(db', user) == UsedBytes(db, user) + snapshot.row.size
  {
    forall u
      ensures UsedBytes(AddReference(db, user, parent, name, snapshot).value, u)
           == UsedBytes(db, u) + (if u == user then snapshot.row.size else 0)
    {
      LinkAddsBytes(db, user, parent, name, snapshot, u);
    }
  }

  lemma AddOnlyOwn(hash: Content -> Digest, db: Database, e: Event)
    requires Bounded(db) && AddEvent(e) && AddOf(hash, db, e).Ok?
    ensures OnlyBytesOf(db, AddOf(hash, db, e).value, e.user) && Bounded(AddOf(hash, db, e).value)
  {
    if e.UploadCall? {
      UploadOnlyOwn(hash, db, e);
    } else if e.InstantCall? {
      LinkOnlyOwn(db, e.user, e.parent, e.name, FindObject(db, e.hash).value);
    } else {
      BatchOnlyOwn(db, e.user, e.parent, e.inputs);
    }
  }

  lemma UploadOnlyOwn(hash: Content -> Digest, db: Database, e: Event)
    requires Bounded(db) && e.UploadCall? && AddOf(hash, db, e).Ok?
    ensures var db' := AddOf(hash, db, e).value;
            var found := FindObject(db, hash(e.content));
            && OnlyBytesOf(db, db', e.user) && Bounded(db')
            && UsedBytes(db', e.user)
               == UsedBytes(db, e.user) + (if found.Some? then found.value.row.size else |e.content|)
  {
    var found := FindObject(db, hash(e.content));
    if found.Some? {
      LinkOnlyOwn(db, e.user, e.parent, e.name, found.value);
    } else {
      var row := ObjectRow(hash(e.content), e.path, |e.content|, e.contentType, 0);
      var db1 := InsertObject(db, row.hash, row.path, row.size, row.contentType).value;
      LinkOnlyOwn(db1, e.user, e.parent, e.name, Snapshot(db.nextObject, row));
      assert forall u :: UsedBytes(db1, u) == UsedBytes(db, u);
    }
  }

  lemma {:induction false} FoundAll(db: Database, inputs: seq<Input>)
    requires FindAll(db, inputs).Ok?
    ensures forall i :: 0 <= i < |FindAll(db, inputs).value| ==>
              var s := FindAll(db, inputs).value[i].snapshot; s.id in db.objects && db.objects[s.id] == s.row
    ensures |FindAll(db, inputs).value| == |inputs|
    decreases |inputs|
  {
    if inputs != [] {
      FoundAll(db, inputs[..|inputs| - 1]);
    }
  }

  /** The lookups stop at the first input that fails. */
  lemma {:induction false} FindAllFailsFast(db: Database, inputs: seq<Input>, n: nat)
    requires n <= |inputs| && FindAll(db, inputs[..n]).Err?
    ensures FindAll(db, inputs) == FindAll(db, inputs[..n])
    decreases |inputs|
  {
    if n < |inputs| {
      var before := inputs[..|inputs| - 1];
      assert before[..n] == inputs[..n];
      FindAllFailsFast(db, before, n);
    } else {
      assert inputs[..n] == inputs;
    }
  }

  lemma {:induction false} BatchBounded(db: Database, user: UserId, parent: Option<FolderId>, items: seq<NamedObject>)
    requires Bounded(db) && AddReferences(db, user, parent, items).Ok?
    requires forall i :: 0 <= i < |items| ==> 0 <= items[i].snapshot.row.size
    ensures Bounded(AddReferences(db, user, parent, items).value)
    decreases |items|
  {
    if items != [] {
      BatchBounded(db, user, parent, items[..|items| - 1]);
      var last := items[|items| - 1];
      LinkOnlyOwn(AddReferences(db, user, parent, items[..|items| - 1]).value, user, parent, last.name, last.snapshot);
    }
  }

  lemma BatchOnlyOwn(db: Database, user: UserId, parent: Option<FolderId>, inputs: seq<Input>)
    requires Bounded(db) && Batch(db, user, parent, inputs).Ok?
    ensures OnlyBytesOf(db, Batch(db, user, parent, inputs).value, user)
    ensures Bounded(Batch(db, user, parent, inputs).value)
  {
    var items := FindAll(db, inputs).value;
    FoundAll(db, inputs);
    BatchBounded(db, user, parent, items);
    forall u | u != user
      ensures UsedBytes(AddReferences(db, user, parent, items).value, u) == UsedBytes(db, u)
    {
      BatchAddsBytes(db, user, parent, items, u);
    }
    BatchAddsBytes(db, user, parent, items, user);
  }

  lemma UpdateKeeps(db: Database, e: Event)
    requires Bounded(db) && UpdateEvent(e) && UpdateOf(db, e).Ok?
    ensures var db' := UpdateOf(db, e).value;
            Bounded(db') && db'.users == db.users && forall u :: UsedBytes(db', u) == UsedBytes(db, u)
  {
    forall u
      ensures UsedBytes(UpdateOf(db, e).value, u) == UsedBytes(db, u)
    {
      if e.Trash? {
        UpdatesKeepBytes(db, e.user, e.file, e.keepShares, e.now, None, "", u);
      } else if e.Untrash? {
        UpdatesKeepBytes(db, e.user, e.file, false, 0, None, "", u);
      } else if e.Move? {
        UpdatesKeepBytes(db, e.user, e.file, false, 0, e.parent, "", u);
      } else {
        UpdatesKeepBytes(db, e.user, e.file, false, 0, None, e.name, u);
      }
    }
    UpdateBounded(db, e);
  }

  lemma UpdateBounded(db: Database, e: Event)
    requires Bounded(db) && UpdateEvent(e) && UpdateOf(db, e).Ok?
    ensures Bounded(UpdateOf(db, e).value) && UpdateOf(db, e).value.users == db.users
  {
  }

  lemma PurgeBounded(db: Database, user: UserId, file: FileId)
    requires Bounded(db) && PurgeDeleted(db, user, file).Ok?
    ensures Bounded(PurgeDeleted(db, user, file).value.db)
  {
  }

  lemma PurgeOnlyOwn(db: Database, user: UserId, file: FileId)
    requires Bounded(db) && PurgeDeleted(db, user, file).Ok?
    ensures var db' := PurgeDeleted(db, user, file).value.db;
            OnlyBytesOf(db, db', user) && Bounded(db') && UsedBytes(db', user) <= UsedBytes(db, user)
  {
    PurgeBounded(db, user, file);
    PurgeFiles(db, user, file);
    forall u
      ensures UsedBytes(PurgeDeleted(db, user, file).value.db, u)
              == UsedBytes(db, u) - (if u == user then db.files[file].size else 0)
    {
      PurgeFreesBytes(db, user, file, u);
    }
  }

  lemma StepKeepsCache(hash: Content -> Digest, s: State, e: Event)
    requires CacheOk(s) && Bounded(s.db)
    ensures CacheOk(Step(hash, s, e)) && Bounded(Step(hash, s, e).db)
  {
    if AddEvent(e) {
      if AddOf(hash, s.db, e).Ok? { AddOnlyOwn(hash, s.db, e); }
    } else if UpdateEvent(e) {
      if UpdateOf(s.db, e).Ok? { UpdateKeeps(s.db, e); }
    } else if e.Purge? {
      if PurgeDeleted(s.db, e.user, e.file).Ok? { PurgeOnlyOwn(s.db, e.user, e.file); }
    }
  }

  /** Over any run of calls a cached usage value is the true one, although trash,
      restore, move and rename never invalidate it. */
  lemma {:induction false} CacheStaysTrue(hash: Content -> Digest, s: State, events: seq<Event>)
    requires CacheOk(s) && Bounded(s.db)
    ensures CacheOk(Run(hash, s, events)) && Bounded(Run(hash, s, events).db)
    decreases |events|
  {
    if events != [] {
      CacheStaysTrue(hash, s, events[..|events| - 1]);
      StepKeepsCache(hash, Run(hash, s, events[..|events| - 1]), events[|events| - 1]);
    }
  }

  /** An object's size is that of the content its hash names. */
  ghost predicate SizesTrue(hash: Content -> Digest, db: Database) {
    forall o :: o in db.objects ==> exists c :: hash(c) == db.objects[o].hash && |c| == db.objects[o].size
  }

  ghost predicate WithinQuota(db: Database) {
    forall u :: u in db.users ==> UsedBytes(db, u) <= db.users[u]
  }

  lemma StepKeepsQuota(hash: Content -> Digest, s: State, e: Event)
    requires Injective(hash) && SizesTrue(hash, s.db) && Bounded(s.db) && WithinQuota(s.db) && !e.BatchCall?
    ensures WithinQuota(Step(hash, s, e).db)
  {
    if AddEvent(e) {
      if AddOf(hash, s.db, e).Ok? {
        AddOnlyOwn(hash, s.db, e);
        if e.UploadCall? {
          UploadOnlyOwn(hash, s.db, e);
        } else {
          LinkOnlyOwn(s.db, e.user, e.parent, e.name, FindObject(s.db, e.hash).value);
        }
      }
    } else if UpdateEvent(e) {
      if UpdateOf(s.db, e).Ok? { UpdateKeeps(s.db, e); }
    } else if e.Purge? {
      if PurgeDeleted(s.db, e.user, e.file).Ok? { PurgeOnlyOwn(s.db, e.user, e.file); }
    }
  }

  lemma StepKeepsSizes(hash: Content -> Digest, s: State, e: Event)
    requires SizesTrue(hash, s.db) && !e.BatchCall?
    ensures SizesTrue(hash, Step(hash, s, e).db)
  {
    if e.UploadCall? && AddOf(hash, s.db, e).Ok? {
      var db' := AddOf(hash, s.db, e).value;
      forall o | o in db'.objects
        ensures exists c :: hash(c) == db'.objects[o].hash && |c| == db'.objects[o].size
      {
        if o in s.db.objects && !(o == s.db.nextObject && FindObject(s.db, hash(e.content)).None?) {
          var c :| hash(c) == s.db.objects[o].hash && |c| == s.db.objects[o].size;
        } else {
          assert hash(e.content) == db'.objects[o].hash && |e.content| == db'.objects[o].size;
        }
      }
    }
  }

  /** Under fixed quotas any run of single uploads, instant uploads, trash,
      restore, move, rename and permanent delete that starts within quota stays
      within it, trash included. */
  lemma {:induction false} SingleCallsKeepQuota(hash: Content -> Digest, s: State, events: seq<Event>)
    requires Injective(hash) && SizesTrue(hash, s.db) && CacheOk(s) && Bounded(s.db) && WithinQuota(s.db)
    requires forall i :: 0 <= i < |events| ==> !events[i].BatchCall?
    ensures WithinQuota(Run(hash, s, events).db) && SizesTrue(hash, Run(hash, s, events).db)
    decreases |events|
  {
    if events != [] {
      var before := events[..|events| - 1];
      SingleCallsKeepQuota(hash, s, before);
      CacheStaysTrue(hash, s, before);
      StepKeepsQuota(hash, Run(hash, s, before), events[|events| - 1]);
      StepKeepsSizes(hash, Run(hash, s, before), events[|events| - 1]);
    }
  }
}
