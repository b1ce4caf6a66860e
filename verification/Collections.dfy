/** Collection shares: the calls of internal/share/service.go and the trigger of
    migrations/014_share_collections.sql, one call at a time. */
module Collections {
  import opened Options
  import opened Tables
  import opened References
  import FolderTree
  import ShareSlots

  /** At least two members, all of them active files of the owner. */
  predicate CollectionOk(db: Database, row: CollectionRow) {
    && 2 <= |row.members|
    && forall f :: f in row.members ==> f in db.files && db.files[f].status == Active && db.files[f].owner == row.owner
  }

  predicate CollectionsOk(db: Database) {
    forall t :: t in db.collections ==> CollectionOk(db, db.collections[t])
  }

  datatype CollectionError = NoSuchFile | TooFewFiles | ExpirationInvalid | LimitInvalid | Refused

  function Members(ids: seq<int>): set<int> {
    set i | 0 <= i < |ids| :: ids[i]
  }

  lemma OneMoreMember(ids: seq<int>, id: int)
    ensures Members(ids + [id]) == Members(ids) + {id}
  {
    assert forall i :: 0 <= i < |ids| ==> (ids + [id])[i] == ids[i];
    assert (ids + [id])[|ids|] == id;
  }

  predicate HasActiveFile(db: Database, user: UserId, id: int) {
    id > 0 && id in db.files && db.files[id].owner == user && db.files[id].status == Active
  }

  predicate AllActive(db: Database, user: UserId, ids: set<int>) {
    forall id :: id in ids ==> HasActiveFile(db, user, id)
  }

  /** The transaction of the repository's CreateCollection: its foreign keys refuse
      files that are gone, but not files in trash. */
  function Insert(db: Database, user: UserId, members: set<FileId>, limit: Option<int>,
                  token: Token): Result<Database, CollectionError> {
    if token in db.collections || exists f :: f in members && f !in db.files then Err(Refused)
    else Ok(db.(collections := db.collections[token := CollectionRow(user, members, limit, 0)]))
  }

  function MembersOf(ids: set<int>): set<FileId> {
    set id | id in ids && id >= 0 :: id
  }

  /** CreateCollection; expiresAt and limit are checked after the files. */
  function Create(db: Database, user: UserId, ids: seq<int>, expired: bool, limit: Option<int>,
                  token: Token): Result<Database, CollectionError> {
    if exists id :: id in Members(ids) && id <= 0 then Err(NoSuchFile)
    else if |Members(ids)| < 2 then Err(TooFewFiles)
    else if !AllActive(db, user, Members(ids)) then Err(NoSuchFile)
    else if expired then Err(ExpirationInvalid)
    else if limit.Some? && limit.value <= 0 then Err(LimitInvalid)
    else Insert(db, user, MembersOf(Members(ids)), limit, token)
  }

  /** A collection is made exactly of two or more different ids, all of the user's active
      files, with an expiry ahead, a positive limit or none and a token that is free. Its
      row holds the files asked for, the user, the limit asked for and no download, and
      nothing else changes. */
  lemma CreatedCollection(db: Database, user: UserId, ids: seq<int>, expired: bool, limit: Option<int>, token: Token)
    ensures var r := Create(db, user, ids, expired, limit, token);
            && (r.Ok? <==>
                  && (forall i :: 0 <= i < |ids| ==> HasActiveFile(db, user, ids[i]))
                  && (exists i, j :: 0 <= i < j < |ids| && ids[i] != ids[j])
                  && !expired && (limit.Some? ==> 0 < limit.value) && token !in db.collections)
            && (r.Ok? ==>
                  && r.value == db.(collections := r.value.collections) && token in r.value.collections
                  && r.value.collections.Keys == db.collections.Keys + {token}
                  && (forall t :: t in db.collections ==> r.value.collections[t] == db.collections[t])
                  && var row := r.value.collections[token];
                     && row.owner == user && row.maxDownloads == limit && row.downloads == 0
                     && (forall f :: f in row.members <==> exists i :: 0 <= i < |ids| && ids[i] == f))
  {
    MembersOfAll(ids);
    TwoMembersIff(ids);
    if AllActive(db, user, Members(ids)) {
      forall f | f in MembersOf(Members(ids))
        ensures f in db.files
      {
        assert HasActiveFile(db, user, f);
      }
    }
  }

  lemma MembersOfAll(ids: seq<int>)
    ensures forall i :: 0 <= i < |ids| ==> ids[i] in Members(ids)
  {
  }

  lemma TwoMembersIff(ids: seq<int>)
    ensures |Members(ids)| >= 2 <==> exists i, j :: 0 <= i < j < |ids| && ids[i] != ids[j]
  {
    if i, j :| 0 <= i < j < |ids| && ids[i] != ids[j] {
      assert Members(ids) == {ids[i], ids[j]} + (Members(ids) - {ids[i], ids[j]});
    } else if ids != [] {
      assert forall k :: 0 <= k < |ids| ==> ids[k] == ids[0];
      assert ids[0] in Members(ids);
      assert Members(ids) == {ids[0]};
    } else {
      assert Members(ids) == {};
    }
  }

  // ---- the slots of a collection ----

  /** The counting columns of a collection, whose expiry ShareServices tests. */
  function SlotsOf(row: CollectionRow): ShareSlots.Slots {
    ShareSlots.Slots(true, row.maxDownloads, row.downloads, None)
  }

  function WithDownloads(db: Database, token: Token, downloads: int): Database
    requires token in db.collections
  {
    db.(collections := db.collections[token := db.collections[token].(downloads := downloads)])
  }

  function Reserve(db: Database, token: Token, n: nat): Option<Database> {
    if token !in db.collections then None
    else
      var r := ShareSlots.Reserve(SlotsOf(db.collections[token]), n, 0);
      if r.None? then None else Some(WithDownloads(db, token, r.value.count))
  }

  function Released(db: Database, token: Token, n: nat): Database {
    if token !in db.collections then db
    else WithDownloads(db, token, ShareSlots.Release(SlotsOf(db.collections[token]), n).count)
  }

  lemma ReserveThenRelease(db: Database, token: Token, n: nat)
    requires Reserve(db, token, n).Some? && 0 <= db.collections[token].downloads
    ensures Released(Reserve(db, token, n).value, token, n) == db
  {
    assert db.collections[token := db.collections[token]] == db.collections;
  }

  // ---- runs ----

  datatype Event =
    | CreateCollection(user: UserId, ids: seq<int>, expired: bool, limit: Option<int>, token: Token)
    | Revoke(user: UserId, token: Token)
    | ReserveSlots(token: Token, n: nat)
    | ReleaseSlots(token: Token, n: nat)
    | FileCall(call: FolderTree.Event)

  ghost function Step(db: Database, e: Event): Database {
    match e
    case CreateCollection(user, ids, expired, limit, token) =>
      var r := Create(db, user, ids, expired, limit, token);
      if r.Ok? && token !in db.collections then r.value else db
    case Revoke(user, token) =>
      if token in db.collections && db.collections[token].owner == user
        then db.(collections := db.collections - {token}) else db
    case ReserveSlots(token, n) => var r := Reserve(db, token, n); if r.Some? then r.value else db
    case ReleaseSlots(token, n) => Released(db, token, n)
    case FileCall(call) =>
      if FolderTree.RowEvent(call) then FolderTree.StepRow(db, call)
      else if FolderTree.TableEvent(call) then FolderTree.StepTable(db, call)
      else db
  }

  ghost function Run(db: Database, events: seq<Event>): Database {
    if events == [] then db else Step(Run(db, events[..|events| - 1]), events[|events| - 1])
  }

  ghost predicate DbKept(db: Database) {
    CollectionsOk(db) && forall f :: f in db.files ==> f < db.nextFile
  }

  lemma CreateKeeps(db: Database, user: UserId, ids: seq<int>, expired: bool, limit: Option<int>, token: Token)
    requires CollectionsOk(db) && Create(db, user, ids, expired, limit, token).Ok?
    ensures CollectionsOk(Create(db, user, ids, expired, limit, token).value)
  {
    SameSize(MembersOf(Members(ids)), Members(ids));
  }

  lemma {:induction false} SameSize(a: set<FileId>, b: set<int>)
    requires forall x: int :: x in b <==> 0 <= x && x in a
    ensures |a| == |b|
    decreases |a|
  {
    if a != {} {
      var x :| x in a;
      assert x in b;
      SameSize(a - {x}, b - {x});
    } else {
      assert forall y: int :: y in b ==> 0 <= y && y in a;
    }
  }

  /** Files change in no way that matters to the collections that stay. */
  predicate FilesStay(db: Database, db': Database) {
    forall t :: t in db'.collections ==>
      && t in db.collections && db'.collections[t] == db.collections[t]
      && forall f :: f in db.collections[t].members && f in db.files ==>
           f in db'.files && db'.files[f].owner == db.files[f].owner
           && (db.files[f].status == Active ==> db'.files[f].status == Active)
  }

  lemma StayKeeps(db: Database, db': Database)
    requires CollectionsOk(db) && FilesStay(db, db')
    ensures CollectionsOk(db')
  {
    forall t | t in db'.collections
      ensures CollectionOk(db', db'.collections[t])
    {
      assert CollectionOk(db, db.collections[t]);
    }
  }

  /** The trigger: trashing a file ends every collection that holds it, whether or
      not its shares are kept. */
  lemma TrashKeeps(db: Database, user: UserId, file: FileId, keepShares: bool, now: Time)
    requires CollectionsOk(db) && SoftDelete(db, user, file, keepShares, now).Ok?
    ensures CollectionsOk(SoftDelete(db, user, file, keepShares, now).value)
  {
    StayKeeps(db, SoftDelete(db, user, file, keepShares, now).value);
  }

  lemma NoTrashedMember(db: Database, file: FileId)
    requires CollectionsOk(db) && file in db.files && db.files[file].status == Deleted
    ensures WithoutMember(db.collections, file) == db.collections
  {
    forall t | t in db.collections
      ensures db.collections[t].(members := db.collections[t].members - {file}) == db.collections[t]
    {
      assert CollectionOk(db, db.collections[t]);
      assert db.collections[t].members - {file} == db.collections[t].members;
    }
  }

  lemma PurgeTouches(db: Database, user: UserId, file: FileId)
    requires PurgeDeleted(db, user, file).Ok?
    ensures var db' := PurgeDeleted(db, user, file).value.db;
            && db'.files == db.files - {file} && db'.collections == WithoutMember(db.collections, file)
            && file in db.files && db.files[file].status == Deleted
  {
  }

  /** A permanent delete never shrinks a collection: the file is in trash, so no
      collection holds it. */
  lemma PurgeKeepsCollections(db: Database, user: UserId, file: FileId)
    requires CollectionsOk(db) && PurgeDeleted(db, user, file).Ok?
    ensures CollectionsOk(PurgeDeleted(db, user, file).value.db)
    ensures PurgeDeleted(db, user, file).value.db.collections == db.collections
  {
    PurgeTouches(db, user, file);
    NoTrashedMember(db, file);
    var db' := PurgeDeleted(db, user, file).value.db;
    forall t | t in db.collections
      ensures CollectionOk(db', db.collections[t])
    {
      assert CollectionOk(db, db.collections[t]);
    }
  }

  lemma RowCallTouches(db: Database, e: FolderTree.Event)
    requires FolderTree.RowEvent(e) && !e.Trash?
    ensures var db' := FolderTree.StepRow(db, e);
            && db'.collections == db.collections
            && (db' == db || (e.file in db.files && e.file in db'.files
                  && db'.files == db.files[e.file := db'.files[e.file]]
                              && db'.files[e.file].owner == db.files[e.file].owner
                              && (db.files[e.file].status == Active ==> db'.files[e.file].status == Active)))
  {
  }

  lemma RowCallKeeps(db: Database, e: FolderTree.Event)
    requires CollectionsOk(db) && FolderTree.RowEvent(e)
    ensures CollectionsOk(FolderTree.StepRow(db, e))
  {
    if e.Trash? {
      if SoftDelete(db, e.user, e.file, e.keepShares, e.now).Ok? {
        TrashKeeps(db, e.user, e.file, e.keepShares, e.now);
      }
    } else {
      RowCallTouches(db, e);
      StayKeeps(db, FolderTree.StepRow(db, e));
    }
  }

  lemma BatchStays(db: Database, user: UserId, parent: Option<FolderId>, items: seq<NamedObject>)
    requires AddReferences(db, user, parent, items).Ok? && forall f :: f in db.files ==> f < db.nextFile
    ensures FilesStay(db, AddReferences(db, user, parent, items).value)
  {
    AddReferencesShape(db, user, parent, items);
    AddReferencesAppend(db, user, parent, items);
  }

  lemma TableCallKeeps(db: Database, e: FolderTree.Event)
    requires DbKept(db) && FolderTree.TableEvent(e)
    ensures CollectionsOk(FolderTree.StepTable(db, e))
  {
    if e.Purge? {
      if PurgeDeleted(db, e.user, e.file).Ok? {
        PurgeKeepsCollections(db, e.user, e.file);
      }
    } else if e.AddFile? {
      StayKeeps(db, FolderTree.StepTable(db, e));
    } else if CreateMany(db, e.user, e.parent, e.items, e.quota).Ok? {
      BatchStays(db, e.user, e.parent, e.items);
      StayKeeps(db, FolderTree.StepTable(db, e));
    }
  }

  lemma FileCallIds(db: Database, e: FolderTree.Event)
    requires forall f :: f in db.files ==> f < db.nextFile
    ensures forall f :: f in Step(db, FileCall(e)).files ==> f < Step(db, FileCall(e)).nextFile
  {
    if FolderTree.RowEvent(e) {
      FolderTree.RowChanges(db, e);
    } else if e.AddFiles? && CreateMany(db, e.user, e.parent, e.items, e.quota).Ok? {
      AddReferencesAppend(db, e.user, e.parent, e.items);
    }
  }

  lemma FileCallKeeps(db: Database, call: FolderTree.Event)
    requires DbKept(db)
    ensures DbKept(Step(db, FileCall(call)))
  {
    FileCallIds(db, call);
    if FolderTree.RowEvent(call) {
      RowCallKeeps(db, call);
    } else if FolderTree.TableEvent(call) {
      TableCallKeeps(db, call);
    }
  }

  lemma ShareCallKeeps(db: Database, e: Event)
    requires DbKept(db) && !e.FileCall?
    ensures DbKept(Step(db, e))
  {
    if e.CreateCollection? && Create(db, e.user, e.ids, e.expired, e.limit, e.token).Ok? {
      CreateKeeps(db, e.user, e.ids, e.expired, e.limit, e.token);
    }
  }

  lemma StepKeeps(db: Database, e: Event)
    requires DbKept(db)
    ensures DbKept(Step(db, e))
  {
    if e.FileCall? {
      FileCallKeeps(db, e.call);
    } else {
      ShareCallKeeps(db, e);
    }
  }

  /** Over every run of calls each existing collection has at least two members,
      all active and all its owner's. */
  lemma {:induction false} CollectionsStayWhole(db: Database, events: seq<Event>)
    requires DbKept(db)
    ensures DbKept(Run(db, events))
    decreases |events|
  {
    if events != [] {
      CollectionsStayWhole(db, events[..|events| - 1]);
      StepKeeps(Run(db, events[..|events| - 1]), events[|events| - 1]);
    }
  }

  // ---- the checks and the insert apart ----

  /** Files keep their owners, and ids of deleted files are not given out again. */
  predicate OwnersKept(db: Database, db': Database) {
    && db.nextFile <= db'.nextFile
    && forall f :: f in db'.files ==> (f in db.files && db'.files[f].owner == db.files[f].owner) || db.nextFile <= f
  }

  lemma TableCallOwners(db: Database, e: FolderTree.Event)
    requires FolderTree.TableEvent(e) && forall f :: f in db.files ==> f < db.nextFile
    ensures OwnersKept(db, FolderTree.StepTable(db, e))
  {
    if e.AddFiles? && CreateMany(db, e.user, e.parent, e.items, e.quota).Ok? {
      AddReferencesAppend(db, e.user, e.parent, e.items);
    } else if e.Purge? && PurgeDeleted(db, e.user, e.file).Ok? {
      PurgeTouches(db, e.user, e.file);
    }
  }

  lemma StepOwners(db: Database, e: Event)
    requires forall f :: f in db.files ==> f < db.nextFile
    ensures OwnersKept(db, Step(db, e))
  {
    if e.FileCall? {
      if FolderTree.RowEvent(e.call) {
        FolderTree.RowChanges(db, e.call);
      } else if FolderTree.TableEvent(e.call) {
        TableCallOwners(db, e.call);
      }
    }
  }

  lemma {:induction false} RunOwners(db: Database, events: seq<Event>)
    requires DbKept(db)
    ensures OwnersKept(db, Run(db, events))
    decreases |events|
  {
    if events != [] {
      var before := Run(db, events[..|events| - 1]);
      RunOwners(db, events[..|events| - 1]);
      CollectionsStayWhole(db, events[..|events| - 1]);
      StepOwners(before, events[|events| - 1]);
    }
  }

  /** The checks pass, any calls come in between, and then the collection is inserted.
      It is refused if and only if a member is gone by then, and what is inserted is
      whole if and only if no member is in trash at that moment. So a whole collection
      comes of it exactly when no member ends the calls in between trashed or purged. */
  lemma CreatedIsWholeIff(db: Database, user: UserId, ids: seq<int>, limit: Option<int>, token: Token,
                          events: seq<Event>)
    requires DbKept(db) && Create(db, user, ids, false, limit, token).Ok? && token !in Run(db, events).collections
    ensures var later, members := Run(db, events), MembersOf(Members(ids));
            var r := Insert(later, user, members, limit, token);
            && (r.Err? <==> exists f :: f in members && f !in later.files)
            && (r.Ok? ==> (CollectionsOk(r.value) <==> forall f :: f in members ==> later.files[f].status == Active))
            && (r.Ok? && CollectionsOk(r.value)
                <==> forall f :: f in members ==> f in later.files && later.files[f].status == Active)
  {
    var later, members := Run(db, events), MembersOf(Members(ids));
    RunOwners(db, events);
    CollectionsStayWhole(db, events);
    SameSize(members, Members(ids));
    forall f | f in members && f in later.files
      ensures later.files[f].owner == user
    {
      assert HasActiveFile(db, user, f);
    }
    var r := Insert(later, user, members, limit, token);
    if r.Ok? {
      var row := r.value.collections[token];
      assert CollectionOk(r.value, row) <==> forall f :: f in members ==> later.files[f].status == Active;
      assert forall t :: t in later.collections ==> CollectionOk(later, later.collections[t]);
    }
  }

  /** Such calls: one member is trashed in between. The collection is not whole,
      although the checks would now refuse it. */
  lemma TrashBetweenCheckAndInsert(db: Database, user: UserId, a: FileId, b: FileId, token: Token, now: Time)
    requires DbKept(db) && a != b && token !in db.collections && Create(db, user, [a, b], false, None, token).Ok?
    ensures var later := Run(db, [FileCall(FolderTree.Trash(user, a, true, now))]);
            var r := Insert(later, user, {a, b}, None, token);
            r.Ok? && !CollectionsOk(r.value) && Create(later, user, [a, b], false, None, token).Err?
  {
    var events := [FileCall(FolderTree.Trash(user, a, true, now))];
    var later := Run(db, events);
    assert events[..0] == [] && Run(db, []) == db;
    assert [a as int, b][0] in Members([a, b]) && [a as int, b][1] in Members([a, b]);
    assert HasActiveFile(db, user, a) && HasActiveFile(db, user, b);
    assert later == SoftDelete(db, user, a, true, now).value;
    assert !HasActiveFile(later, user, a);
    var r := Insert(later, user, {a, b}, None, token);
    assert !CollectionOk(r.value, r.value.collections[token]);
  }
}
