/** The quota test inside CreateManyWithObjectsInFolder (internal/file/repository.go)
    sums active files only. When the documented quota, where trash counts, survives
    it. */
module BatchQuota {
  import opened Options
  import opened Chunking
  import opened Totals
  import opened Tables
  import opened References
  import opened Usage

  /** A batch that is let through leaves the user within the documented quota if and
      only if the test of the single uploads, over active and trashed bytes, would
      have let its sizes through as well. */
  lemma BatchMeetsQuotaIff(db: Database, user: UserId, parent: Option<FolderId>, inputs: seq<Input>)
    requires DbOk(db) && Bounded(db) && Batch(db, user, parent, inputs).Ok?
    ensures UsedBytes(Batch(db, user, parent, inputs).value, user) <= db.users[user]
       <==> QuotaOk(db, user, SizeSum(FindAll(db, inputs).value))
  {
    FoundAll(db, inputs);
    SumIsNotNegative(FindAll(db, inputs).value);
    BatchAddsBytes(db, user, parent, FindAll(db, inputs).value, user);
  }

  lemma {:induction false} SumIsNotNegative(items: seq<NamedObject>)
    requires forall i :: 0 <= i < |items| ==> 0 <= items[i].snapshot.row.size
    ensures 0 <= SizeSum(items)
    decreases |items|
  {
    if items != [] {
      SumIsNotNegative(items[..|items| - 1]);
    }
  }

  // ---- trash ----

  function TrashedSizesOf(files: map<FileId, FileRow>, user: UserId): map<FileId, int> {
    map f | f in files && files[f].owner == user && files[f].status == Deleted :: files[f].size
  }

  lemma UsedIsActivePlusTrash(db: Database, user: UserId)
    ensures UsedBytes(db, user) == ActiveBytes(db, user) + Total(TrashedSizesOf(db.files, user))
  {
    var active, trashed := ActiveSizesOf(db.files, user), TrashedSizesOf(db.files, user);
    assert SizesOf(db.files, user) == active + trashed;
    TotalUnion(active, trashed);
  }

  lemma SizesAreNotNegative(db: Database, user: UserId)
    requires Bounded(db)
    ensures 0 <= ActiveBytes(db, user) && 0 <= Total(TrashedSizesOf(db.files, user))
    ensures forall f :: f in TrashedSizesOf(db.files, user) ==>
              db.files[f].size <= Total(TrashedSizesOf(db.files, user))
  {
    TotalBounds(ActiveSizesOf(db.files, user));
    TotalBounds(TrashedSizesOf(db.files, user));
  }

  // ---- one input n times ----

  function Times<T>(x: T, n: nat): (s: seq<T>)
    ensures |s| == n && forall i :: 0 <= i < n ==> s[i] == x
  {
    seq(n, _ => x)
  }

  lemma {:induction false} FindTimes(db: Database, input: Input, found: Snapshot, n: nat)
    requires input.name != "" && input.hash != "" && FindObject(db, input.hash) == Some(found)
    ensures FindAll(db, Times(input, n)) == Ok(Times(NamedObject(input.name, found), n))
    decreases n
  {
    if n > 0 {
      FindTimes(db, input, found, n - 1);
      assert Times(input, n)[..n - 1] == Times(input, n - 1);
      var item := NamedObject(input.name, found);
      assert Times(item, n - 1) + [item] == Times(item, n);
    }
  }

  lemma {:induction false} SizeOfTimes(item: NamedObject, n: nat)
    ensures SizeSum(Times(item, n)) == item.snapshot.row.size * n
    decreases n
  {
    if n > 0 {
      SizeOfTimes(item, n - 1);
      assert Times(item, n)[..n - 1] == Times(item, n - 1);
    }
  }

  lemma {:induction false} LinkTimes(db: Database, user: UserId, parent: Option<FolderId>, item: NamedObject, n: nat)
    requires user in db.users && item.snapshot.id in db.objects && FolderFound(db, user, parent)
    ensures var r := AddReferences(db, user, parent, Times(item, n));
            && r.Ok? && r.value.users == db.users && r.value.objects.Keys == db.objects.Keys
               && r.value.folders == db.folders
    decreases n
  {
    if n > 0 {
      LinkTimes(db, user, parent, item, n - 1);
      assert Times(item, n)[..n - 1] == Times(item, n - 1);
    }
  }

  /** An existing object can be saved as often as the active bytes leave room. */
  lemma CopiesAreAccepted(db: Database, user: UserId, parent: Option<FolderId>, name: string, o: ObjectId, n: nat)
    requires DbOk(db) && user in db.users && FolderFound(db, user, parent) && o in db.objects
    requires db.objects[o].hash != ""
    requires name != "" && 0 < n && 0 <= ActiveBytes(db, user) && ActiveBytes(db, user) <= db.users[user]
    requires db.objects[o].size * n <= db.users[user] - ActiveBytes(db, user)
    ensures var r := Batch(db, user, parent, Times(Input(name, db.objects[o].hash), n));
            r.Ok? && UsedBytes(r.value, user) == UsedBytes(db, user) + db.objects[o].size * n
  {
    var input, found := Input(name, db.objects[o].hash), Snapshot(o, db.objects[o]);
    var item := NamedObject(name, found);
    OnlyObjectWithHash(db, o);
    FindTimes(db, input, found, n);
    SizeOfTimes(item, n);
    LinkTimes(db, user, parent, item, n);
    BatchAddsBytes(db, user, parent, Times(item, n), user);
  }

  lemma OnlyObjectWithHash(db: Database, o: ObjectId)
    requires HashesOk(db.objects) && o in db.objects
    ensures FindObject(db, db.objects[o].hash) == Some(Snapshot(o, db.objects[o]))
  {
    assert HasHash(db, db.objects[o].hash);
  }

  // ---- the exact condition ----

  /** Every batch that the code lets through leaves the user within the quota. */
  ghost predicate BatchesKeepQuota(db: Database, user: UserId, parent: Option<FolderId>)
    requires user in db.users
  {
    forall inputs :: Batch(db, user, parent, inputs).Ok? ==>
      UsedBytes(Batch(db, user, parent, inputs).value, user) <= db.users[user]
  }

  lemma HowManyFit(room: int, size: int) returns (n: nat)
    requires 0 < size <= room
    ensures 0 < n && size * n <= room < size * n + size
  {
    DivisionBounds(room, size);
    n := room / size;
    assert size * (n + 1) == size * n + size;
    if n == 0 {
      assert false;
    }
  }

  /** A trashed file can be saved again so often that it passes the quota. */
  lemma TrashLetsABatchPass(db: Database, user: UserId, parent: Option<FolderId>, f: FileId)
    returns (inputs: seq<Input>)
    requires DbOk(db) && Bounded(db) && user in db.users && FolderFound(db, user, parent)
    requires forall o :: o in db.objects ==> db.objects[o].hash != ""
    requires UsedBytes(db, user) <= db.users[user]
    requires f in TrashedSizesOf(db.files, user) && 0 < db.files[f].size
    ensures Batch(db, user, parent, inputs).Ok?
    ensures db.users[user] < UsedBytes(Batch(db, user, parent, inputs).value, user)
  {
    var o, size := db.files[f].objectId, db.files[f].size;
    assert FileAgrees(db.objects, db.files[f]);
    UsedIsActivePlusTrash(db, user);
    SizesAreNotNegative(db, user);
    var n := HowManyFit(db.users[user] - ActiveBytes(db, user), size);
    inputs := Times(Input("copy", db.objects[o].hash), n);
    CopiesAreAccepted(db, user, parent, "copy", o, n);
  }

  /** From consistent tables with the user within quota, every batch that the code
      lets through keeps the user within quota if and only if the user's trash holds
      no bytes. */
  lemma BatchQuotaIffNoTrash(db: Database, user: UserId, parent: Option<FolderId>)
    requires DbOk(db) && Bounded(db) && user in db.users && FolderFound(db, user, parent)
    requires forall o :: o in db.objects ==> db.objects[o].hash != ""
    requires UsedBytes(db, user) <= db.users[user]
    ensures BatchesKeepQuota(db, user, parent) <==> UsedBytes(db, user) == ActiveBytes(db, user)
  {
    UsedIsActivePlusTrash(db, user);
    SizesAreNotNegative(db, user);
    if UsedBytes(db, user) != ActiveBytes(db, user) {
      var f := PositiveTotalHasPositive(TrashedSizesOf(db.files, user));
      var inputs := TrashLetsABatchPass(db, user, parent, f);
    } else {
      forall inputs | Batch(db, user, parent, inputs).Ok?
        ensures UsedBytes(Batch(db, user, parent, inputs).value, user) <= db.users[user]
      {
        var items := FindAll(db, inputs).value;
        BatchAddsBytes(db, user, parent, items, user);
      }
    }
  }

  /** Five bytes in the trash of a user whose quota is ten. */
  const TRASHED := EMPTY.(
    users := map[1 := 10], nextObject := 2, nextFile := 2,
    objects := map[1 := ObjectRow("hash", "path", 5, "type", 1)],
    files := map[1 := FileRow(1, None, 1, "name", "path", 5, "type", Deleted, Some(0))])

  lemma TrashedIsConsistent()
    ensures DbOk(TRASHED) && Bounded(TRASHED)
  {
    assert RefSet(TRASHED.files, 1) == {1};
  }

  lemma TrashedIsWithinQuota()
    ensures UsedBytes(TRASHED, 1) == 5 && ActiveBytes(TRASHED, 1) == 0
  {
    assert SizesOf(TRASHED.files, 1) == map[1 := 5];
    TotalSplit(map[1 := 5], 1);
    assert map[1 := 5] - {1} == map[];
    assert ActiveSizesOf(TRASHED.files, 1) == map[];
  }

  /** Saving two copies of the trashed file is let through. */
  lemma BatchPassesQuota() returns (db: Database, inputs: seq<Input>)
    ensures DbOk(db) && Bounded(db) && WithinQuota(db) && |inputs| == 2 && Batch(db, 1, None, inputs).Ok?
    ensures !WithinQuota(Batch(db, 1, None, inputs).value)
  {
    db, inputs := TRASHED, Times(Input("copy", "hash"), 2);
    TrashedIsConsistent();
    TrashedIsWithinQuota();
    CopiesAreAccepted(db, 1, None, "copy", 1, 2);
    BatchAddsBytes(db, 1, None, FindAll(db, inputs).value, 1);
  }
}
