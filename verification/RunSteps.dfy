/** The events of the one-call-at-a-time runs do what the calls are for: an event whose
    call is accepted takes effect in the tables. */
module RunSteps {
  import opened Options
  import opened Tables
  import opened References
  import opened Chunking
  import FileCalls
  import FolderTree
  import Usage
  import Collections
  import ObjectStore
  import ScanGate

  // ---- FolderTree ----

  lemma FolderEventsTakeEffect(t: FolderTree.Tree, e: FolderTree.Event)
    ensures var t' := FolderTree.Step(t, e);
            && (e.CreateFolder? && FolderTree.Create(t, e.user, e.parent, e.name).Ok? ==>
                  t.nextFolder in t'.db.folders && t'.db.folders[t.nextFolder] == FolderRow(e.user, e.parent, e.name))
            && (e.RenameFolder? && FolderTree.Rename(t, e.user, e.folder, e.name).Ok? ==>
                  e.folder in t'.db.folders && t'.db.folders[e.folder].name == e.name)
            && (e.MoveFolder? && FolderTree.Relocate(t, e.user, e.folder, e.parent).Ok? ==>
                  e.folder in t'.db.folders && t'.db.folders[e.folder].parent == e.parent)
            && (e.DeleteFolder? && FolderTree.Delete(t, e.user, e.folder, e.pinned).Ok? ==> e.folder !in t'.db.folders)
  {
  }

  lemma FileEventsTakeEffect(t: FolderTree.Tree, e: FolderTree.Event)
    ensures var db, db' := t.db, FolderTree.Step(t, e).db;
            && (e.Trash? && FileCalls.IsActiveFile(db, e.user, e.file) ==>
                  e.file in db'.files && db'.files[e.file].status == Deleted)
            && (e.Untrash? && FileCalls.IsTrashedFile(db, e.user, e.file) ==>
                  e.file in db'.files && db'.files[e.file].status == Active)
            && (e.MoveFile? && FileCalls.IsActiveFile(db, e.user, e.file) && FolderFound(db, e.user, e.parent) ==>
                  e.file in db'.files && db'.files[e.file].parent == e.parent)
            && (e.RenameFile? && FileCalls.IsActiveFile(db, e.user, e.file) && e.name != "" ==>
                  e.file in db'.files && db'.files[e.file].name == e.name)
            && (e.Purge? && PurgeDeleted(db, e.user, e.file).Ok? ==> e.file !in db'.files)
            && (e.AddFile? && FolderFound(db, e.user, e.parent) && e.user in db.users && e.snapshot.id in db.objects ==>
                  && db.nextFile in db'.files && db'.files[db.nextFile].owner == e.user
                  && db'.files[db.nextFile].parent == e.parent && db'.files[db.nextFile].name == e.name)
  {
  }

  // ---- Usage ----

  /** Accepted uploads and deletes change the tables as the service calls do, and the
      cached value goes with them; the first look at the usage fills it. */
  lemma UsageEventsTakeEffect(hash: Content -> Digest, s: Usage.State, e: Usage.Event)
    ensures var s' := Usage.Step(hash, s, e);
            && (e.UploadCall? ==>
                  var r := Usage.Upload(s.db, e.user, e.parent, e.name, e.contentType, hash(e.content), |e.content|,
                      e.path);
                  r.Ok? ==> s'.db == r.value && e.user !in s'.cache)
            && (e.InstantCall? ==>
                  var r := Usage.Instant(s.db, e.user, e.parent, e.name, e.hash);
                  r.Ok? ==> s'.db == r.value && e.user !in s'.cache)
            && (e.BatchCall? ==>
                  var r := Usage.Batch(s.db, e.user, e.parent, e.inputs);
                  r.Ok? ==> s'.db == r.value && e.user !in s'.cache)
            && (e.Purge? && PurgeDeleted(s.db, e.user, e.file).Ok? ==>
                  e.file !in s'.db.files && e.user !in s'.cache)
            && (e.GetUsage? && e.user !in s.cache ==>
                  e.user in s'.cache && s'.cache[e.user] == UsedBytes(s.db, e.user))
            && (e.Expire? ==> e.user !in s'.cache && s'.db == s.db)
  {
  }

  lemma UsageUpdatesTakeEffect(hash: Content -> Digest, s: Usage.State, e: Usage.Event)
    ensures var db, db' := s.db, Usage.Step(hash, s, e).db;
            && (e.Trash? && FileCalls.IsActiveFile(db, e.user, e.file) ==>
                  e.file in db'.files && db'.files[e.file].status == Deleted)
            && (e.Untrash? && FileCalls.IsTrashedFile(db, e.user, e.file) ==>
                  e.file in db'.files && db'.files[e.file].status == Active)
            && (e.Move? && FileCalls.IsActiveFile(db, e.user, e.file) && FolderFound(db, e.user, e.parent) ==>
                  e.file in db'.files && db'.files[e.file].parent == e.parent)
            && (e.Rename? && FileCalls.IsActiveFile(db, e.user, e.file) && e.name != "" ==>
                  e.file in db'.files && db'.files[e.file].name == e.name)
  {
  }

  // ---- Collections ----

  lemma CollectionEventsTakeEffect(db: Database, e: Collections.Event)
    ensures var db' := Collections.Step(db, e);
            && (e.CreateCollection? && Collections.Create(db, e.user, e.ids, e.expired, e.limit, e.token).Ok? ==>
                  e.token in db'.collections && db'.collections[e.token].owner == e.user)
            && (e.Revoke? && e.token in db.collections && db.collections[e.token].owner == e.user ==>
                  e.token !in db'.collections)
            && (e.ReserveSlots? && Collections.Reserve(db, e.token, e.n).Some? ==>
                  && e.token in db.collections && e.token in db'.collections
                  && db'.collections[e.token].downloads == db.collections[e.token].downloads + e.n)
            && (e.ReleaseSlots? && e.token in db.collections && e.n <= db.collections[e.token].downloads ==>
                  && e.token in db'.collections
                  && db'.collections[e.token].downloads == db.collections[e.token].downloads - e.n)
            && (e.FileCall? && e.call.Trash? && FileCalls.IsActiveFile(db, e.call.user, e.call.file) ==>
                  e.call.file in db'.files && db'.files[e.call.file].status == Deleted)
  {
  }

  // ---- what goes on beside the calls of ObjectStore and ScanGate ----

  lemma StoreEventsTakeEffect(hash: Content -> Digest, s: ObjectStore.State, e: ObjectStore.Event)
    ensures var db, db' := s.store.db, ObjectStore.Step(hash, s, e).store.db;
            && (e.Trash? && FileCalls.IsActiveFile(db, e.user, e.file) ==>
                  e.file in db'.files && db'.files[e.file].status == Deleted)
            && (e.Untrash? && FileCalls.IsTrashedFile(db, e.user, e.file) ==>
                  e.file in db'.files && db'.files[e.file].status == Active)
            && (e.MoveFile? && FileCalls.IsActiveFile(db, e.user, e.file)
                && (e.parent.Some? ==> e.parent.value in db.folders) ==>
                  e.file in db'.files && db'.files[e.file].parent == e.parent)
            && (e.RenameFile? && FileCalls.IsActiveFile(db, e.user, e.file) ==>
                  e.file in db'.files && db'.files[e.file].name == e.name)
            && (e.Others? ==> db'.users == e.users && db'.folders == e.folders)
  {
  }

  lemma GateEventsTakeEffect(s: ScanGate.State, e: ScanGate.Event)
    ensures var db, st' := s.store.db, ScanGate.Step(s, e).store;
            && (e.Trash? && FileCalls.IsActiveFile(db, e.user, e.file) ==>
                  e.file in st'.db.files && st'.db.files[e.file].status == Deleted)
            && (e.Untrash? && FileCalls.IsTrashedFile(db, e.user, e.file) ==>
                  e.file in st'.db.files && st'.db.files[e.file].status == Active)
            && (e.Purge? && PurgeDeleted(db, e.user, e.file).Ok? ==> e.file !in st'.db.files)
            && (e.Pend? && e.objectId in db.objects && e.objectId !in db.scans ==>
                  e.objectId in st'.db.scans && st'.db.scans[e.objectId] == Pending)
            && (e.Erase? ==> e.path !in st'.stored)
  {
  }
}
