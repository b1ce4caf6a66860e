/** Calls of ScanGate that are left alone do what they are for: a scan records the
    scanner's verdict, a clean file is read, a thumbnail is made. */
module ScanGateAlone {
  import opened Options
  import opened Chunking
  import opened Tables
  import opened ScanGate

  /** n steps of one call with nobody else at work; e carries the outcomes of the
      scanner and the decoder and the fresh name. */
  function Alone(st: Store, pc: Pc, e: Event, n: nat): Move
    requires e.Advance?
    decreases n, pc
  {
    if n == 0 then Move(st, pc)
    else
      var m := Next(st, pc, e);
      Alone(m.store, m.pc, e, n - 1)
  }

  lemma {:induction false} ReturnedStays(st: Store, e: Event, n: nat)
    requires e.Advance?
    ensures Alone(st, Returned, e, n) == Move(st, Returned)
    decreases n
  {
    if n > 0 {
      ReturnedStays(st, e, n - 1);
    }
  }

  lemma OneStep(st: Store, pc: Pc, e: Event, m: Move, n: nat)
    requires e.Advance? && Next(st, pc, e) == m
    ensures Alone(st, pc, e, n + 1) == Alone(m.store, m.pc, e, n)
  {
  }

  // ---- scans ----

  predicate Claimable(db: Database, o: ObjectId) {
    o in db.scans ==> db.scans[o] == Pending || db.scans[o] == ScanFailed
  }

  predicate OwnActive(db: Database, user: UserId, file: FileId) {
    && file in db.files && db.files[file].owner == user && db.files[file].status == Active
    && db.files[file].objectId in db.objects
  }

  function SnapshotOf(db: Database, o: ObjectId): Snapshot
    requires o in db.objects
  {
    Snapshot(o, db.objects[o])
  }

  function WithScan(st: Store, o: ObjectId, status: ScanStatus): Store {
    st.(db := st.db.(scans := st.db.scans[o := status]))
  }

  /** The table once the scan's INSERT has run. */
  function Inserted(st: Store, o: ObjectId): Store {
    if o in st.db.scans then st else WithScan(st, o, Pending)
  }

  lemma ScanToClaim(st: Store, user: UserId, file: FileId, e: Event, n: nat)
    requires e.Advance? && OwnActive(st.db, user, file)
    ensures var snapshot := SnapshotOf(st.db, st.db.files[file].objectId);
            Alone(st, ScanStart(user, file), e, n + 4)
              == Alone(Inserted(st, snapshot.id), ScanClaim(file, snapshot), e, n)
  {
    var snapshot := SnapshotOf(st.db, st.db.files[file].objectId);
    var inserted := Inserted(st, snapshot.id);
    OneStep(st, ScanStart(user, file), e, Move(st, ScanFind(file)), n + 3);
    OneStep(st, ScanFind(file), e, Move(st, ScanInsert(file, snapshot)), n + 2);
    OneStep(st, ScanInsert(file, snapshot), e, Move(inserted, ScanSelect(file, snapshot)), n + 1);
    OneStep(inserted, ScanSelect(file, snapshot), e, Move(inserted, ScanClaim(file, snapshot)), n);
  }

  lemma ScanToVerdict(st: Store, file: FileId, snapshot: Snapshot, e: Event, n: nat)
    requires e.Advance? && Claimable(st.db, snapshot.id)
    ensures var scanning, path := WithScan(st, snapshot.id, Scanning), snapshot.row.path;
            var pc := if path in st.stored then ScanRun(file, snapshot, st.stored[path]) else ScanFail(file, snapshot);
            Alone(Inserted(st, snapshot.id), ScanClaim(file, snapshot), e, n + 2) == Alone(scanning, pc, e, n)
  {
    var o := snapshot.id;
    var scanning, path := WithScan(st, o, Scanning), snapshot.row.path;
    assert st.db.scans[o := Pending][o := Scanning] == st.db.scans[o := Scanning];
    OneStep(Inserted(st, o), ScanClaim(file, snapshot), e, Move(scanning, ScanOpen(file, snapshot)), n + 1);
    var pc := if path in st.stored then ScanRun(file, snapshot, st.stored[path]) else ScanFail(file, snapshot);
    OneStep(scanning, ScanOpen(file, snapshot), e, Move(scanning, pc), n);
  }

  lemma FailedScan(st: Store, file: FileId, snapshot: Snapshot, e: Event, n: nat)
    requires e.Advance?
    ensures Alone(WithScan(st, snapshot.id, Scanning), ScanFail(file, snapshot), e, n + 1)
         == Move(WithScan(st, snapshot.id, ScanFailed), Returned)
  {
    var o := snapshot.id;
    var failed := WithScan(st, o, ScanFailed);
    assert st.db.scans[o := Scanning][o := ScanFailed] == st.db.scans[o := ScanFailed];
    OneStep(WithScan(st, o, Scanning), ScanFail(file, snapshot), e, Move(failed, Returned), n);
    ReturnedStays(failed, e, n);
  }

  /** The parts of the store that anyone reads. */
  predicate Leaves(m: Move, db: Database, stored: map<Path, Content>, thumbJobs: set<FileId>) {
    m.pc == Returned && m.store.db == db && m.store.stored == stored && m.store.thumbJobs == thumbJobs
  }

  function ThumbJobsAfter(st: Store, file: FileId, contentType: string, o: ObjectId): set<FileId> {
    if SupportsThumbnail(contentType) && o !in st.db.previews then st.thumbJobs + {file} else st.thumbJobs
  }

  lemma InfectedScan(st: Store, file: FileId, snapshot: Snapshot, content: Content, e: Event)
    requires e.Advance? && e.infected == Some(true)
    ensures var m := Alone(WithScan(st, snapshot.id, Scanning), ScanRun(file, snapshot, content), e, 3);
            Leaves(m, WithScan(st, snapshot.id, Infected).db, st.stored, st.thumbJobs)
  {
    var o := snapshot.id;
    var flagged := WithScan(st, o, Scanning).(flagged := st.flagged + {content});
    var done := WithScan(st, o, Infected).(flagged := st.flagged + {content});
    assert st.db.scans[o := Scanning][o := Infected] == st.db.scans[o := Infected];
    OneStep(WithScan(st, o, Scanning), ScanRun(file, snapshot, content), e,
            Move(flagged, ScanFinish(file, snapshot, true)), 2);
    OneStep(flagged, ScanFinish(file, snapshot, true), e, Move(done, Returned), 1);
    ReturnedStays(done, e, 1);
  }

  lemma CleanScan(st: Store, file: FileId, snapshot: Snapshot, content: Content, e: Event)
    requires e.Advance? && e.infected == Some(false)
    ensures var m := Alone(WithScan(st, snapshot.id, Scanning), ScanRun(file, snapshot, content), e, 3);
            Leaves(m, WithScan(st, snapshot.id, Clean).db, st.stored,
                   ThumbJobsAfter(st, file, snapshot.row.contentType, snapshot.id))
  {
    var o := snapshot.id;
    var cleared := WithScan(st, o, Scanning).(cleared := st.cleared + {content});
    var done := WithScan(st, o, Clean).(cleared := st.cleared + {content}, passed := st.passed + {o});
    assert st.db.scans[o := Scanning][o := Clean] == st.db.scans[o := Clean];
    OneStep(WithScan(st, o, Scanning), ScanRun(file, snapshot, content), e,
            Move(cleared, ScanFinish(file, snapshot, false)), 2);
    OneStep(cleared, ScanFinish(file, snapshot, false), e, Move(done, ScanEnqueue(file, snapshot)), 1);
    var end := done.(thumbJobs := ThumbJobsAfter(st, file, snapshot.row.contentType, o));
    OneStep(done, ScanEnqueue(file, snapshot), e, Move(end, Returned), 0);
  }

  lemma VerdictIsRecorded(st: Store, file: FileId, snapshot: Snapshot, content: Content, e: Event)
    requires e.Advance?
    ensures var m := Alone(WithScan(st, snapshot.id, Scanning), ScanRun(file, snapshot, content), e, 3);
            match e.infected
            case None => Leaves(m, WithScan(st, snapshot.id, ScanFailed).db, st.stored, st.thumbJobs)
            case Some(true) => Leaves(m, WithScan(st, snapshot.id, Infected).db, st.stored, st.thumbJobs)
            case Some(false) =>
              Leaves(m, WithScan(st, snapshot.id, Clean).db, st.stored,
                     ThumbJobsAfter(st, file, snapshot.row.contentType, snapshot.id))
  {
    if e.infected == Some(true) {
      InfectedScan(st, file, snapshot, content, e);
    } else if e.infected == Some(false) {
      CleanScan(st, file, snapshot, content, e);
    } else {
      var scanning := WithScan(st, snapshot.id, Scanning);
      OneStep(scanning, ScanRun(file, snapshot, content), e, Move(scanning, ScanFail(file, snapshot)), 2);
      FailedScan(st, file, snapshot, e, 1);
    }
  }

  lemma ClaimedScanAlone(st: Store, file: FileId, snapshot: Snapshot, e: Event)
    requires e.Advance? && Claimable(st.db, snapshot.id)
    ensures var m := Alone(Inserted(st, snapshot.id), ScanClaim(file, snapshot), e, 5);
            if snapshot.row.path !in st.stored || e.infected == None then
              Leaves(m, WithScan(st, snapshot.id, ScanFailed).db, st.stored, st.thumbJobs)
            else if e.infected == Some(true) then
              Leaves(m, WithScan(st, snapshot.id, Infected).db, st.stored, st.thumbJobs)
            else
              Leaves(m, WithScan(st, snapshot.id, Clean).db, st.stored,
                     ThumbJobsAfter(st, file, snapshot.row.contentType, snapshot.id))
  {
    ScanToVerdict(st, file, snapshot, e, 3);
    if snapshot.row.path in st.stored {
      VerdictIsRecorded(st, file, snapshot, st.stored[snapshot.row.path], e);
    } else {
      FailedScan(st, file, snapshot, e, 2);
    }
  }

  /** Main result: a scan of the user's active file that is left alone, and whose
      object nobody has claimed or judged, ends with the scanner's verdict in the
      object's row: clean, infected, or failed when the scanner or the storage gives
      none. A clean image or video without a preview has its thumbnail job. Nothing
      else moves. */
  lemma ScanAloneRecordsTheVerdict(st: Store, user: UserId, file: FileId, e: Event)
    requires e.Advance? && OwnActive(st.db, user, file) && Claimable(st.db, st.db.files[file].objectId)
    ensures var o := st.db.files[file].objectId;
            var m := Alone(st, ScanStart(user, file), e, 9);
            if st.db.objects[o].path !in st.stored || e.infected == None then
              Leaves(m, st.db.(scans := st.db.scans[o := ScanFailed]), st.stored, st.thumbJobs)
            else if e.infected == Some(true) then
              Leaves(m, st.db.(scans := st.db.scans[o := Infected]), st.stored, st.thumbJobs)
            else
              Leaves(m, st.db.(scans := st.db.scans[o := Clean]), st.stored,
                     if SupportsThumbnail(st.db.objects[o].contentType) && o !in st.db.previews
                     then st.thumbJobs + {file} else st.thumbJobs)
  {
    var snapshot := SnapshotOf(st.db, st.db.files[file].objectId);
    ScanToClaim(st, user, file, e, 5);
    ClaimedScanAlone(st, file, snapshot, e);
  }

  /** An object that is being scanned or has its verdict is not scanned again. */
  lemma ScanAloneOfAJudgedObject(st: Store, user: UserId, file: FileId, e: Event)
    requires e.Advance? && OwnActive(st.db, user, file) && !Claimable(st.db, st.db.files[file].objectId)
    ensures Alone(st, ScanStart(user, file), e, 9) == Move(st, Returned)
  {
    var snapshot := SnapshotOf(st.db, st.db.files[file].objectId);
    ScanToClaim(st, user, file, e, 5);
    OneStep(st, ScanClaim(file, snapshot), e, Move(st, Returned), 4);
    ReturnedStays(st, e, 4);
  }

  // ---- reads ----

  predicate IsCleanNow(db: Database, o: ObjectId) {
    o in db.scans && db.scans[o] == Clean
  }

  /** A private read that is left alone hands out the file's stored bytes exactly when
      it is the user's active file, its object is clean and its bytes are there. */
  lemma ReadAloneOpensCleanFiles(st: Store, user: UserId, file: FileId, e: Event)
    requires e.Advance?
    ensures var m := Alone(st, ReadStart(user, file), e, 4);
            && m.store == st
            && if OwnActive(st.db, user, file) && IsCleanNow(st.db, st.db.files[file].objectId)
                  && st.db.files[file].path in st.stored
               then
                 var path := st.db.files[file].path;
                 m.pc == Reading(st.db.files[file].objectId, path, false, st.stored[path])
               else m.pc == Returned
  {
    ReturnedStays(st, e, 3);
    if ActiveFile(st.db, file) && st.db.files[file].owner == user {
      var row := st.db.files[file];
      OneStep(st, ReadStart(user, file), e, Move(st, ReadFind(file, row)), 3);
      ReturnedStays(st, e, 2);
      if row.objectId in st.db.objects {
        OneStep(st, ReadFind(file, row), e, Move(st, ReadCheck(row.objectId, row.path, false)), 2);
        CheckAlone(st, row.objectId, row.path, false, e);
      } else {
        OneStep(st, ReadFind(file, row), e, Move(st, Returned), 2);
      }
    } else {
      OneStep(st, ReadStart(user, file), e, Move(st, Returned), 3);
    }
  }

  lemma CheckAlone(st: Store, o: ObjectId, path: Path, preview: bool, e: Event)
    requires e.Advance?
    ensures Alone(st, ReadCheck(o, path, preview), e, 2)
         == Move(st, if IsCleanNow(st.db, o) && path in st.stored then Reading(o, path, preview, st.stored[path])
                     else Returned)
  {
    if IsCleanNow(st.db, o) {
      OneStep(st, ReadCheck(o, path, preview), e, Move(st, ReadOpen(o, path, preview)), 1);
      OpenAlone(st, o, path, preview, e);
    } else {
      OneStep(st, ReadCheck(o, path, preview), e, Move(st, Returned), 1);
      ReturnedStays(st, e, 1);
    }
  }

  lemma OpenAlone(st: Store, o: ObjectId, path: Path, preview: bool, e: Event)
    requires e.Advance?
    ensures Alone(st, ReadOpen(o, path, preview), e, 1)
         == Move(st, if path in st.stored then Reading(o, path, preview, st.stored[path]) else Returned)
  {
    var pc := if path in st.stored then Reading(o, path, preview, st.stored[path]) else Returned;
    OneStep(st, ReadOpen(o, path, preview), e, Move(st, pc), 0);
  }

  /** A shared read likewise, whoever asks. */
  lemma SharedAloneOpensCleanFiles(st: Store, file: FileId, e: Event)
    requires e.Advance?
    ensures var m := Alone(st, SharedStart(file), e, 3);
            && m.store == st
            && if ActiveFile(st.db, file) && IsCleanNow(st.db, st.db.files[file].objectId)
                  && st.db.files[file].path in st.stored
               then
                 var path := st.db.files[file].path;
                 m.pc == Reading(st.db.files[file].objectId, path, false, st.stored[path])
               else m.pc == Returned
  {
    if ActiveFile(st.db, file) {
      var row := st.db.files[file];
      OneStep(st, SharedStart(file), e, Move(st, ReadCheck(row.objectId, row.path, false)), 2);
      CheckAlone(st, row.objectId, row.path, false, e);
    } else {
      OneStep(st, SharedStart(file), e, Move(st, Returned), 2);
      ReturnedStays(st, e, 2);
    }
  }

  /** The preview of a clean object, to the owner or by share. */
  lemma PreviewAloneOpensCleanFiles(st: Store, user: UserId, file: FileId, e: Event)
    requires e.Advance?
    ensures var m, shared := Alone(st, PreviewStart(user, file), e, 3), Alone(st, PublicPreviewStart(file), e, 4);
            && m.store == st && shared.store == st
            && if ActiveFile(st.db, file) && IsCleanNow(st.db, st.db.files[file].objectId)
                  && st.db.files[file].objectId in st.db.previews
                  && st.db.previews[st.db.files[file].objectId] in st.stored
               then
                 var o := st.db.files[file].objectId;
                 var path := st.db.previews[o];
                 && shared.pc == Reading(o, path, true, st.stored[path])
                 && m.pc == if st.db.files[file].owner == user then shared.pc else Returned
               else m.pc == Returned && shared.pc == Returned
  {
    OwnPreviewAlone(st, user, file, e);
    PublicPreviewAlone(st, file, e);
  }

  lemma OwnPreviewAlone(st: Store, user: UserId, file: FileId, e: Event)
    requires e.Advance?
    ensures var found := FindPreview(st.db, file);
            Alone(st, PreviewStart(user, file), e, 3)
            == Move(st, if found.Some? && st.db.files[file].owner == user
                           && IsCleanNow(st.db, st.db.files[file].objectId) && found.value in st.stored
                        then Reading(st.db.files[file].objectId, found.value, true, st.stored[found.value])
                        else Returned)
  {
    var found := FindPreview(st.db, file);
    if found.Some? && st.db.files[file].owner == user {
      var o := st.db.files[file].objectId;
      OneStep(st, PreviewStart(user, file), e, Move(st, ReadCheck(o, found.value, true)), 2);
      CheckAlone(st, o, found.value, true, e);
    } else {
      OneStep(st, PreviewStart(user, file), e, Move(st, Returned), 2);
      ReturnedStays(st, e, 2);
    }
  }

  lemma PublicPreviewAlone(st: Store, file: FileId, e: Event)
    requires e.Advance?
    ensures var found := FindPreview(st.db, file);
            Alone(st, PublicPreviewStart(file), e, 4)
            == Move(st, if found.Some? && IsCleanNow(st.db, st.db.files[file].objectId) && found.value in st.stored
                        then Reading(st.db.files[file].objectId, found.value, true, st.stored[found.value])
                        else Returned)
  {
    var found := FindPreview(st.db, file);
    ReturnedStays(st, e, 3);
    ReturnedStays(st, e, 2);
    ReturnedStays(st, e, 1);
    if !ActiveFile(st.db, file) {
      OneStep(st, PublicPreviewStart(file), e, Move(st, Returned), 3);
    } else {
      var o := st.db.files[file].objectId;
      OneStep(st, PublicPreviewStart(file), e, Move(st, PublicPreviewCheck(file, o)), 3);
      if !IsCleanNow(st.db, o) {
        OneStep(st, PublicPreviewCheck(file, o), e, Move(st, Returned), 2);
      } else {
        OneStep(st, PublicPreviewCheck(file, o), e, Move(st, PublicPreviewFind(file, o)), 2);
        if found.None? {
          OneStep(st, PublicPreviewFind(file, o), e, Move(st, Returned), 1);
        } else {
          OneStep(st, PublicPreviewFind(file, o), e, Move(st, ReadOpen(o, found.value, true)), 1);
          OpenAlone(st, o, found.value, true, e);
        }
      }
    }
  }

  lemma ReadsAlone(st: Store, user: UserId, file: FileId, e: Event, status: ScanStatus)
    requires e.Advance? && OwnActive(st.db, user, file) && st.db.files[file].path in st.stored
    requires st.db.files[file].objectId in st.db.scans && st.db.scans[st.db.files[file].objectId] == status
    ensures var path := st.db.files[file].path;
            var pc := if status == Clean then Reading(st.db.files[file].objectId, path, false, st.stored[path])
                      else Returned;
            Alone(st, ReadStart(user, file), e, 4).pc == pc && Alone(st, SharedStart(file), e, 3).pc == pc
  {
    ReadAloneOpensCleanFiles(st, user, file, e);
    SharedAloneOpensCleanFiles(st, file, e);
  }

  /** A file whose scan finds it clean can be read, by its owner and by share; a file
      whose scan finds it infected cannot. */
  lemma ScanDecidesTheRead(st: Store, user: UserId, file: FileId, e: Event)
    requires e.Advance? && e.infected.Some? && OwnActive(st.db, user, file)
    requires Claimable(st.db, st.db.files[file].objectId)
    requires st.db.files[file].path == st.db.objects[st.db.files[file].objectId].path
             && st.db.files[file].path in st.stored
    ensures var scanned, path := Alone(st, ScanStart(user, file), e, 9).store, st.db.files[file].path;
            var pc := if e.infected.value then Returned
                      else Reading(st.db.files[file].objectId, path, false, st.stored[path]);
            Alone(scanned, ReadStart(user, file), e, 4).pc == pc && Alone(scanned, SharedStart(file), e, 3).pc == pc
  {
    ScanAloneRecordsTheVerdict(st, user, file, e);
    var scanned := Alone(st, ScanStart(user, file), e, 9).store;
    var status := if e.infected.value then Infected else Clean;
    assert scanned.db == st.db.(scans := st.db.scans[st.db.files[file].objectId := status]);
    ReadsAlone(scanned, user, file, e, status);
  }

  // ---- thumbnails ----

  /** A thumbnail job that is left alone saves the decoder's image under the fresh name
      and makes it the object's preview; without an active image or video file, its bytes
      or a decoded image, or with a preview already there, it changes neither tables nor storage. */
  lemma ThumbAloneIsTheCall(st: Store, file: FileId, e: Event)
    requires e.Advance? && e.newPath !in st.origins
    requires forall o :: o in st.db.objects ==> st.db.objects[o].path in st.origins
    ensures var m := Alone(st, ThumbStart(file), e, 6);
            && m.pc == Returned
            && if ActiveFile(st.db, file) && st.db.files[file].objectId in st.db.objects
                  && SupportsThumbnail(st.db.objects[st.db.files[file].objectId].contentType)
                  && st.db.files[file].objectId !in st.db.previews
                  && st.db.objects[st.db.files[file].objectId].path in st.stored && e.image.Some?
               then
                 && m.store.db == st.db.(previews := st.db.previews[st.db.files[file].objectId := e.newPath])
                 && m.store.stored == st.stored[e.newPath := e.image.value]
               else m.store == st
  {
    var found := FindObjectForActiveFile(st.db, file);
    if found.None? || !SupportsThumbnail(found.value.row.contentType) {
      OneStep(st, ThumbStart(file), e, Move(st, Returned), 5);
      ReturnedStays(st, e, 5);
    } else {
      OneStep(st, ThumbStart(file), e, Move(st, ThumbFind(found.value)), 5);
      ThumbFindAlone(st, found.value, e);
    }
  }

  lemma ThumbFindAlone(st: Store, snapshot: Snapshot, e: Event)
    requires e.Advance? && e.newPath !in st.origins && snapshot.row.path in st.origins && snapshot.id in st.db.objects
    ensures var m := Alone(st, ThumbFind(snapshot), e, 5);
            && m.pc == Returned
            && if snapshot.id !in st.db.previews && snapshot.row.path in st.stored && e.image.Some? then
                 && m.store.db == st.db.(previews := st.db.previews[snapshot.id := e.newPath])
                 && m.store.stored == st.stored[e.newPath := e.image.value]
               else m.store == st
  {
    if snapshot.id in st.db.previews {
      OneStep(st, ThumbFind(snapshot), e, Move(st, Returned), 4);
      ReturnedStays(st, e, 4);
    } else if snapshot.row.path !in st.stored {
      OneStep(st, ThumbFind(snapshot), e, Move(st, ThumbOpen(snapshot)), 4);
      OneStep(st, ThumbOpen(snapshot), e, Move(st, Returned), 3);
      ReturnedStays(st, e, 3);
    } else {
      OneStep(st, ThumbFind(snapshot), e, Move(st, ThumbOpen(snapshot)), 4);
      OneStep(st, ThumbOpen(snapshot), e, Move(st, Decoding(snapshot, st.stored[snapshot.row.path])), 3);
      DecodeAlone(st, snapshot, st.stored[snapshot.row.path], e);
    }
  }

  lemma DecodeAlone(st: Store, snapshot: Snapshot, content: Content, e: Event)
    requires e.Advance? && e.newPath !in st.origins && snapshot.row.path in st.origins
    requires snapshot.id in st.db.objects && snapshot.id !in st.db.previews
    ensures var m := Alone(st, Decoding(snapshot, content), e, 3);
            && m.pc == Returned
            && if e.image.Some? then
                 && m.store.db == st.db.(previews := st.db.previews[snapshot.id := e.newPath])
                 && m.store.stored == st.stored[e.newPath := e.image.value]
               else m.store == st
  {
    if e.image.None? {
      OneStep(st, Decoding(snapshot, content), e, Move(st, Returned), 2);
      ReturnedStays(st, e, 2);
    } else {
      OneStep(st, Decoding(snapshot, content), e, Move(st, ThumbSave(snapshot, e.image.value)), 2);
      SaveAlone(st, snapshot, e.image.value, e);
    }
  }

  lemma SaveAlone(st: Store, snapshot: Snapshot, image: Content, e: Event)
    requires e.Advance? && e.newPath !in st.origins && snapshot.row.path in st.origins
    requires snapshot.id in st.db.objects && snapshot.id !in st.db.previews
    ensures var m := Alone(st, ThumbSave(snapshot, image), e, 2);
            && m.pc == Returned
            && m.store.db == st.db.(previews := st.db.previews[snapshot.id := e.newPath])
            && m.store.stored == st.stored[e.newPath := image]
  {
    var path := e.newPath;
    var saved := st.(stored := st.stored[path := image], origins := st.origins[path := st.origins[snapshot.row.path]]);
    var linked := saved.(db := st.db.(previews := st.db.previews[snapshot.id := path]));
    OneStep(st, ThumbSave(snapshot, image), e, Move(saved, ThumbInsert(snapshot, path)), 1);
    OneStep(saved, ThumbInsert(snapshot, path), e, Move(linked, Returned), 0);
  }

  // ---- in a run ----

  lemma {:induction false} RunSplits(s: State, first: seq<Event>, then_: seq<Event>)
    ensures Run(s, first + then_) == Run(Run(s, first), then_)
    decreases |then_|
  {
    if then_ == [] {
      assert first + then_ == first;
    } else {
      var n := |then_| - 1;
      assert (first + then_)[..|first + then_| - 1] == first + then_[..n];
      RunSplits(s, first, then_[..n]);
    }
  }

  function Times(e: Event, n: nat): seq<Event> {
    seq(n, _ => e)
  }

  /** Events that advance one call only are that call left alone. */
  lemma {:induction false} RunIsAlone(s: State, e: Event, n: nat)
    requires e.Advance? && e.call in s.calls
    ensures var m := Alone(s.store, s.calls[e.call], e, n);
            Run(s, Times(e, n)) == State(m.store, s.calls[e.call := m.pc])
    decreases n
  {
    if n == 0 {
      assert s.calls[e.call := s.calls[e.call]] == s.calls;
    } else {
      var m := Next(s.store, s.calls[e.call], e);
      var s1 := State(m.store, s.calls[e.call := m.pc]);
      assert Times(e, n) == [e] + Times(e, n - 1);
      RunSplits(s, [e], Times(e, n - 1));
      assert [e][..0] == [] && Run(s, [e]) == s1;
      RunIsAlone(s1, e, n - 1);
      var m' := Alone(s.store, s.calls[e.call], e, n);
      assert s1.calls[e.call := m'.pc] == s.calls[e.call := m'.pc];
    }
  }

  /** A call that arrives and is left alone for n steps. */
  lemma CallAlone(s: State, first: Pc, e: Event, n: nat)
    requires e.Advance? && e.call !in s.calls && FirstPc(s.store, first)
    ensures var m := Alone(s.store, first, e, n);
            Run(s, [Arrive(e.call, first)] + Times(e, n)) == State(m.store, s.calls[e.call := m.pc])
  {
    var arrived := s.(calls := s.calls[e.call := first]);
    RunSplits(s, [Arrive(e.call, first)], Times(e, n));
    assert [Arrive(e.call, first)][..0] == [] && Run(s, [Arrive(e.call, first)]) == arrived;
    RunIsAlone(arrived, e, n);
    var m := Alone(s.store, first, e, n);
    assert arrived.calls[e.call := m.pc] == s.calls[e.call := m.pc];
  }

  /** A file of this user with this content, on its own object, not yet scanned. */
  function Uploaded(users: map<UserId, int>, user: UserId, content: Content): Store {
    var row := ObjectRow("hash", "path", |content|, "type", 1);
    var file := FileRow(user, None, 1, "name", "path", |content|, "type", Active, None);
    Store(EMPTY.(users := users, objects := map[1 := row], nextObject := 2, files := map[1 := file], nextFile := 2),
          map["path" := content], {}, map["path" := content], {}, {}, {})
  }

  lemma UploadReaches(users: map<UserId, int>, user: UserId, content: Content)
    requires user in users
    ensures Run(Init(users), [NewObject("hash", "path", content, "type"), LinkFile(user, None, "name", 1)])
         == State(Uploaded(users, user, content), map[])
  {
    var e0, e1 := NewObject("hash", "path", content, "type"), LinkFile(user, None, "name", 1);
    var row := ObjectRow("hash", "path", |content|, "type", 0);
    var db := EMPTY.(users := users, objects := map[1 := row], nextObject := 2);
    var st := Store(db, map["path" := content], {}, map["path" := content], {}, {}, {});
    assert !HasHash(EMPTY.(users := users), "hash");
    assert Step(Init(users), e0) == State(st, map[]);
    assert map[1 := row][1 := row.(refs := 1)] == map[1 := row.(refs := 1)];
    assert NextStore(st, e1) == Uploaded(users, user, content);
    RunsTwo(Init(users), e0, State(st, map[]), e1);
  }

  lemma RunsTwo(s: State, e0: Event, s1: State, e1: Event)
    requires Step(s, e0) == s1
    ensures Run(s, [e0, e1]) == Step(s1, e1)
  {
    assert [e0][..0] == [] && Run(s, [e0]) == s1;
    assert [e0, e1][..1] == [e0];
  }

  /** It happens: over a run of the machine a file is uploaded, scanned, and then read
      by its owner exactly when the scanner has found it clean. */
  lemma UploadedScannedRead(users: map<UserId, int>, user: UserId, content: Content, infected: bool)
      returns (events: seq<Event>)
    requires user in users
    ensures var calls := Run(Init(users), events).calls;
            && 0 in calls && calls[0] == Returned
            && 1 in calls && calls[1] == if infected then Returned else Reading(1, "path", false, content)
  {
    var st := Uploaded(users, user, content);
    var scan, read := Advance(0, Some(infected), None, ""), Advance(1, Some(infected), None, "");
    var upload := [NewObject("hash", "path", content, "type"), LinkFile(user, None, "name", 1)];
    var scanning, reading := [Arrive(0, ScanStart(user, 1))] + Times(scan, 9), [Arrive(1, ReadStart(user, 1))]
      + Times(read, 4);
    UploadReaches(users, user, content);
    RunSplits(Init(users), upload, scanning);
    CallAlone(State(st, map[]), ScanStart(user, 1), scan, 9);
    ScanAloneRecordsTheVerdict(st, user, 1, scan);
    var scanned := Alone(st, ScanStart(user, 1), scan, 9).store;
    var s := State(scanned, map[0 := Returned]);
    RunSplits(Init(users), upload + scanning, reading);
    CallAlone(s, ReadStart(user, 1), read, 4);
    ReadsAlone(scanned, user, 1, read, if infected then Infected else Clean);
    events := upload + scanning + reading;
  }
}
