/** Verdicts are final, scans of one object never overlap, and only what a scan
    has cleared is read or decoded, over every run of ScanGate. */
module ScanGateProofs {
  import opened Options
  import opened Chunking
  import opened Tables
  import opened References
  import opened ScanGate

  /** The part of the tables' consistency that the gate rests on. */
  ghost predicate GateDbOk(db: Database) {
    && IdsOk(db.objects, db.nextObject)
    && FilesOk(db.objects, db.files, db.nextFile)
    && CountsOk(db.objects, db.files)
    && (forall o :: o in db.previews ==> o in db.objects)
    && (forall o :: o in db.scans ==> o in db.objects)
  }

  /** What is stored under an uploaded path is what was uploaded. */
  predicate Original(st: Store, path: Path) {
    path in st.origins && (path in st.stored ==> st.stored[path] == st.origins[path])
  }

  predicate IsCleared(st: Store, path: Path) {
    path in st.origins && st.origins[path] in st.cleared
  }

  predicate IsFlagged(st: Store, path: Path) {
    path in st.origins && st.origins[path] in st.flagged
  }

  predicate SameOrigin(st: Store, a: Path, b: Path) {
    a in st.origins && b in st.origins && st.origins[a] == st.origins[b]
  }

  /** From now on the object is clean for as long as it lives. */
  predicate CleanWhileItLives(db: Database, o: ObjectId) {
    o < db.nextObject && (o in db.objects ==> o in db.scans && db.scans[o] == Clean)
  }

  /** A scan has found the object clean, and it has stayed clean ever since. */
  predicate IsClean(st: Store, o: ObjectId) {
    o in st.passed && CleanWhileItLives(st.db, o)
  }

  predicate OwnsFile(db: Database, f: FileId, o: ObjectId) {
    f < db.nextFile && (f in db.files ==> db.files[f].objectId == o)
  }

  predicate JobOk(db: Database, f: FileId) {
    f < db.nextFile && (f in db.files ==> CleanWhileItLives(db, db.files[f].objectId))
  }

  predicate OriginsOk(st: Store) {
    && (forall o :: o in st.db.objects ==> Original(st, st.db.objects[o].path))
    && (forall o :: o in st.db.previews ==>
          o in st.db.objects && SameOrigin(st, st.db.previews[o], st.db.objects[o].path))
  }

  predicate VerdictsOk(st: Store) {
    && (forall o :: o in st.db.scans && st.db.scans[o] == Clean ==>
          o in st.passed && o in st.db.objects && IsCleared(st, st.db.objects[o].path))
    && (forall o :: o in st.db.scans && st.db.scans[o] == Infected ==>
          o in st.db.objects && IsFlagged(st, st.db.objects[o].path))
  }

  predicate JobsOk(st: Store) {
    forall f :: f in st.thumbJobs ==> JobOk(st.db, f)
  }

  ghost predicate StoreOk(st: Store) {
    GateDbOk(st.db) && OriginsOk(st) && VerdictsOk(st) && JobsOk(st)
  }

  // ---- what each call knows ----

  predicate HasSnapshot(pc: Pc) {
    pc.ScanInsert? || pc.ScanSelect? || pc.ScanClaim? || pc.ScanOpen? || pc.ScanRun? || pc.ScanFinish? || pc.ScanFail?
    || pc.ScanEnqueue? || pc.ThumbFind? || pc.ThumbOpen? || pc.Decoding? || pc.ThumbSave? || pc.ThumbInsert?
  }

  ghost predicate SnapshotKnown(st: Store, pc: Pc) {
    HasSnapshot(pc) ==> SnapshotOk(st.db, pc.snapshot) && Original(st, pc.snapshot.row.path)
  }

  predicate OfFile(pc: Pc) {
    pc.ScanInsert? || pc.ScanSelect? || pc.ScanClaim? || pc.ScanOpen? || pc.ScanRun? || pc.ScanFinish? || pc.ScanFail?
      || pc.ScanEnqueue?
  }

  predicate FileKnown(db: Database, pc: Pc) {
    && (OfFile(pc) ==> OwnsFile(db, pc.file, pc.snapshot.id))
    && (pc.ReadFind? ==> OwnsFile(db, pc.file, pc.row.objectId))
    && (pc.PublicPreviewCheck? || pc.PublicPreviewFind? ==>
          OwnsFile(db, pc.file, pc.objectId) && pc.objectId < db.nextObject)
  }

  /** The object's row, while there is one, leads to content of the same origin. */
  predicate Leads(st: Store, o: ObjectId, path: Path) {
    && path in st.origins && o < st.db.nextObject
    && (o in st.db.objects ==> SameOrigin(st, path, st.db.objects[o].path))
  }

  /** The path is the object's own, or its preview's, while the object lives. */
  predicate OfObject(db: Database, o: ObjectId, path: Path, preview: bool) {
    && o < db.nextObject
    && (o in db.objects ==> if preview then o in db.previews && db.previews[o] == path else db.objects[o].path == path)
  }

  predicate HandingOut(pc: Pc) {
    pc.ReadCheck? || pc.ReadOpen? || pc.Reading?
  }

  predicate PathKnown(st: Store, pc: Pc) {
    && (pc.ReadFind? ==> OfObject(st.db, pc.row.objectId, pc.row.path, false))
    && (HandingOut(pc) ==> OfObject(st.db, pc.objectId, pc.path, pc.preview))
    && (pc.ReadFind? ==> Leads(st, pc.row.objectId, pc.row.path) && Original(st, pc.row.path))
    && (pc.ReadCheck? ==> Leads(st, pc.objectId, pc.path))
    && ((pc.ReadCheck? || pc.ReadOpen?) && !pc.preview ==> Original(st, pc.path))
    && (pc.ThumbInsert? ==> SameOrigin(st, pc.path, pc.snapshot.row.path))
    && (pc.ScanRun? || pc.Decoding? ==>
          pc.snapshot.row.path in st.origins && pc.content == st.origins[pc.snapshot.row.path])
  }

  predicate VerdictKnown(st: Store, pc: Pc) {
    && (pc.ScanFinish? && !pc.infected ==> IsCleared(st, pc.snapshot.row.path))
    && (pc.ScanFinish? && pc.infected ==> IsFlagged(st, pc.snapshot.row.path))
    && (pc.ScanEnqueue? ==> CleanWhileItLives(st.db, pc.snapshot.id))
    && (pc.ReadOpen? || pc.Reading? ==> IsClean(st, pc.objectId) && IsCleared(st, pc.path))
    && (pc.Reading? && !pc.preview ==> pc.content in st.cleared)
    && (pc.PublicPreviewFind? ==> IsClean(st, pc.objectId))
    && (pc.PublicPreviewFind? && pc.objectId in st.db.objects ==> IsCleared(st, st.db.objects[pc.objectId].path))
    && (pc.ThumbStart? ==> pc.file in st.thumbJobs)
    && (ThumbPc(pc) && !pc.ThumbStart? ==>
          IsClean(st, pc.snapshot.id) && IsCleared(st, pc.snapshot.row.path))
  }

  ghost predicate Known(st: Store, pc: Pc) {
    SnapshotKnown(st, pc) && FileKnown(st.db, pc) && PathKnown(st, pc) && VerdictKnown(st, pc)
  }

  /** Calls between claiming a scan and recording its outcome. */
  predicate InScan(pc: Pc) {
    pc.ScanOpen? || pc.ScanRun? || pc.ScanFinish? || pc.ScanFail?
  }

  predicate ScanHeld(db: Database, pc: Pc) {
    InScan(pc) && pc.snapshot.id in db.objects ==> pc.snapshot.id in db.scans && db.scans[pc.snapshot.id] == Scanning
  }

  predicate Apart(a: Pc, b: Pc) {
    InScan(a) && InScan(b) ==> a.snapshot.id != b.snapshot.id
  }

  ghost predicate Inv(s: State) {
    && StoreOk(s.store)
    && (forall c :: c in s.calls ==> Known(s.store, s.calls[c]) && ScanHeld(s.store.db, s.calls[c]))
    && (forall c, d :: c in s.calls && d in s.calls && c != d ==> Apart(s.calls[c], s.calls[d]))
  }

  // ---- how the store moves ----

  predicate DbGrows(db: Database, db': Database) {
    && db.nextObject <= db'.nextObject && db.nextFile <= db'.nextFile
    && (forall o :: o in db'.objects ==>
          if o in db.objects then db'.objects[o] == db.objects[o].(refs := db'.objects[o].refs) else db.nextObject <= o)
    && (forall f :: f in db'.files ==>
          if f in db.files then db'.files[f].objectId == db.files[f].objectId && db'.files[f].path == db.files[f].path
          else db.nextFile <= f)
    && (forall o :: o in db.previews && o in db'.objects ==> o in db'.previews && db'.previews[o] == db.previews[o])
  }

  /** A verdict stands for as long as its object lives. */
  predicate VerdictsStand(db: Database, db': Database) {
    forall o :: o in db.scans && (db.scans[o] == Clean || db.scans[o] == Infected) && o in db'.objects ==>
      o in db'.scans && db'.scans[o] == db.scans[o]
  }

  predicate BytesGrow(st: Store, st': Store) {
    && (forall p :: p in st.origins ==> p in st'.origins && st'.origins[p] == st.origins[p])
    && (forall p :: p in st'.stored && p in st.origins ==> p in st.stored && st'.stored[p] == st.stored[p])
    && st.cleared <= st'.cleared && st.flagged <= st'.flagged && st.thumbJobs <= st'.thumbJobs
    && st.passed <= st'.passed
  }

  predicate Grows(st: Store, st': Store) {
    DbGrows(st.db, st'.db) && VerdictsStand(st.db, st'.db) && BytesGrow(st, st')
  }

  /** No running scan but the call's own has its status changed. */
  predicate ScansOnlyOwn(db: Database, db': Database, pc: Pc) {
    forall o :: o in db.scans && db.scans[o] == Scanning && !(InScan(pc) && pc.snapshot.id == o) && o in db'.objects ==>
      o in db'.scans && db'.scans[o] == Scanning
  }

  lemma SnapshotSurvives(st: Store, st': Store, pc: Pc)
    requires SnapshotKnown(st, pc) && DbGrows(st.db, st'.db) && BytesGrow(st, st')
    ensures SnapshotKnown(st', pc)
  {
  }

  lemma FileSurvives(db: Database, db': Database, pc: Pc)
    requires FileKnown(db, pc) && DbGrows(db, db')
    ensures FileKnown(db', pc)
  {
  }

  lemma LeadsSurvives(st: Store, st': Store, o: ObjectId, path: Path)
    requires Leads(st, o, path) && DbGrows(st.db, st'.db) && BytesGrow(st, st')
    ensures Leads(st', o, path)
  {
  }

  lemma PathSurvives(st: Store, st': Store, pc: Pc)
    requires PathKnown(st, pc) && DbGrows(st.db, st'.db) && BytesGrow(st, st')
    ensures PathKnown(st', pc)
  {
    if pc.ReadFind? {
      LeadsSurvives(st, st', pc.row.objectId, pc.row.path);
    }
    if pc.ReadCheck? {
      LeadsSurvives(st, st', pc.objectId, pc.path);
    }
  }

  lemma CleanSurvives(db: Database, db': Database, o: ObjectId)
    requires CleanWhileItLives(db, o) && DbGrows(db, db') && VerdictsStand(db, db')
    ensures CleanWhileItLives(db', o)
  {
  }

  lemma VerdictSurvives(st: Store, st': Store, pc: Pc)
    requires VerdictKnown(st, pc) && FileKnown(st.db, pc) && Grows(st, st')
    ensures VerdictKnown(st', pc)
  {
    if pc.ScanEnqueue? || (ThumbPc(pc) && !pc.ThumbStart?) {
      CleanSurvives(st.db, st'.db, pc.snapshot.id);
    }
    if pc.ReadOpen? || pc.Reading? || pc.PublicPreviewFind? {
      CleanSurvives(st.db, st'.db, pc.objectId);
    }
  }

  /** Non-interference: what a call knows stays true whatever happens meanwhile. */
  lemma KnownSurvives(st: Store, st': Store, pc: Pc)
    requires Known(st, pc) && Grows(st, st')
    ensures Known(st', pc)
  {
    SnapshotSurvives(st, st', pc);
    FileSurvives(st.db, st'.db, pc);
    PathSurvives(st, st', pc);
    VerdictSurvives(st, st', pc);
  }

  lemma JobSurvives(db: Database, db': Database, f: FileId)
    requires JobOk(db, f) && DbGrows(db, db') && VerdictsStand(db, db')
    ensures JobOk(db', f)
  {
    if f in db'.files {
      CleanSurvives(db, db', db.files[f].objectId);
    }
  }

  lemma HeldSurvives(db: Database, db': Database, pc: Pc, other: Pc)
    requires ScanHeld(db, other) && Apart(pc, other) && DbGrows(db, db') && ScansOnlyOwn(db, db', pc)
    requires InScan(other) ==> other.snapshot.id < db.nextObject
    ensures ScanHeld(db', other)
  {
  }

  // ---- the steps ----

  ghost predicate MoveOk(st: Store, pc: Pc, m: Move) {
    && StoreOk(m.store) && Known(m.store, m.pc) && ScanHeld(m.store.db, m.pc)
    && Grows(st, m.store) && ScansOnlyOwn(st.db, m.store.db, pc)
    && (InScan(m.pc) ==> if InScan(pc) then m.pc.snapshot.id == pc.snapshot.id else CanClaim(st.db, m.pc.snapshot.id))
  }

  lemma ObjectFound(st: Store, f: FileId)
    requires StoreOk(st) && FindObjectForActiveFile(st.db, f).Some?
    ensures var snapshot := FindObjectForActiveFile(st.db, f).value;
            && SnapshotOk(st.db, snapshot) && Original(st, snapshot.row.path)
            && OwnsFile(st.db, f, snapshot.id)
            && snapshot.row.path == st.db.files[f].path
  {
    assert FileAgrees(st.db.objects, st.db.files[f]);
  }

  lemma RowLeads(st: Store, f: FileId)
    requires StoreOk(st) && f in st.db.files
    ensures var row := st.db.files[f];
            && Leads(st, row.objectId, row.path) && Original(st, row.path) && OwnsFile(st.db, f, row.objectId)
            && OfObject(st.db, row.objectId, row.path, false)
  {
    assert FileAgrees(st.db.objects, st.db.files[f]);
  }

  /** A step that changes the call alone. */
  lemma QuietOk(st: Store, pc: Pc, pc': Pc)
    requires StoreOk(st) && Known(st, pc') && ScanHeld(st.db, pc')
    requires InScan(pc') ==> InScan(pc) && pc'.snapshot.id == pc.snapshot.id
    ensures MoveOk(st, pc, Move(st, pc'))
  {
  }

  predicate Looking(pc: Pc) {
    pc.ScanStart? || pc.ScanFind? || pc.ScanSelect? || pc.ScanOpen?
  }

  lemma FindKnown(st: Store, pc: Pc)
    requires StoreOk(st) && pc.ScanFind? && FindObjectForActiveFile(st.db, pc.file).Some?
    ensures Known(st, ScanInsert(pc.file, FindObjectForActiveFile(st.db, pc.file).value))
  {
    ObjectFound(st, pc.file);
  }

  lemma LookKnown(st: Store, pc: Pc, infected: Option<bool>)
    requires StoreOk(st) && Known(st, pc) && ScanHeld(st.db, pc) && Looking(pc)
    ensures var m := NextScan(st, pc, infected);
            && m.store == st && Known(st, m.pc) && ScanHeld(st.db, m.pc)
            && (InScan(m.pc) ==> InScan(pc) && m.pc.snapshot.id == pc.snapshot.id)
  {
    if pc.ScanFind? {
      NothingKnown(st);
      if FindObjectForActiveFile(st.db, pc.file).Some? {
        FindKnown(st, pc);
      }
    }
  }

  lemma JobsSurvive(st: Store, st': Store)
    requires JobsOk(st) && st'.thumbJobs == st.thumbJobs && DbGrows(st.db, st'.db) && VerdictsStand(st.db, st'.db)
    ensures JobsOk(st')
  {
    forall f | f in st.thumbJobs
      ensures JobOk(st'.db, f)
    {
      JobSurvives(st.db, st'.db, f);
    }
  }

  function SetScan(st: Store, o: ObjectId, status: ScanStatus): Store {
    st.(db := st.db.(scans := st.db.scans[o := status]))
  }

  lemma SetScanGrows(st: Store, o: ObjectId, status: ScanStatus)
    requires o in st.db.scans ==> st.db.scans[o] != Clean && st.db.scans[o] != Infected
    ensures Grows(st, SetScan(st, o, status))
  {
  }

  lemma SetScanVerdicts(st: Store, o: ObjectId, status: ScanStatus)
    requires VerdictsOk(st) && o in st.db.objects
    requires status == Clean ==> o in st.passed && IsCleared(st, st.db.objects[o].path)
    requires status == Infected ==> IsFlagged(st, st.db.objects[o].path)
    ensures VerdictsOk(SetScan(st, o, status))
  {
  }

  /** A change of one scan row that has no verdict yet. */
  lemma SetScanOk(st: Store, o: ObjectId, status: ScanStatus)
    requires StoreOk(st) && o in st.db.objects
    requires o in st.db.scans ==> st.db.scans[o] != Clean && st.db.scans[o] != Infected
    requires status == Clean ==> o in st.passed && IsCleared(st, st.db.objects[o].path)
    requires status == Infected ==> IsFlagged(st, st.db.objects[o].path)
    ensures StoreOk(SetScan(st, o, status)) && Grows(st, SetScan(st, o, status))
  {
    SetScanGrows(st, o, status);
    SetScanVerdicts(st, o, status);
    JobsSurvive(st, SetScan(st, o, status));
  }

  lemma NothingKnown(st: Store)
    ensures Known(st, Returned) && ScanHeld(st.db, Returned)
  {
  }

  /** A step that changes one scan row, its own or one that no scan is running on. */
  lemma ScanRowOk(st: Store, pc: Pc, o: ObjectId, status: ScanStatus, pc': Pc)
    requires StoreOk(SetScan(st, o, status)) && Grows(st, SetScan(st, o, status))
    requires Known(SetScan(st, o, status), pc') && ScanHeld(SetScan(st, o, status).db, pc')
    requires (InScan(pc) && pc.snapshot.id == o) || o !in st.db.scans || st.db.scans[o] != Scanning
             || status == Scanning
    requires InScan(pc') ==> if InScan(pc) then pc'.snapshot.id == pc.snapshot.id else CanClaim(st.db, pc'.snapshot.id)
    ensures MoveOk(st, pc, Move(SetScan(st, o, status), pc'))
  {
  }

  lemma InsertStore(st: Store, pc: Pc)
    requires StoreOk(st) && Known(st, pc) && pc.ScanInsert?
    requires pc.snapshot.id in st.db.objects && pc.snapshot.id !in st.db.scans
    ensures var st' := SetScan(st, pc.snapshot.id, Pending);
            StoreOk(st') && Grows(st, st') && Known(st', pc)
  {
    SetScanOk(st, pc.snapshot.id, Pending);
    KnownSurvives(st, SetScan(st, pc.snapshot.id, Pending), pc);
  }

  lemma InsertedKnown(st: Store, pc: Pc)
    requires Known(st, pc) && pc.ScanInsert?
    ensures Known(st, ScanSelect(pc.file, pc.snapshot))
  {
  }

  lemma InsertOk(st: Store, pc: Pc, infected: Option<bool>)
    requires StoreOk(st) && Known(st, pc) && pc.ScanInsert?
    ensures MoveOk(st, pc, NextScan(st, pc, infected))
  {
    var o := pc.snapshot.id;
    if o in st.db.objects && o !in st.db.scans {
      InsertStore(st, pc);
      InsertedKnown(SetScan(st, o, Pending), pc);
      ScanRowOk(st, pc, o, Pending, ScanSelect(pc.file, pc.snapshot));
    } else {
      InsertedKnown(st, pc);
      QuietOk(st, pc, NextScan(st, pc, infected).pc);
    }
  }

  lemma ClaimStore(st: Store, pc: Pc)
    requires StoreOk(st) && Known(st, pc) && pc.ScanClaim? && CanClaim(st.db, pc.snapshot.id)
    ensures var st' := SetScan(st, pc.snapshot.id, Scanning);
            StoreOk(st') && Grows(st, st') && Known(st', pc)
  {
    SetScanOk(st, pc.snapshot.id, Scanning);
    KnownSurvives(st, SetScan(st, pc.snapshot.id, Scanning), pc);
  }

  lemma ClaimedKnown(st: Store, pc: Pc)
    requires Known(st, pc) && pc.ScanClaim?
    ensures Known(st, ScanOpen(pc.file, pc.snapshot))
  {
  }

  lemma ClaimOk(st: Store, pc: Pc, infected: Option<bool>)
    requires StoreOk(st) && Known(st, pc) && pc.ScanClaim?
    ensures MoveOk(st, pc, NextScan(st, pc, infected))
  {
    var o := pc.snapshot.id;
    if CanClaim(st.db, o) {
      ClaimStore(st, pc);
      ClaimedKnown(SetScan(st, o, Scanning), pc);
      ScanRowOk(st, pc, o, Scanning, ScanOpen(pc.file, pc.snapshot));
    } else {
      QuietOk(st, pc, Returned);
    }
  }

  lemma MoreClearedOk(st: Store, st': Store)
    requires StoreOk(st) && st' == st.(cleared := st'.cleared, flagged := st'.flagged, passed := st'.passed)
    requires st.cleared <= st'.cleared && st.flagged <= st'.flagged && st.passed <= st'.passed
    ensures StoreOk(st') && Grows(st, st')
  {
  }

  lemma VerdictOk(st: Store, pc: Pc, infected: Option<bool>)
    requires StoreOk(st) && Known(st, pc) && ScanHeld(st.db, pc) && pc.ScanRun?
    ensures MoveOk(st, pc, NextScan(st, pc, infected))
  {
    var m := NextScan(st, pc, infected);
    MoreClearedOk(st, m.store);
    KnownSurvives(st, m.store, pc);
    assert VerdictKnown(m.store, m.pc);
  }

  lemma FinishKnown(st: Store, pc: Pc)
    requires Known(st, pc) && pc.ScanFinish? && !pc.infected
    requires pc.snapshot.id in st.db.objects && pc.snapshot.id in st.db.scans && st.db.scans[pc.snapshot.id] == Clean
    ensures Known(st, ScanEnqueue(pc.file, pc.snapshot))
  {
  }

  lemma FinishStore(st: Store, pc: Pc)
    requires StoreOk(st) && Known(st, pc) && pc.ScanFinish? && (pc.infected || pc.snapshot.id in st.passed)
    requires pc.snapshot.id in st.db.scans && st.db.scans[pc.snapshot.id] == Scanning
    ensures var st' := SetScan(st, pc.snapshot.id, if pc.infected then Infected else Clean);
            StoreOk(st') && Grows(st, st') && Known(st', pc)
  {
    SetScanOk(st, pc.snapshot.id, if pc.infected then Infected else Clean);
    KnownSurvives(st, SetScan(st, pc.snapshot.id, if pc.infected then Infected else Clean), pc);
  }

  lemma FinishedInfected(st: Store, pc: Pc)
    requires StoreOk(st) && Known(st, pc) && pc.ScanFinish? && pc.infected
    requires pc.snapshot.id in st.db.scans && st.db.scans[pc.snapshot.id] == Scanning
    ensures MoveOk(st, pc, Move(SetScan(st, pc.snapshot.id, Infected), Returned))
  {
    FinishStore(st, pc);
    NothingKnown(SetScan(st, pc.snapshot.id, Infected));
    ScanRowOk(st, pc, pc.snapshot.id, Infected, Returned);
  }

  lemma FinishedClean(st: Store, pc: Pc)
    requires StoreOk(st) && Known(st, pc) && pc.ScanFinish? && !pc.infected && pc.snapshot.id in st.passed
    requires pc.snapshot.id in st.db.scans && st.db.scans[pc.snapshot.id] == Scanning
    ensures MoveOk(st, pc, Move(SetScan(st, pc.snapshot.id, Clean), ScanEnqueue(pc.file, pc.snapshot)))
  {
    FinishStore(st, pc);
    FinishKnown(SetScan(st, pc.snapshot.id, Clean), pc);
    ScanRowOk(st, pc, pc.snapshot.id, Clean, ScanEnqueue(pc.file, pc.snapshot));
  }

  function Pass(st: Store, o: ObjectId): Store {
    st.(passed := st.passed + {o})
  }

  /** Writing history first changes nothing about a step. */
  lemma PassedFirst(st: Store, pc: Pc, o: ObjectId, m: Move)
    requires MoveOk(Pass(st, o), pc, m)
    ensures MoveOk(st, pc, m)
  {
  }

  lemma FinishedPassed(st: Store, pc: Pc)
    requires StoreOk(st) && Known(st, pc) && pc.ScanFinish? && !pc.infected
    requires pc.snapshot.id in st.db.scans && st.db.scans[pc.snapshot.id] == Scanning
    ensures var o := pc.snapshot.id;
            MoveOk(st, pc, Move(SetScan(Pass(st, o), o, Clean), ScanEnqueue(pc.file, pc.snapshot)))
  {
    var o := pc.snapshot.id;
    MoreClearedOk(st, Pass(st, o));
    KnownSurvives(st, Pass(st, o), pc);
    FinishedClean(Pass(st, o), pc);
    PassedFirst(st, pc, o, Move(SetScan(Pass(st, o), o, Clean), ScanEnqueue(pc.file, pc.snapshot)));
  }

  lemma FinishOk(st: Store, pc: Pc, infected: Option<bool>)
    requires StoreOk(st) && Known(st, pc) && pc.ScanFinish?
    ensures MoveOk(st, pc, NextScan(st, pc, infected))
  {
    var o := pc.snapshot.id;
    if !(o in st.db.scans && st.db.scans[o] == Scanning) {
      QuietOk(st, pc, Returned);
    } else if pc.infected {
      FinishedInfected(st, pc);
    } else {
      FinishedPassed(st, pc);
    }
  }

  lemma FailOk(st: Store, pc: Pc, infected: Option<bool>)
    requires StoreOk(st) && pc.ScanFail?
    ensures MoveOk(st, pc, NextScan(st, pc, infected))
  {
    var o := pc.snapshot.id;
    if o in st.db.scans && st.db.scans[o] == Scanning {
      SetScanOk(st, o, ScanFailed);
      NothingKnown(SetScan(st, o, ScanFailed));
      ScanRowOk(st, pc, o, ScanFailed, Returned);
    } else {
      QuietOk(st, pc, Returned);
    }
  }

  lemma MoreJobsOk(st: Store, f: FileId)
    requires StoreOk(st) && JobOk(st.db, f)
    ensures StoreOk(st.(thumbJobs := st.thumbJobs + {f})) && Grows(st, st.(thumbJobs := st.thumbJobs + {f}))
  {
  }

  lemma EnqueueOk(st: Store, pc: Pc, infected: Option<bool>)
    requires StoreOk(st) && Known(st, pc) && pc.ScanEnqueue?
    ensures MoveOk(st, pc, NextScan(st, pc, infected))
  {
    if pc.snapshot.id in st.db.previews {
      QuietOk(st, pc, Returned);
    } else {
      assert JobOk(st.db, pc.file);
      MoreJobsOk(st, pc.file);
      LastStepOk(st, pc, st.(thumbJobs := st.thumbJobs + {pc.file}));
    }
  }

  lemma ScanStepOk(st: Store, pc: Pc, infected: Option<bool>)
    requires StoreOk(st) && Known(st, pc) && ScanHeld(st.db, pc) && ScanPc(pc)
    ensures MoveOk(st, pc, NextScan(st, pc, infected))
  {
    if Looking(pc) {
      LookKnown(st, pc, infected);
      QuietOk(st, pc, NextScan(st, pc, infected).pc);
    } else if pc.ScanInsert? {
      InsertOk(st, pc, infected);
    } else if pc.ScanClaim? {
      ClaimOk(st, pc, infected);
    } else if pc.ScanRun? {
      VerdictOk(st, pc, infected);
    } else if pc.ScanFinish? {
      FinishOk(st, pc, infected);
    } else if pc.ScanFail? {
      FailOk(st, pc, infected);
    } else {
      EnqueueOk(st, pc, infected);
    }
  }

  lemma RowKnown(st: Store, f: FileId, row: FileRow)
    requires Leads(st, row.objectId, row.path) && Original(st, row.path)
    requires OwnsFile(st.db, f, row.objectId) && OfObject(st.db, row.objectId, row.path, false)
    ensures Known(st, ReadFind(f, row)) && Known(st, ReadCheck(row.objectId, row.path, false))
    ensures Known(st, PublicPreviewCheck(f, row.objectId))
  {
  }

  /** What a first lookup hands on. */
  lemma LookupKnown(st: Store, f: FileId)
    requires StoreOk(st) && f in st.db.files
    ensures var row := st.db.files[f];
            && Known(st, ReadFind(f, row)) && Known(st, ReadCheck(row.objectId, row.path, false))
            && Known(st, PublicPreviewCheck(f, row.objectId))
  {
    RowLeads(st, f);
    RowKnown(st, f, st.db.files[f]);
  }

  lemma FirstReadShape(st: Store, pc: Pc)
    requires pc.ReadStart? || pc.SharedStart? || pc.PublicPreviewStart?
    ensures var next := NextRead(st, pc);
            next == Returned
            || (pc.file in st.db.files
                && var row := st.db.files[pc.file];
                   next == ReadFind(pc.file, row) || next == ReadCheck(row.objectId, row.path, false)
                   || next == PublicPreviewCheck(pc.file, row.objectId))
  {
  }

  lemma FirstReadKnown(st: Store, pc: Pc)
    requires StoreOk(st) && (pc.ReadStart? || pc.SharedStart? || pc.PublicPreviewStart?)
    ensures Known(st, NextRead(st, pc)) && !InScan(NextRead(st, pc))
  {
    NothingKnown(st);
    FirstReadShape(st, pc);
    if pc.file in st.db.files {
      LookupKnown(st, pc.file);
    }
  }

  lemma ReadFindKnown(st: Store, pc: Pc)
    requires StoreOk(st) && Known(st, pc) && pc.ReadFind?
    ensures Known(st, NextRead(st, pc)) && !InScan(NextRead(st, pc))
  {
    if FindObjectForActiveFile(st.db, pc.file).Some? {
      LookupKnown(st, pc.file);
      RowLeads(st, pc.file);
      assert FileAgrees(st.db.objects, st.db.files[pc.file]);
      assert NextRead(st, pc) == ReadCheck(st.db.files[pc.file].objectId, st.db.files[pc.file].path, false);
    } else {
      NothingKnown(st);
    }
  }

  lemma PreviewStartKnown(st: Store, pc: Pc)
    requires StoreOk(st) && Known(st, pc) && pc.PreviewStart?
    ensures Known(st, NextRead(st, pc)) && !InScan(NextRead(st, pc))
  {
    if pc.file in st.db.files {
      RowLeads(st, pc.file);
    }
  }

  lemma ReadKnown(st: Store, pc: Pc)
    requires StoreOk(st) && Known(st, pc) && ReadPc(pc)
    ensures Known(st, NextRead(st, pc)) && !InScan(NextRead(st, pc))
  {
    if pc.ReadStart? || pc.SharedStart? || pc.PublicPreviewStart? {
      FirstReadKnown(st, pc);
    } else if pc.ReadFind? {
      ReadFindKnown(st, pc);
    } else if pc.PreviewStart? {
      PreviewStartKnown(st, pc);
    }
  }

  lemma ThumbStartKnown(st: Store, pc: Pc)
    requires StoreOk(st) && Known(st, pc) && pc.ThumbStart? && FindObjectForActiveFile(st.db, pc.file).Some?
    ensures Known(st, ThumbFind(FindObjectForActiveFile(st.db, pc.file).value))
  {
    ObjectFound(st, pc.file);
    assert JobOk(st.db, pc.file);
  }

  lemma ThumbNextKnown(st: Store, pc: Pc, image: Option<Content>, newPath: Path)
    requires OriginsOk(st) && Known(st, pc) && (pc.ThumbFind? || pc.ThumbOpen? || pc.Decoding?)
    ensures Known(st, NextThumb(st, pc, image, newPath).pc)
  {
  }

  lemma ThumbKnown(st: Store, pc: Pc, image: Option<Content>, newPath: Path)
    requires StoreOk(st) && Known(st, pc) && (pc.ThumbStart? || pc.ThumbFind? || pc.ThumbOpen? || pc.Decoding?)
    ensures NextThumb(st, pc, image, newPath).store == st
    ensures Known(st, NextThumb(st, pc, image, newPath).pc) && !InScan(NextThumb(st, pc, image, newPath).pc)
  {
    if !pc.ThumbStart? {
      ThumbNextKnown(st, pc, image, newPath);
    } else if FindObjectForActiveFile(st.db, pc.file).Some? {
      ThumbStartKnown(st, pc);
    } else {
      NothingKnown(st);
    }
  }

  /** A path never used before gets bytes and an origin. */
  function NewPathAt(st: Store, path: Path, bytes: Content, origin: Content): Store {
    st.(stored := st.stored[path := bytes], origins := st.origins[path := origin])
  }

  lemma NewPathOrigins(st: Store, path: Path, bytes: Content, origin: Content)
    requires OriginsOk(st) && VerdictsOk(st) && path !in st.origins
    ensures OriginsOk(NewPathAt(st, path, bytes, origin)) && VerdictsOk(NewPathAt(st, path, bytes, origin))
  {
  }

  lemma NewPathOk(st: Store, path: Path, bytes: Content, origin: Content)
    requires StoreOk(st) && path !in st.origins
    ensures StoreOk(NewPathAt(st, path, bytes, origin)) && Grows(st, NewPathAt(st, path, bytes, origin))
  {
    NewPathOrigins(st, path, bytes, origin);
  }

  lemma LosePathOk(st: Store, path: Path)
    requires StoreOk(st)
    ensures var st' := st.(stored := st.stored - {path});
            StoreOk(st') && Grows(st, st')
  {
    var st' := st.(stored := st.stored - {path});
    assert OriginsOk(st');
  }

  lemma ThumbSaveOk(st: Store, pc: Pc, image: Option<Content>, newPath: Path)
    requires StoreOk(st) && Known(st, pc) && pc.ThumbSave?
    ensures MoveOk(st, pc, NextThumb(st, pc, image, newPath))
  {
    var m := NextThumb(st, pc, image, newPath);
    if newPath in st.origins {
      QuietOk(st, pc, pc);
    } else {
      NewPathOk(st, newPath, pc.image, st.origins[pc.snapshot.row.path]);
      KnownSurvives(st, m.store, pc);
      assert Known(m.store, m.pc);
    }
  }

  lemma NewPreviewOrigins(st: Store, o: ObjectId, path: Path)
    requires OriginsOk(st) && o in st.db.objects && SameOrigin(st, path, st.db.objects[o].path)
    ensures OriginsOk(st.(db := st.db.(previews := st.db.previews[o := path])))
  {
  }

  function WithPreview(st: Store, o: ObjectId, path: Path): Store {
    st.(db := st.db.(previews := st.db.previews[o := path]))
  }

  lemma NewPreviewGrows(st: Store, o: ObjectId, path: Path)
    requires o !in st.db.previews
    ensures Grows(st, WithPreview(st, o, path))
  {
  }

  lemma NewPreviewGate(db: Database, o: ObjectId, path: Path)
    requires GateDbOk(db) && o in db.objects
    ensures GateDbOk(db.(previews := db.previews[o := path]))
  {
  }

  lemma NewPreviewOk(st: Store, o: ObjectId, path: Path)
    requires StoreOk(st) && o in st.db.objects && o !in st.db.previews && SameOrigin(st, path, st.db.objects[o].path)
    ensures StoreOk(WithPreview(st, o, path)) && Grows(st, WithPreview(st, o, path))
  {
    NewPreviewOrigins(st, o, path);
    NewPreviewGrows(st, o, path);
    NewPreviewGate(st.db, o, path);
    JobsSurvive(st, WithPreview(st, o, path));
  }

  lemma LastStepOk(st: Store, pc: Pc, st': Store)
    requires StoreOk(st') && Grows(st, st') && st'.db.scans == st.db.scans
    ensures MoveOk(st, pc, Move(st', Returned))
  {
    NothingKnown(st');
  }

  lemma ThumbLinked(st: Store, pc: Pc)
    requires StoreOk(st) && Known(st, pc) && pc.ThumbInsert?
    requires pc.snapshot.id in st.db.objects && pc.snapshot.id !in st.db.previews
    ensures MoveOk(st, pc, Move(WithPreview(st, pc.snapshot.id, pc.path), Returned))
  {
    assert SameOrigin(st, pc.path, st.db.objects[pc.snapshot.id].path);
    NewPreviewOk(st, pc.snapshot.id, pc.path);
    LastStepOk(st, pc, WithPreview(st, pc.snapshot.id, pc.path));
  }

  lemma ThumbDropped(st: Store, pc: Pc)
    requires StoreOk(st) && pc.ThumbInsert?
    ensures MoveOk(st, pc, Move(st.(stored := st.stored - {pc.path}), Returned))
  {
    LosePathOk(st, pc.path);
    LastStepOk(st, pc, st.(stored := st.stored - {pc.path}));
  }

  lemma ThumbInsertOk(st: Store, pc: Pc, image: Option<Content>, newPath: Path)
    requires StoreOk(st) && Known(st, pc) && pc.ThumbInsert?
    ensures MoveOk(st, pc, NextThumb(st, pc, image, newPath))
  {
    if pc.snapshot.id in st.db.objects && pc.snapshot.id !in st.db.previews {
      ThumbLinked(st, pc);
      assert NextThumb(st, pc, image, newPath) == Move(WithPreview(st, pc.snapshot.id, pc.path), Returned);
    } else {
      ThumbDropped(st, pc);
      assert NextThumb(st, pc, image, newPath) == Move(st.(stored := st.stored - {pc.path}), Returned);
    }
  }

  lemma NextOk(st: Store, pc: Pc, e: Event)
    requires StoreOk(st) && Known(st, pc) && ScanHeld(st.db, pc) && e.Advance?
    ensures MoveOk(st, pc, Next(st, pc, e))
  {
    if ScanPc(pc) {
      ScanStepOk(st, pc, e.infected);
    } else if ReadPc(pc) {
      ReadKnown(st, pc);
      QuietOk(st, pc, NextRead(st, pc));
    } else if pc.ThumbSave? {
      ThumbSaveOk(st, pc, e.image, e.newPath);
    } else if pc.ThumbInsert? {
      ThumbInsertOk(st, pc, e.image, e.newPath);
    } else if ThumbPc(pc) {
      ThumbKnown(st, pc, e.image, e.newPath);
      QuietOk(st, pc, NextThumb(st, pc, e.image, e.newPath).pc);
    } else {
      QuietOk(st, pc, Returned);
    }
  }

  // ---- the other services ----

  ghost predicate EnvOk(st: Store, st': Store) {
    StoreOk(st') && Grows(st, st') && ScansOnlyOwn(st.db, st'.db, Returned)
  }

  /** Tables with no new object, preview or scan, in which scans go with objects. */
  ghost predicate Shrinks(db: Database, db': Database) {
    && (forall o :: o in db'.objects ==> o in db.objects)
    && (forall o :: o in db'.previews <==> o in db.previews && o in db'.objects)
    && (forall o :: o in db'.previews ==> db'.previews[o] == db.previews[o])
    && (forall o :: o in db'.scans <==> o in db.scans && o in db'.objects)
    && (forall o :: o in db'.scans ==> db'.scans[o] == db.scans[o])
  }

  lemma ShrinkOrigins(st: Store, db': Database)
    requires OriginsOk(st) && DbGrows(st.db, db') && Shrinks(st.db, db')
    ensures OriginsOk(st.(db := db'))
  {
  }

  lemma ShrinkVerdicts(st: Store, db': Database)
    requires VerdictsOk(st) && DbGrows(st.db, db') && Shrinks(st.db, db')
    ensures VerdictsOk(st.(db := db'))
  {
  }

  lemma ShrinkScans(st: Store, db': Database)
    requires Shrinks(st.db, db') && DbGrows(st.db, db')
    ensures Grows(st, st.(db := db')) && ScansOnlyOwn(st.db, db', Returned)
  {
  }

  lemma ShrinkOk(st: Store, db': Database)
    requires StoreOk(st) && DbGrows(st.db, db') && Shrinks(st.db, db')
    requires IdsOk(db'.objects, db'.nextObject) && FilesOk(db'.objects, db'.files, db'.nextFile)
    requires CountsOk(db'.objects, db'.files)
    ensures EnvOk(st, st.(db := db'))
  {
    ShrinkOrigins(st, db');
    ShrinkVerdicts(st, db');
    ShrinkScans(st, db');
    JobsSurvive(st, st.(db := db'));
  }

  lemma LinkRows(db: Database, user: UserId, parent: Option<FolderId>, name: string, o: ObjectId)
    requires IdsOk(db.objects, db.nextObject) && o in db.objects
    requires AddReference(db, user, parent, name, Snapshot(o, db.objects[o])).Ok?
    requires forall f :: f in db.files ==> f < db.nextFile
    requires forall x :: x in db.previews || x in db.scans ==> x in db.objects
    ensures var db' := AddReference(db, user, parent, name, Snapshot(o, db.objects[o])).value;
            DbGrows(db, db') && Shrinks(db, db') && IdsOk(db'.objects, db'.nextObject)
  {
  }

  lemma LinkTables(db: Database, user: UserId, parent: Option<FolderId>, name: string, o: ObjectId)
    requires GateDbOk(db) && o in db.objects && AddReference(db, user, parent, name, Snapshot(o, db.objects[o])).Ok?
    ensures var db' := AddReference(db, user, parent, name, Snapshot(o, db.objects[o])).value;
            && DbGrows(db, db') && Shrinks(db, db') && IdsOk(db'.objects, db'.nextObject)
            && FilesOk(db'.objects, db'.files, db'.nextFile) && CountsOk(db'.objects, db'.files)
  {
    LinkRows(db, user, parent, name, o);
    OneMoreReference(db.objects, db.files, db.nextFile, NewFile(user, parent, name, Snapshot(o, db.objects[o])));
  }

  lemma LinkOk(st: Store, user: UserId, parent: Option<FolderId>, name: string, o: ObjectId)
    requires StoreOk(st) && o in st.db.objects
    requires AddReference(st.db, user, parent, name, Snapshot(o, st.db.objects[o])).Ok?
    ensures EnvOk(st, st.(db := AddReference(st.db, user, parent, name, Snapshot(o, st.db.objects[o])).value))
  {
    LinkTables(st.db, user, parent, name, o);
    ShrinkOk(st, AddReference(st.db, user, parent, name, Snapshot(o, st.db.objects[o])).value);
  }

  lemma FileStatusOk(st: Store, db': Database, f: FileId)
    requires StoreOk(st) && f in st.db.files && f in db'.files
    requires db' == st.db.(files := st.db.files[f := db'.files[f]], shares := db'.shares,
               collections := db'.collections)
    requires db'.files[f] == st.db.files[f].(status := db'.files[f].status, deletedAt := db'.files[f].deletedAt)
    ensures EnvOk(st, st.(db := db'))
  {
    UpdateFileKeeps(st.db.objects, st.db.files, st.db.nextFile, f, db'.files[f]);
    ShrinkOk(st, db');
  }

  lemma PurgeTables(db: Database, user: UserId, f: FileId)
    requires IdsOk(db.objects, db.nextObject) && PurgeDeleted(db, user, f).Ok?
    requires forall o :: o in db.previews || o in db.scans ==> o in db.objects
    ensures var db' := PurgeDeleted(db, user, f).value.db;
            DbGrows(db, db') && Shrinks(db, db') && IdsOk(db'.objects, db'.nextObject)
  {
  }

  lemma PurgeOk(st: Store, user: UserId, f: FileId)
    requires StoreOk(st) && PurgeDeleted(st.db, user, f).Ok?
    ensures EnvOk(st, st.(db := PurgeDeleted(st.db, user, f).value.db))
  {
    var db' := PurgeDeleted(st.db, user, f).value.db;
    PurgeTables(st.db, user, f);
    OneLessReference(st.db.objects, st.db.files, st.db.nextFile, f, db'.objects);
    ShrinkOk(st, db');
  }

  lemma NewObjectTables(db: Database, row: ObjectRow)
    requires GateDbOk(db) && row.refs == 0
    ensures GateDbOk(db.(objects := db.objects[db.nextObject := row], nextObject := db.nextObject + 1))
  {
    NewRowUnreferenced(db.objects, db.files, db.nextObject, db.nextFile, row);
  }

  function AddObject(st: Store, row: ObjectRow): Store {
    st.(db := st.db.(objects := st.db.objects[st.db.nextObject := row], nextObject := st.db.nextObject + 1))
  }

  lemma NewObjectRows(st: Store, row: ObjectRow)
    requires IdsOk(st.db.objects, st.db.nextObject) && OriginsOk(st) && VerdictsOk(st) && Original(st, row.path)
    requires forall o :: o in st.db.previews || o in st.db.scans ==> o in st.db.objects
    ensures OriginsOk(AddObject(st, row)) && VerdictsOk(AddObject(st, row)) && Grows(st, AddObject(st, row))
  {
  }

  lemma NewObjectOk(st: Store, row: ObjectRow)
    requires StoreOk(st) && row.refs == 0 && Original(st, row.path)
    ensures StoreOk(AddObject(st, row)) && Grows(st, AddObject(st, row))
  {
    NewObjectTables(st.db, row);
    NewObjectRows(st, row);
    JobsSurvive(st, AddObject(st, row));
  }

  lemma GrowsOn(st0: Store, st1: Store, st2: Store)
    requires Grows(st0, st1) && Grows(st1, st2) && st0.db == st1.db && st2.db.scans == st0.db.scans && StoreOk(st2)
    requires st2 == st1.(db := st2.db)
    ensures EnvOk(st0, st2)
  {
  }

  lemma UploadOk(st: Store, row: ObjectRow, content: Content)
    requires StoreOk(st) && row.refs == 0 && row.path !in st.origins
    ensures EnvOk(st, AddObject(NewPathAt(st, row.path, content, content), row))
  {
    NewPathOk(st, row.path, content, content);
    NewObjectOk(NewPathAt(st, row.path, content, content), row);
    GrowsOn(st, NewPathAt(st, row.path, content, content), AddObject(NewPathAt(st, row.path, content, content), row));
  }

  lemma PendOk(st: Store, o: ObjectId)
    requires StoreOk(st) && o in st.db.objects && o !in st.db.scans
    ensures EnvOk(st, SetScan(st, o, Pending))
  {
    SetScanOk(st, o, Pending);
  }

  lemma LoseOk(st: Store, path: Path)
    requires StoreOk(st)
    ensures EnvOk(st, st.(stored := st.stored - {path}))
  {
    LosePathOk(st, path);
  }

  lemma SameOk(st: Store)
    requires StoreOk(st)
    ensures EnvOk(st, st)
  {
  }

  lemma FileEventOk(st: Store, e: Event)
    requires StoreOk(st) && (e.LinkFile? || e.Trash? || e.Untrash? || e.Purge?)
    ensures EnvOk(st, NextStore(st, e))
  {
    SameOk(st);
    match e
    case LinkFile(user, parent, name, o) =>
      if o in st.db.objects && AddReference(st.db, user, parent, name, Snapshot(o, st.db.objects[o])).Ok? {
        LinkOk(st, user, parent, name, o);
      }
    case Trash(user, f, keepShares, now) =>
      if SoftDelete(st.db, user, f, keepShares, now).Ok? {
        FileStatusOk(st, SoftDelete(st.db, user, f, keepShares, now).value, f);
      }
    case Untrash(user, f) =>
      if Restore(st.db, user, f).Ok? {
        FileStatusOk(st, Restore(st.db, user, f).value, f);
      }
    case Purge(user, f) =>
      if PurgeDeleted(st.db, user, f).Ok? {
        PurgeOk(st, user, f);
      }
  }

  predicate TakesEffect(st: Store, e: Event) {
    && (e.NewObject? ==> e.path !in st.origins && forall o :: o in st.db.objects ==> st.db.objects[o].hash != e.hash)
    && (e.Pend? ==> e.objectId in st.db.objects && e.objectId !in st.db.scans)
  }

  lemma StoreEvents(st: Store, e: Event)
    requires e.NewObject? || e.Pend? || e.Erase?
    ensures !TakesEffect(st, e) ==> NextStore(st, e) == st
    ensures TakesEffect(st, e) ==>
              NextStore(st, e) == if e.NewObject?
                                    then AddObject(NewPathAt(st, e.path, e.content, e.content),
                                        ObjectRow(e.hash, e.path, |e.content|, e.contentType, 0))
                                  else if e.Pend? then SetScan(st, e.objectId, Pending)
                                  else st.(stored := st.stored - {e.path})
  {
  }

  lemma NextStoreOk(st: Store, e: Event)
    requires StoreOk(st)
    ensures EnvOk(st, NextStore(st, e))
  {
    if e.NewObject? || e.Pend? || e.Erase? {
      StoreEvents(st, e);
      if !TakesEffect(st, e) {
        SameOk(st);
      } else if e.NewObject? {
        UploadOk(st, ObjectRow(e.hash, e.path, |e.content|, e.contentType, 0), e.content);
      } else if e.Pend? {
        PendOk(st, e.objectId);
      } else {
        LoseOk(st, e.path);
      }
    } else if e.LinkFile? || e.Trash? || e.Untrash? || e.Purge? {
      FileEventOk(st, e);
    } else {
      SameOk(st);
    }
  }

  // ---- whole runs ----

  lemma StaysApart(st: Store, pc: Pc, m: Move, other: Pc)
    requires VerdictsOk(st) && GateDbOk(st.db) && MoveOk(st, pc, m) && Apart(pc, other) && ScanHeld(st.db, other)
    ensures Apart(m.pc, other)
  {
  }

  lemma AdvanceKeepsInv(s: State, c: CallId, m: Move)
    requires Inv(s) && c in s.calls && MoveOk(s.store, s.calls[c], m)
    ensures Inv(State(m.store, s.calls[c := m.pc]))
  {
    forall d | d in s.calls && d != c
      ensures Known(m.store, s.calls[d]) && ScanHeld(m.store.db, s.calls[d]) && Apart(m.pc, s.calls[d])
    {
      assert Apart(s.calls[c], s.calls[d]);
      KnownSurvives(s.store, m.store, s.calls[d]);
      HeldSurvives(s.store.db, m.store.db, s.calls[c], s.calls[d]);
      StaysApart(s.store, s.calls[c], m, s.calls[d]);
    }
  }

  lemma EnvKeepsInv(s: State, st': Store)
    requires Inv(s) && EnvOk(s.store, st')
    ensures Inv(s.(store := st'))
  {
    forall d | d in s.calls
      ensures Known(st', s.calls[d]) && ScanHeld(st'.db, s.calls[d])
    {
      KnownSurvives(s.store, st', s.calls[d]);
      HeldSurvives(s.store.db, st'.db, Returned, s.calls[d]);
    }
  }

  lemma StepKeepsInv(s: State, e: Event)
    requires Inv(s)
    ensures Inv(Step(s, e))
  {
    if e.Arrive? {
    } else if e.Advance? {
      if e.call in s.calls {
        NextOk(s.store, s.calls[e.call], e);
        AdvanceKeepsInv(s, e.call, Next(s.store, s.calls[e.call], e));
      }
    } else {
      NextStoreOk(s.store, e);
      EnvKeepsInv(s, NextStore(s.store, e));
    }
  }

  lemma {:induction false} RunKeepsInv(s: State, events: seq<Event>)
    requires Inv(s)
    ensures Inv(Run(s, events))
    decreases |events|
  {
    if events != [] {
      RunKeepsInv(s, events[..|events| - 1]);
      StepKeepsInv(Run(s, events[..|events| - 1]), events[|events| - 1]);
    }
  }

  lemma InitHasInv(users: map<UserId, int>)
    ensures Inv(Init(users))
  {
  }

  // ---- what follows ----

  /** Whoever reads, privately or by share, reads the bytes of an object that a scan
      has found clean and that is still clean if it still lives, although it may
      have been trashed or deleted between the check and the open. The bytes are
      content a scan has cleared, or a thumbnail of such content. */
  lemma OnlyCleanObjectsAreRead(users: map<UserId, int>, events: seq<Event>, c: CallId)
    requires c in Run(Init(users), events).calls
    requires var pc := Run(Init(users), events).calls[c]; pc.ReadOpen? || pc.Reading?
    ensures var st, pc := Run(Init(users), events).store, Run(Init(users), events).calls[c];
            && IsClean(st, pc.objectId) && OfObject(st.db, pc.objectId, pc.path, pc.preview)
            && IsCleared(st, pc.path)
            && (pc.Reading? && !pc.preview ==> pc.content in st.cleared)
  {
    InitHasInv(users);
    RunKeepsInv(Init(users), events);
  }

  /** A thumbnail job opens, decodes and links nothing but such an object. */
  lemma OnlyCleanObjectsAreDecoded(users: map<UserId, int>, events: seq<Event>, c: CallId)
    requires c in Run(Init(users), events).calls
    requires var pc := Run(Init(users), events).calls[c]; ThumbPc(pc) && !pc.ThumbStart?
    ensures var st, pc := Run(Init(users), events).store, Run(Init(users), events).calls[c];
            && IsClean(st, pc.snapshot.id) && OfObject(st.db, pc.snapshot.id, pc.snapshot.row.path, false)
            && IsCleared(st, pc.snapshot.row.path)
            && (pc.Decoding? ==> pc.content in st.cleared)
  {
    InitHasInv(users);
    RunKeepsInv(Init(users), events);
  }

  /** At most one scan of an object is under way, and its row says so. */
  lemma OneScanAtATime(users: map<UserId, int>, events: seq<Event>, c: CallId, d: CallId)
    requires var calls := Run(Init(users), events).calls;
             c in calls && d in calls && InScan(calls[c]) && InScan(calls[d])
    ensures var s := Run(Init(users), events);
            && (s.calls[c].snapshot.id == s.calls[d].snapshot.id ==> c == d)
            && (s.calls[c].snapshot.id in s.store.db.objects ==>
                  s.calls[c].snapshot.id in s.store.db.scans && s.store.db.scans[s.calls[c].snapshot.id] == Scanning)
  {
    InitHasInv(users);
    RunKeepsInv(Init(users), events);
    var s := Run(Init(users), events);
    if c != d {
      assert Apart(s.calls[c], s.calls[d]);
    }
    assert ScanHeld(s.store.db, s.calls[c]);
  }

  lemma StepGrows(s: State, e: Event)
    requires Inv(s)
    ensures Grows(s.store, Step(s, e).store)
  {
    if e.Advance? {
      if e.call in s.calls {
        NextOk(s.store, s.calls[e.call], e);
      }
    } else if !e.Arrive? {
      NextStoreOk(s.store, e);
    }
  }

  /** clean and infected are final: whatever happens, the row keeps its verdict
      for as long as the object lives, and the verdict is the scanner's. */
  lemma {:induction false} VerdictsAreFinal(s: State, events: seq<Event>, o: ObjectId)
    requires Inv(s) && o in s.store.db.scans && (s.store.db.scans[o] == Clean || s.store.db.scans[o] == Infected)
    requires o in Run(s, events).store.db.objects
    ensures var s' := Run(s, events);
            && o in s'.store.db.scans && s'.store.db.scans[o] == s.store.db.scans[o]
            && (s.store.db.scans[o] == Clean ==> IsCleared(s'.store, s'.store.db.objects[o].path))
            && (s.store.db.scans[o] == Infected ==> IsFlagged(s'.store, s'.store.db.objects[o].path))
    decreases |events|
  {
    RunKeepsInv(s, events);
    if events != [] {
      var before := Run(s, events[..|events| - 1]);
      RunKeepsInv(s, events[..|events| - 1]);
      StepGrows(before, events[|events| - 1]);
      IdsOnlyGrow(s, events[..|events| - 1]);
      assert o < s.store.db.nextObject;
      VerdictsAreFinal(s, events[..|events| - 1], o);
    }
  }

  lemma {:induction false} IdsOnlyGrow(s: State, events: seq<Event>)
    requires Inv(s)
    ensures s.store.db.nextObject <= Run(s, events).store.db.nextObject
    decreases |events|
  {
    if events != [] {
      IdsOnlyGrow(s, events[..|events| - 1]);
      RunKeepsInv(s, events[..|events| - 1]);
      StepGrows(Run(s, events[..|events| - 1]), events[|events| - 1]);
    }
  }
}
