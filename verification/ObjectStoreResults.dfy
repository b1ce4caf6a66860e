/** What the invariant of ObjectStoreProofs means for users of the object store. */
module ObjectStoreResults {
  import opened Options
  import opened Chunking
  import opened Tables
  import opened References
  import opened ObjectStore
  import opened ObjectStoreProofs

  ghost predicate Reachable(hash: Content -> Digest, s: State) {
    exists users, events :: s == Run(hash, Init(users), events)
  }

  lemma ReachableInv(hash: Content -> Digest, s: State)
    requires Reachable(hash, s)
    ensures Inv(hash, s)
  {
    var users, events :| s == Run(hash, Init(users), events);
    InitHasInv(hash, users);
    RunKeepsInv(hash, Init(users), events);
  }

  /** No live file loses its bytes, however its delete races uploads of the same
      content, and what is stored for it has the recorded hash and size: a
      verification job never reports a mismatch. */
  lemma LiveFilesKeepTheirBytes(hash: Content -> Digest, s: State, f: FileId)
    requires Reachable(hash, s) && f in s.store.db.files
    ensures var file := s.store.db.files[f];
            && file.objectId in s.store.db.objects
            && file.path in s.store.stored
            && hash(s.store.stored[file.path]) == s.store.db.objects[file.objectId].hash
            && |s.store.stored[file.path]| == file.size
  {
    ReachableInv(hash, s);
    assert FileAgrees(s.store.db.objects, s.store.db.files[f]);
  }

  /** Every object's count is the number of files on it, in every reachable state. */
  lemma CountsAreExact(hash: Content -> Digest, s: State, o: ObjectId)
    requires Reachable(hash, s) && o in s.store.db.objects
    ensures s.store.db.objects[o].refs == |RefSet(s.store.db.files, o)|
  {
    ReachableInv(hash, s);
  }

  /** Rows are always backed by storage, and storage by rows or calls in flight. */
  lemma StoredIsNamedOrHeld(hash: Content -> Digest, s: State)
    requires Reachable(hash, s)
    ensures Rows(s.store) <= s.store.stored.Keys
    ensures forall p :: p in s.store.stored && p !in Rows(s.store) ==> exists c :: c in s.calls && p in Held(s.calls[c])
  {
    ReachableInv(hash, s);
    RowsStored(hash, s.store);
  }

  /** Once all calls have returned, storage holds exactly what the rows name:
      nothing lost and nothing leaked. */
  lemma NothingLeaksAtRest(hash: Content -> Digest, s: State)
    requires Reachable(hash, s) && forall c :: c in s.calls ==> s.calls[c].Returned?
    ensures s.store.stored.Keys == Rows(s.store)
  {
    StoredIsNamedOrHeld(hash, s);
  }

  // ---- every call ends ----

  /** How many of its own steps a call has left at most. */
  function StepsLeft(pc: Pc): nat {
    match pc
    case UploadStart(_) => 9
    case UploadSave(_) => 8
    case UploadQuota(_, _) => 7
    case UploadFind(_, _) => 6
    case UploadInsert(_, _) => 5
    case UploadSelect(_, _) => 4
    case UploadFindAgain(_, _, _) => 3
    case UploadDrop(_, _, _, _) => 2
    case Discard(_, _) => 1
    case Link(_, _, _, _) => 1
    case InstantStart(_, _, _, _) => 4
    case InstantFind(_, _, _, _) => 3
    case InstantQuota(_, _, _, _) => 2
    case BatchFind(_, _, todo, _) => |todo| + 2
    case BatchLink(_, _, _) => 1
    case PurgeStart(_, _) => 3
    case RemoveObject(_, _) => 2
    case RemovePreview(_) => 1
    case ThumbnailStart(_) => 6
    case ThumbnailFind(_) => 5
    case ThumbnailOpen(_) => 4
    case ThumbnailSave(_, _) => 3
    case ThumbnailInsert(_, _) => 2
    case Returned => 0
  }

  lemma DbStepsEnd(hash: Content -> Digest, st: Store, pc: Pc)
    requires DbPc(pc)
    ensures StepsLeft(NextDb(hash, st, pc).pc) < StepsLeft(pc)
  {
  }

  lemma ReadStepsEnd(hash: Content -> Digest, st: Store, pc: Pc, image: Option<Content>)
    requires !pc.Returned? && !SavePc(pc) && !ErasePc(pc) && !DbPc(pc)
    ensures StepsLeft(NextRead(hash, st, pc, image)) < StepsLeft(pc)
  {
  }

  /** No step waits for another call: every call returns after a number of its
      own steps fixed when it starts, whatever the others do meanwhile. */
  lemma CallsEnd(hash: Content -> Digest, st: Store, pc: Pc, newPath: Path, image: Option<Content>, tolerant: bool)
    requires !pc.Returned? && newPath !in st.used
    ensures StepsLeft(Next(hash, st, pc, newPath, image, tolerant).pc) < StepsLeft(pc)
  {
    if DbPc(pc) {
      DbStepsEnd(hash, st, pc);
    } else if !SavePc(pc) && !ErasePc(pc) {
      ReadStepsEnd(hash, st, pc, image);
    }
  }

  // ---- exactly what is stored, statement by statement ----

  /** The stored paths are exactly the row paths and the paths calls hold. */
  ghost predicate StoredExactly(s: State) {
    forall p :: p in s.store.stored <==> p in Rows(s.store) || exists c :: c in s.calls && p in Held(s.calls[c])
  }

  /** An upload is about to delete a file it gave to an object row that was
      dropped before the upload could read it back: CreateFileObject inserts and
      selects in two statements. */
  ghost predicate TakesBack(s: State, e: Event) {
    && e.Advance? && e.call in s.calls
    && var pc := s.calls[e.call];
       (pc.UploadDrop? || pc.Discard?) && pc.given && pc.path in s.store.stored
  }

  ghost predicate HeldStored(s: State) {
    forall c :: c in s.calls ==> Held(s.calls[c]) <= s.store.stored.Keys
  }

  lemma ExactMeansHeldStored(hash: Content -> Digest, s: State)
    requires Inv(hash, s)
    ensures StoredExactly(s) <==> HeldStored(s)
  {
    RowsStored(hash, s.store);
    if StoredExactly(s) {
      forall c, p | c in s.calls && p in Held(s.calls[c])
        ensures p in s.store.stored
      {
      }
    }
  }

  lemma GrowingStepKeeps(v: View, pc: Pc, v': View, pc': Pc, f: Effect)
    requires ViewEffect(v, pc, v', f) && PcEffect(pc, pc', f) && v.rows <= v.stored <= v'.stored && Held(pc) <= v.stored
    ensures Held(pc') <= v'.stored
  {
  }

  lemma StoredGrows(hash: Content -> Digest, st: Store, pc: Pc, newPath: Path, image: Option<Content>, tolerant: bool)
    requires !ErasePc(pc)
    ensures st.stored.Keys <= Next(hash, st, pc, newPath, image, tolerant).store.stored.Keys
  {
  }

  lemma EraseOwn(st: Store, pc: Pc, tolerant: bool)
    requires ErasePc(pc) && PathsHeldOk(ViewOf(st), pc) && Held(pc) <= st.stored.Keys
    ensures Held(NextErase(st, pc, tolerant).pc) <= st.stored.Keys - {pc.path}
  {
  }

  lemma EraseOther(stored: set<Path>, pc: Pc, other: Pc)
    requires ErasePc(pc) && ApartFrom(pc, other) && Held(other) <= stored
    requires (pc.UploadDrop? || pc.Discard?) && pc.given ==> pc.path !in stored
    ensures Held(other) <= stored - {pc.path}
  {
  }

  /** Only another call can still hold a path this one gave away. */
  lemma SomeoneHolds(hash: Content -> Digest, s: State, e: Event) returns (d: CallId)
    requires Inv(hash, s) && TakesBack(s, e)
    ensures d in s.calls && d != e.call && s.calls[e.call].path in Held(s.calls[d])
  {
    var pc := s.calls[e.call];
    assert PathsHeldOk(ViewOf(s.store), pc) && pc.path in Given(pc);
    d :| d in s.calls && pc.path in Held(s.calls[d]);
  }

  lemma TakenBack(hash: Content -> Digest, s: State, e: Event, m: Move)
    requires Inv(hash, s) && TakesBack(s, e) && m.store.stored == s.store.stored - {s.calls[e.call].path}
    ensures !HeldStored(State(m.store, s.calls[e.call := m.pc]))
  {
    var d := SomeoneHolds(hash, s, e);
    var s' := State(m.store, s.calls[e.call := m.pc]);
    assert s.calls[e.call].path in Held(s'.calls[d]) && s.calls[e.call].path !in s'.store.stored;
  }

  lemma EraseKeepsExactness(hash: Content -> Digest, s: State, e: Event, m: Move)
    requires Inv(hash, s) && HeldStored(s) && e.Advance? && e.call in s.calls && ErasePc(s.calls[e.call])
    requires !TakesBack(s, e)
    requires m == NextErase(s.store, s.calls[e.call], e.tolerant)
    ensures HeldStored(State(m.store, s.calls[e.call := m.pc]))
  {
    var s' := State(m.store, s.calls[e.call := m.pc]);
    forall d | d in s'.calls
      ensures Held(s'.calls[d]) <= s'.store.stored.Keys
    {
      if d == e.call {
        EraseOwn(s.store, s.calls[d], e.tolerant);
      } else {
        EraseOther(s.store.stored.Keys, s.calls[e.call], s.calls[d]);
      }
    }
  }

  lemma GrowKeepsExactness(hash: Content -> Digest, s: State, e: Event)
    requires Inv(hash, s) && HeldStored(s) && e.Advance? && e.call in s.calls && !ErasePc(s.calls[e.call])
    ensures HeldStored(Step(hash, s, e))
  {
    var pc := s.calls[e.call];
    var m := Next(hash, s.store, pc, e.newPath, e.image, e.tolerant);
    var f := NextOk(hash, s.store, pc, e.newPath, e.image, e.tolerant);
    RowsStored(hash, s.store);
    StoredGrows(hash, s.store, pc, e.newPath, e.image, e.tolerant);
    GrowingStepKeeps(ViewOf(s.store), pc, ViewOf(m.store), m.pc, f);
  }

  lemma OthersKeepExactness(hash: Content -> Digest, s: State, e: Event)
    requires HeldStored(s) && !(e.Advance? && e.call in s.calls)
    ensures HeldStored(Step(hash, s, e))
  {
    if e.Arrive? && FirstPc(e.first) {
      FirstPcOk(hash, s.store, e.first);
    }
  }

  lemma StepErases(hash: Content -> Digest, s: State, e: Event)
    requires e.Advance? && e.call in s.calls && ErasePc(s.calls[e.call])
    ensures var m := NextErase(s.store, s.calls[e.call], e.tolerant);
            Step(hash, s, e) == State(m.store, s.calls[e.call := m.pc])
  {
  }

  lemma HeldStoredUnlessTakenBack(hash: Content -> Digest, s: State, e: Event)
    requires Inv(hash, s) && HeldStored(s)
    ensures HeldStored(Step(hash, s, e)) <==> !TakesBack(s, e)
  {
    if !(e.Advance? && e.call in s.calls) {
      OthersKeepExactness(hash, s, e);
    } else if ErasePc(s.calls[e.call]) {
      StepErases(hash, s, e);
      if TakesBack(s, e) {
        TakenBack(hash, s, e, NextErase(s.store, s.calls[e.call], e.tolerant));
      } else {
        EraseKeepsExactness(hash, s, e, NextErase(s.store, s.calls[e.call], e.tolerant));
      }
    } else {
      GrowKeepsExactness(hash, s, e);
    }
  }

  /** From an exact state a step keeps storage exact if and only if it is not
      such a late deletion. Even that one loses nothing: the path it deletes is
      one a permanent delete was about to delete. */
  lemma ExactUnlessTakenBack(hash: Content -> Digest, s: State, e: Event)
    requires Inv(hash, s) && StoredExactly(s)
    ensures StoredExactly(Step(hash, s, e)) <==> !TakesBack(s, e)
  {
    StepKeepsInv(hash, s, e);
    ExactMeansHeldStored(hash, s);
    ExactMeansHeldStored(hash, Step(hash, s, e));
    HeldStoredUnlessTakenBack(hash, s, e);
  }

  /** The state after the first i events of a run. */
  ghost function At(hash: Content -> Digest, s: State, events: seq<Event>, i: nat): State
    requires i <= |events|
  {
    Run(hash, s, events[..i])
  }

  ghost predicate AlwaysExact(hash: Content -> Digest, s: State, events: seq<Event>) {
    forall i :: 0 <= i <= |events| ==> StoredExactly(At(hash, s, events, i))
  }

  ghost predicate NeverTakesBack(hash: Content -> Digest, s: State, events: seq<Event>) {
    forall i :: 0 <= i < |events| ==> !TakesBack(At(hash, s, events, i), events[i])
  }

  lemma PrefixOfPrefix(hash: Content -> Digest, s: State, events: seq<Event>, n: nat, i: nat)
    requires i <= n <= |events|
    ensures At(hash, s, events[..n], i) == At(hash, s, events, i)
  {
    assert events[..n][..i] == events[..i];
  }

  lemma OneMoreEvent(hash: Content -> Digest, s: State, events: seq<Event>, n: nat)
    requires n == |events| - 1
    ensures At(hash, s, events, n + 1) == Step(hash, At(hash, s, events, n), events[n])
  {
    assert events[..n + 1] == events;
  }

  lemma ExactSoFar(hash: Content -> Digest, s: State, events: seq<Event>, n: nat)
    requires n == |events| - 1
    ensures AlwaysExact(hash, s, events)
       <==> AlwaysExact(hash, s, events[..n]) && StoredExactly(At(hash, s, events, n + 1))
  {
    forall i | 0 <= i <= n
      ensures At(hash, s, events[..n], i) == At(hash, s, events, i)
    {
      PrefixOfPrefix(hash, s, events, n, i);
    }
  }

  lemma NotTakenBackSoFar(hash: Content -> Digest, s: State, events: seq<Event>, n: nat)
    requires n == |events| - 1
    ensures NeverTakesBack(hash, s, events)
       <==> NeverTakesBack(hash, s, events[..n]) && !TakesBack(At(hash, s, events, n), events[n])
  {
    forall i | 0 <= i <= n
      ensures At(hash, s, events[..n], i) == At(hash, s, events, i)
    {
      PrefixOfPrefix(hash, s, events, n, i);
    }
  }

  lemma {:induction false} RunExactUnlessTakenBack(hash: Content -> Digest, s: State, events: seq<Event>)
    requires Inv(hash, s) && StoredExactly(s)
    ensures AlwaysExact(hash, s, events) <==> NeverTakesBack(hash, s, events)
    decreases |events|
  {
    if events == [] {
      assert At(hash, s, events, 0) == s;
    } else {
      var n := |events| - 1;
      RunExactUnlessTakenBack(hash, s, events[..n]);
      ExactSoFar(hash, s, events, n);
      NotTakenBackSoFar(hash, s, events, n);
      PrefixOfPrefix(hash, s, events, n, n);
      if AlwaysExact(hash, s, events[..n]) {
        assert StoredExactly(At(hash, s, events[..n], n));
        RunKeepsInv(hash, s, events[..n]);
        OneMoreEvent(hash, s, events, n);
        ExactUnlessTakenBack(hash, At(hash, s, events, n), events[n]);
      }
    }
  }

  /** Over a whole run from empty tables, storage is exact at every moment if and
      only if no event of the run is such a late deletion. */
  lemma ExactIffNeverTakenBack(hash: Content -> Digest, users: map<UserId, int>, events: seq<Event>)
    ensures AlwaysExact(hash, Init(users), events) <==> NeverTakesBack(hash, Init(users), events)
  {
    InitHasInv(hash, users);
    RunExactUnlessTakenBack(hash, Init(users), events);
  }

  // ---- a run in which storage is not exact ----

  const REQUEST := Request(1, None, "name", "type", [])

  function Alone(c: CallId, newPath: Path): Event {
    Advance(c, newPath, None, true)
  }

  lemma Onward(hash: Content -> Digest, s: State, e: Event)
    requires Reachable(hash, s)
    ensures Reachable(hash, Step(hash, s, e))
  {
    var users, events :| s == Run(hash, Init(users), events);
    assert (events + [e])[..|events|] == events;
    assert Step(hash, s, e) == Run(hash, Init(users), events + [e]);
  }

  /** A state with one call moved on is reachable when one step gives it. */
  lemma GoesTo(hash: Content -> Digest, st: Store, calls: map<CallId, Pc>, c: CallId, pc: Pc, newPath: Path, m: Move)
    requires Reachable(hash, State(st, calls[c := pc])) && Next(hash, st, pc, newPath, None, true) == m
    ensures Reachable(hash, State(m.store, calls[c := m.pc]))
  {
    var s := State(st, calls[c := pc]);
    Onward(hash, s, Alone(c, newPath));
    assert calls[c := pc][c := m.pc] == calls[c := m.pc];
    assert Step(hash, s, Alone(c, newPath)) == State(m.store, calls[c := m.pc]);
  }

  lemma UploadBegins(hash: Content -> Digest, st: Store, path: Path)
    ensures Next(hash, st, UploadStart(REQUEST), path, None, true) == Move(st, UploadSave(REQUEST))
  {
  }

  lemma UploadWithinQuota(hash: Content -> Digest, st: Store, path: Path)
    requires QuotaOk(st.db, 1, 0)
    ensures Next(hash, st, UploadQuota(REQUEST, path), path, None, true) == Move(st, UploadFind(REQUEST, path))
  {
    var pc := UploadQuota(REQUEST, path);
    assert NextUploadRead(hash, st, pc) == UploadFind(REQUEST, path);
  }

  function Saved(st: Store, path: Path): Store {
    st.(stored := st.stored[path := []], used := st.used + {path})
  }

  /** An upload up to the point where it looks for its content. */
  lemma UploadToFind(hash: Content -> Digest, st: Store, calls: map<CallId, Pc>, c: CallId, path: Path)
    requires Reachable(hash, State(st, calls)) && c !in calls && path !in st.used && QuotaOk(st.db, 1, 0)
    ensures Reachable(hash, State(Saved(st, path), calls[c := UploadFind(REQUEST, path)]))
  {
    Onward(hash, State(st, calls), Arrive(c, UploadStart(REQUEST)));
    UploadBegins(hash, st, path);
    GoesTo(hash, st, calls, c, UploadStart(REQUEST), path, Move(st, UploadSave(REQUEST)));
    GoesTo(hash, st, calls, c, UploadSave(REQUEST), path, Move(Saved(st, path), UploadQuota(REQUEST, path)));
    UploadWithinQuota(hash, Saved(st, path), path);
    GoesTo(hash, Saved(st, path), calls, c, UploadQuota(REQUEST, path), path,
        Move(Saved(st, path), UploadFind(REQUEST, path)));
  }

  function Row(hash: Content -> Digest, refs: int): ObjectRow {
    ObjectRow(hash([]), "p", 0, "type", refs)
  }

  const START := EMPTY.(users := map[1 := 1])

  /** The tables once the first upload has inserted its object row. */
  function Inserted(hash: Content -> Digest): Database {
    START.(objects := map[1 := Row(hash, 0)], nextObject := 2)
  }

  const WAITING: map<CallId, Pc> := map[0 := UploadSelect(REQUEST, "p")]

  lemma ReachInserted(hash: Content -> Digest)
    ensures Reachable(hash, State(Store(Inserted(hash), map["p" := []], {"p"}), WAITING))
  {
    assert Init(map[1 := 1]) == Run(hash, Init(map[1 := 1]), []);
    assert SizesOf(START.files, 1) == map[];
    UploadToFind(hash, Store(START, map[], {}), map[], 0, "p");
    var st := Store(START, map["p" := []], {"p"});
    assert st == Saved(Store(START, map[], {}), "p");
    GoesTo(hash, st, map[], 0, UploadFind(REQUEST, "p"), "", Move(st, UploadInsert(REQUEST, "p")));
    GoesTo(hash, st, map[], 0, UploadInsert(REQUEST, "p"), "",
        Move(st.(db := Inserted(hash)), UploadSelect(REQUEST, "p")));
  }

  lemma FindsIt(hash: Content -> Digest)
    ensures FindObject(Inserted(hash), hash([])) == Some(Snapshot(1, Row(hash, 0)))
  {
    assert HasHash(Inserted(hash), hash([])) by { assert 1 in Inserted(hash).objects; }
  }

  function Linked(hash: Content -> Digest, status: FileStatus, at: Option<Time>): Database {
    START.(objects := map[1 := Row(hash, 1)], nextObject := 2, nextFile := 2,
           files := map[1 := FileRow(1, None, 1, "name", "p", 0, "type", status, at)])
  }

  function Found(hash: Content -> Digest): Snapshot {
    Snapshot(1, Row(hash, 0))
  }

  lemma SecondDrops(hash: Content -> Digest, st: Store)
    requires st == Store(Inserted(hash), map["p" := []], {"p"})
    ensures var drop := UploadDrop(REQUEST, "q", false, Found(hash));
            && Next(hash, Saved(st, "q"), UploadFind(REQUEST, "q"), "", None, true) == Move(Saved(st, "q"), drop)
            && Next(hash, Saved(st, "q"), drop, "", None, true)
               == Move(st.(used := {"p", "q"}), Link(1, None, "name", Found(hash)))
  {
    FindsIt(hash);
    assert Saved(st, "q").stored - {"q"} == st.stored;
  }

  /** A second upload of the same content finds the row. */
  lemma ReachFound(hash: Content -> Digest)
    ensures Reachable(hash, State(Store(Inserted(hash), map["p" := []], {"p", "q"}),
                WAITING[1 := Link(1, None, "name", Found(hash))]))
  {
    var st := Store(Inserted(hash), map["p" := []], {"p"});
    ReachInserted(hash);
    assert SizesOf(st.db.files, 1) == map[];
    UploadToFind(hash, st, WAITING, 1, "q");
    SecondDrops(hash, st);
    var drop := UploadDrop(REQUEST, "q", false, Found(hash));
    GoesTo(hash, Saved(st, "q"), WAITING, 1, UploadFind(REQUEST, "q"), "", Move(Saved(st, "q"), drop));
    GoesTo(hash, Saved(st, "q"), WAITING, 1, drop, "",
        Move(st.(used := {"p", "q"}), Link(1, None, "name", Found(hash))));
  }

  lemma LinkRow(hash: Content -> Digest)
    ensures AddReference(Inserted(hash), 1, None, "name", Found(hash)) == Ok(Linked(hash, Active, None))
  {
    var file := FileRow(1, None, 1, "name", "p", 0, "type", Active, None);
    assert START.files[1 := file] == map[1 := file];
    assert map[1 := Row(hash, 0)][1 := Row(hash, 1)] == map[1 := Row(hash, 1)];
  }

  /** It links a file to the row. */
  lemma ReachLinked(hash: Content -> Digest)
    ensures Reachable(hash, State(Store(Linked(hash, Active, None), map["p" := []], {"p", "q"}),
                WAITING[1 := Returned]))
  {
    ReachFound(hash);
    LinkRow(hash);
    var st := Store(Inserted(hash), map["p" := []], {"p", "q"});
    GoesTo(hash, st, WAITING, 1, Link(1, None, "name", Found(hash)), "",
        Move(st.(db := Linked(hash, Active, None)), Returned));
  }

  const PURGED := START.(nextObject := 2, nextFile := 2)

  lemma TrashRow(hash: Content -> Digest)
    ensures SoftDelete(Linked(hash, Active, None), 1, 1, false, 0) == Ok(Linked(hash, Deleted, Some(0)))
  {
    var file := FileRow(1, None, 1, "name", "p", 0, "type", Active, None);
    var trashed := file.(status := Deleted, deletedAt := Some(0));
    assert map[1 := file][1 := trashed] == map[1 := trashed];
    assert WithoutCollectionsOf(map[], 1) == map[] && WithoutSharesOf(map[], 1) == map[];
  }

  lemma PurgeRow(hash: Content -> Digest)
    ensures PurgeDeleted(Linked(hash, Deleted, Some(0)), 1, 1) == Ok(Purged(PURGED, Some(Unreferenced("p", None))))
  {
    assert WithoutMember(map[], 1) == map[] && WithoutSharesOf(map[], 1) == map[];
  }

  /** Its file goes to trash and is deleted for good, and takes the row along. */
  lemma ReachPurged(hash: Content -> Digest)
    ensures Reachable(hash, State(Store(PURGED, map["p" := []], {"p", "q"}),
                WAITING[1 := Returned][2 := RemoveObject("p", None)]))
  {
    ReachLinked(hash);
    var st := Store(Linked(hash, Active, None), map["p" := []], {"p", "q"});
    var calls := WAITING[1 := Returned];
    Onward(hash, State(st, calls), Trash(1, 1, false, 0));
    TrashRow(hash);
    var st' := st.(db := Linked(hash, Deleted, Some(0)));
    Onward(hash, State(st', calls), Arrive(2, PurgeStart(1, 1)));
    PurgeRow(hash);
    GoesTo(hash, st', calls, 2, PurgeStart(1, 1), "", Move(st.(db := PURGED), RemoveObject("p", None)));
  }

  lemma FirstGivesUp(hash: Content -> Digest, st: Store)
    requires st.db == PURGED
    ensures Next(hash, st, UploadSelect(REQUEST, "p"), "", None, true) == Move(st, UploadFindAgain(REQUEST, "p", true))
    ensures Next(hash, st, UploadFindAgain(REQUEST, "p", true), "", None, true) == Move(st, Discard("p", true))
  {
    assert !HasHash(PURGED, hash([]));
  }

  /** Exactness does fail: a reachable state in which the delete of the shared
      object still holds a path that the first upload has already removed. */
  lemma StorageIsNotAlwaysExact(hash: Content -> Digest) returns (s: State)
    ensures Reachable(hash, s) && !StoredExactly(s)
    ensures 2 in s.calls && s.calls[2] == RemoveObject("p", None) && "p" !in s.store.stored
  {
    ReachPurged(hash);
    var st := Store(PURGED, map["p" := []], {"p", "q"});
    var calls := WAITING[1 := Returned][2 := RemoveObject("p", None)];
    assert calls == calls[0 := UploadSelect(REQUEST, "p")];
    FirstGivesUp(hash, st);
    GoesTo(hash, st, calls, 0, UploadSelect(REQUEST, "p"), "", Move(st, UploadFindAgain(REQUEST, "p", true)));
    GoesTo(hash, st, calls, 0, UploadFindAgain(REQUEST, "p", true), "", Move(st, Discard("p", true)));
    GoesTo(hash, st, calls, 0, Discard("p", true), "", NextErase(st, Discard("p", true), true));
    s := State(NextErase(st, Discard("p", true), true).store, calls[0 := Returned]);
    assert 2 in s.calls && "p" in Held(s.calls[2]) && "p" !in s.store.stored;
  }
}
