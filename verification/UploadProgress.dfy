/** A Complete or Cancel call that nothing disturbs: what decides its outcome, and
    that it gets there, however many bytes each read transfers. */
module UploadProgress {
  import opened Options
  import opened Chunking
  import opened UploadProtocol

  /** The call's next steps, one per count, with no other call in between. */
  ghost function Drive(u: Setup, s: State, c: CallId, counts: seq<nat>, ok: bool): State
    decreases |counts|
  {
    if counts == [] then s else Drive(u, Step(u, s, Advance(c, counts[0], ok)), c, counts[1..], ok)
  }

  lemma {:induction false} ReturnedStays(u: Setup, s: State, c: CallId, counts: seq<nat>, ok: bool)
    requires c in s.calls && s.calls[c] == Returned
    ensures Drive(u, s, c, counts, ok) == s
    decreases |counts|
  {
    if counts != [] {
      ReturnedStays(u, s, c, counts[1..], ok);
    }
  }

  lemma GotoTwice(s: State, c: CallId, a: Pc, b: Pc)
    ensures Goto(Goto(s, c, a), c, b) == Goto(s, c, b)
  {
    assert s.calls[c := a][c := b] == s.calls[c := b];
  }

  /** What the temp directory holds under the name of each part, row by row. */
  ghost predicate Stored(u: Setup, disk: Disk, rows: seq<ChunkRow>, parts: seq<Content>) {
    && |rows| == |parts| == u.task.totalChunks
    && forall n :: 0 <= n < |parts| ==>
         && n in disk.parts && Bytes(disk, disk.parts[n]) == parts[n]
         && |parts[n]| == ExpectedChunkSize(u.task, n)
         && rows[n] == ChunkRow(n, |parts[n]|, Some(u.hash(parts[n])))
  }

  ghost function Rows(u: Setup, s: State): seq<ChunkRow> {
    RowList(s.rows, u.task.totalChunks)
  }

  ghost predicate AllThere(u: Setup, s: State) {
    |Rows(u, s)| == u.task.totalChunks
  }

  /** An open task whose parts are those, if all of them are there. */
  ghost predicate Ready(u: Setup, s: State, parts: seq<Content>) {
    && s.status == Uploading && s.disk.dir
    && (AllThere(u, s) ==> Stored(u, s.disk, Rows(u, s), parts))
  }

  /** Every chunk is there, the whole has the declared hash, and the user's file is
      accepted. */
  ghost predicate Succeeds(u: Setup, s: State, parts: seq<Content>, ok: bool) {
    && AllThere(u, s) && ok
    && (u.task.fileHash.Some? ==> u.task.fileHash.value == u.hash(Concat(parts)))
  }

  /** Completed with the file made of the parts, or open as before. */
  ghost function Outcome(u: Setup, s: State, c: CallId, parts: seq<Content>, ok: bool): State {
    if Succeeds(u, s, parts, ok) then
      Goto(s.(status := Completed, disk := RemoveAll(s.disk), created := s.created + [parts]), c, Returned)
    else Goto(s, c, Returned)
  }

  lemma {:induction false} PartsAddUp(u: Setup, disk: Disk, rows: seq<ChunkRow>, parts: seq<Content>, n: nat)
    requires ValidTask(u.task) && Stored(u, disk, rows, parts) && n <= |parts|
    ensures |Concat(parts[..n])| == SumSizes(u.task, n)
    decreases n
  {
    if n > 0 {
      assert parts[..n][..n - 1] == parts[..n - 1];
      PartsAddUp(u, disk, rows, parts, n - 1);
    }
  }

  lemma SizeOfAll(u: Setup, disk: Disk, rows: seq<ChunkRow>, parts: seq<Content>)
    requires ValidTask(u.task) && Stored(u, disk, rows, parts)
    ensures |Concat(parts)| == u.task.fileSize
  {
    assert parts[..|parts|] == parts;
    PartsAddUp(u, disk, rows, parts, |parts|);
    SizesAddUp(u.task, |parts|);
  }

  // ---- where the call is ----

  ghost predicate InMerge(u: Setup, s: State, pc: Pc, parts: seq<Content>) {
    if pc.MergeOpen? then
      AllThere(u, s) && pc.rows == Rows(u, s) && |pc.segments| <= |parts| && pc.segments == parts[..|pc.segments|]
    else if pc.MergeRead? then
      && AllThere(u, s) && pc.rows == Rows(u, s) && |pc.segments| < |parts| && pc.segments == parts[..|pc.segments|]
      && |pc.segments| in s.disk.parts && pc.inode == s.disk.parts[|pc.segments|]
      && |pc.read| <= |parts[|pc.segments|]| && pc.read == parts[|pc.segments|][..|pc.read|]
    else pc.CheckHash? && AllThere(u, s) && pc.segments == parts
  }

  /** The state the call has come to from s0, where it began. */
  ghost predicate OnTrack(u: Setup, s0: State, s: State, c: CallId, parts: seq<Content>, ok: bool) {
    && c in s.calls
    && var pc, claimed := s.calls[c], s0.(status := Completing);
       if pc.CompleteFind? || pc.CompleteClaim? then s == Goto(s0, c, pc)
       else if pc.CompleteList? then s == Goto(claimed, c, pc)
       else if pc.MergeStart? then s == Goto(claimed, c, pc) && pc.rows == Rows(u, s0)
       else if MergePc(pc) then s == Goto(claimed, c, pc) && InMerge(u, s0, pc, parts)
       else if pc.CreateFile? then
         s == Goto(claimed, c, pc) && pc.segments == parts && Succeeds(u, s0, parts, true)
       else if pc.RestoreStatus? then s == Goto(claimed, c, pc) && !Succeeds(u, s0, parts, ok)
       else if pc.Finish? then
         s == Goto(claimed.(created := s0.created + [parts]), c, pc) && Succeeds(u, s0, parts, ok)
       else if pc.RemoveDir? then
         s == Goto(s0.(status := Completed, created := s0.created + [parts]), c, pc) && Succeeds(u, s0, parts, ok)
       else pc.Returned? && s == Outcome(u, s0, c, parts, ok)
  }

  /** Steps that the parts from number i on can still take. */
  ghost function Left(parts: seq<Content>, i: nat): nat
    decreases |parts| - i
  {
    if i >= |parts| then 0 else |parts[i]| + 2 + Left(parts, i + 1)
  }

  /** More than the steps the call can still take. */
  ghost function Distance(pc: Pc, parts: seq<Content>): int {
    if pc.CompleteFind? then 9 + Left(parts, 0)
    else if pc.CompleteClaim? then 8 + Left(parts, 0)
    else if pc.CompleteList? then 7 + Left(parts, 0)
    else if pc.MergeStart? then 6 + Left(parts, 0)
    else if pc.MergeOpen? then 5 + Left(parts, |pc.segments|)
    else if pc.MergeRead? then 4 + Left(parts, |pc.segments|) - |pc.read|
    else if pc.CheckHash? then 4
    else if pc.CreateFile? then 3
    else if pc.Finish? then 2
    else if pc.RemoveDir? || pc.RestoreStatus? then 1
    else 0
  }

  /** One step keeps the call on its track and brings it nearer to the end. */
  ghost predicate Nearer(u: Setup, s0: State, s: State, s': State, c: CallId, parts: seq<Content>, ok: bool) {
    && OnTrack(u, s0, s', c, parts, ok) && c in s.calls
    && (s.calls[c] == Returned || Distance(s'.calls[c], parts) < Distance(s.calls[c], parts))
  }

  lemma OpenGoesOn(u: Setup, s0: State, s: State, c: CallId, parts: seq<Content>, ok: bool, count: nat)
    requires ValidTask(u.task) && Ready(u, s0, parts) && OnTrack(u, s0, s, c, parts, ok) && s.calls[c].MergeOpen?
    ensures Nearer(u, s0, s, Step(u, s, Advance(c, count, ok)), c, parts, ok)
  {
    var pc, i := s.calls[c], |s.calls[c].segments|;
    var claimed := s0.(status := Completing);
    if i == |parts| {
      SizeOfAll(u, s0.disk, pc.rows, parts);
      assert pc.segments == parts;
      GotoTwice(claimed, c, pc, CheckHash(parts));
    } else {
      GotoTwice(claimed, c, pc, MergeRead(pc.rows, pc.segments, s0.disk.parts[i], []));
    }
  }

  lemma ReadGoesOn(u: Setup, s0: State, s: State, c: CallId, parts: seq<Content>, ok: bool, count: nat)
    requires ValidTask(u.task) && Ready(u, s0, parts) && OnTrack(u, s0, s, c, parts, ok) && s.calls[c].MergeRead?
    ensures Nearer(u, s0, s, Step(u, s, Advance(c, count, ok)), c, parts, ok)
  {
    var pc, i, r := s.calls[c], |s.calls[c].segments|, |s.calls[c].read|;
    var claimed := s0.(status := Completing);
    if r < |parts[i]| {
      var to := Progress(r, count, |parts[i]|);
      assert parts[i][..r] + parts[i][r..to] == parts[i][..to];
      GotoTwice(claimed, c, pc, MergeRead(pc.rows, pc.segments, pc.inode, parts[i][..to]));
    } else {
      assert pc.read == parts[i] && parts[..i] + [parts[i]] == parts[..i + 1];
      GotoTwice(claimed, c, pc, MergeOpen(pc.rows, parts[..i + 1]));
    }
  }

  lemma StartGoesOn(u: Setup, s0: State, s: State, c: CallId, parts: seq<Content>, ok: bool, count: nat)
    requires Ready(u, s0, parts) && OnTrack(u, s0, s, c, parts, ok)
    requires s.calls[c].CompleteFind? || s.calls[c].CompleteClaim? || s.calls[c].CompleteList?
    ensures Nearer(u, s0, s, Step(u, s, Advance(c, count, ok)), c, parts, ok)
  {
    var pc, claimed := s.calls[c], s0.(status := Completing);
    if pc.CompleteFind? {
      GotoTwice(s0, c, pc, CompleteClaim);
    } else if pc.CompleteClaim? {
      GotoTwice(claimed, c, pc, CompleteList);
    } else {
      GotoTwice(claimed, c, pc, MergeStart(Rows(u, s0)));
    }
  }

  lemma CheckGoesOn(u: Setup, s0: State, s: State, c: CallId, parts: seq<Content>, ok: bool, count: nat)
    requires Ready(u, s0, parts) && OnTrack(u, s0, s, c, parts, ok)
    requires s.calls[c].MergeStart? || s.calls[c].CheckHash?
    ensures Nearer(u, s0, s, Step(u, s, Advance(c, count, ok)), c, parts, ok)
  {
    var pc, claimed := s.calls[c], s0.(status := Completing);
    GotoTwice(claimed, c, pc, RestoreStatus);
    if pc.MergeStart? {
      GotoTwice(claimed, c, pc, MergeOpen(pc.rows, []));
    } else {
      GotoTwice(claimed, c, pc, CreateFile(parts));
    }
  }

  lemma CreateGoesOn(u: Setup, s0: State, s: State, c: CallId, parts: seq<Content>, ok: bool, count: nat)
    requires OnTrack(u, s0, s, c, parts, ok) && s.calls[c].CreateFile?
    ensures Nearer(u, s0, s, Step(u, s, Advance(c, count, ok)), c, parts, ok)
  {
    var pc, claimed := s.calls[c], s0.(status := Completing);
    GotoTwice(claimed, c, pc, RestoreStatus);
    GotoTwice(claimed.(created := s0.created + [parts]), c, pc, Finish);
  }

  lemma EndGoesOn(u: Setup, s0: State, s: State, c: CallId, parts: seq<Content>, ok: bool, count: nat)
    requires Ready(u, s0, parts) && OnTrack(u, s0, s, c, parts, ok)
    requires var pc := s.calls[c]; pc.Finish? || pc.RemoveDir? || pc.RestoreStatus? || pc.Returned?
    ensures Nearer(u, s0, s, Step(u, s, Advance(c, count, ok)), c, parts, ok)
  {
    var pc := s.calls[c];
    var done := s0.(status := Completed, created := s0.created + [parts]);
    if pc.Finish? {
      GotoTwice(done, c, pc, RemoveDir);
    } else if pc.RemoveDir? {
      GotoTwice(done.(disk := RemoveAll(s0.disk)), c, pc, Returned);
    } else if pc.RestoreStatus? {
      GotoTwice(s0, c, pc, Returned);
    } else {
      assert Step(u, s, Advance(c, count, ok)) == s;
    }
  }

  lemma GoesOn(u: Setup, s0: State, s: State, c: CallId, parts: seq<Content>, ok: bool, count: nat)
    requires ValidTask(u.task) && Ready(u, s0, parts) && OnTrack(u, s0, s, c, parts, ok)
    ensures Nearer(u, s0, s, Step(u, s, Advance(c, count, ok)), c, parts, ok)
  {
    var pc := s.calls[c];
    if pc.MergeOpen? {
      OpenGoesOn(u, s0, s, c, parts, ok, count);
    } else if pc.MergeRead? {
      ReadGoesOn(u, s0, s, c, parts, ok, count);
    } else if pc.CompleteFind? || pc.CompleteClaim? || pc.CompleteList? {
      StartGoesOn(u, s0, s, c, parts, ok, count);
    } else if pc.CreateFile? {
      CreateGoesOn(u, s0, s, c, parts, ok, count);
    } else if pc.MergeStart? || pc.CheckHash? {
      CheckGoesOn(u, s0, s, c, parts, ok, count);
    } else {
      EndGoesOn(u, s0, s, c, parts, ok, count);
    }
  }

  lemma {:induction false} GetsThere(u: Setup, s0: State, s: State, c: CallId, parts: seq<Content>, counts: seq<nat>,
                                     ok: bool)
    requires ValidTask(u.task) && Ready(u, s0, parts) && OnTrack(u, s0, s, c, parts, ok)
    requires Distance(s.calls[c], parts) <= |counts|
    ensures Drive(u, s, c, counts, ok) == Outcome(u, s0, c, parts, ok)
    decreases |counts|
  {
    if s.calls[c] == Returned {
      ReturnedStays(u, s, c, counts, ok);
    } else {
      GoesOn(u, s0, s, c, parts, ok, counts[0]);
      GetsThere(u, s0, Step(u, s, Advance(c, counts[0], ok)), c, parts, counts[1..], ok);
    }
  }

  /** Bytes and two steps a part, and nine besides. */
  ghost function Enough(parts: seq<Content>): nat {
    9 + Left(parts, 0)
  }

  /** Main result: an undisturbed Complete of an open task ends it with the file made
      of the stored parts if every chunk is there, a declared hash is the whole's and
      the file is accepted; otherwise the task is open again with all it had. */
  lemma CompleteAloneSucceeds(u: Setup, s: State, c: CallId, parts: seq<Content>, counts: seq<nat>, ok: bool)
    requires ValidTask(u.task) && c in s.calls && s.calls[c].CompleteFind? && Ready(u, s, parts)
    requires Enough(parts) <= |counts|
    ensures Drive(u, s, c, counts, ok)
         == if Succeeds(u, s, parts, ok) then
              Goto(s.(status := Completed, disk := RemoveAll(s.disk), created := s.created + [parts]), c, Returned)
            else Goto(s, c, Returned)
  {
    assert s.calls[c := s.calls[c]] == s.calls;
    GetsThere(u, s, s, c, parts, counts, ok);
  }

  // ---- Cancel ----

  lemma DriveOn(u: Setup, s: State, c: CallId, counts: seq<nat>, s': State)
    requires counts != [] && Step(u, s, Advance(c, counts[0], true)) == s'
    ensures Drive(u, s, c, counts, true) == Drive(u, s', c, counts[1..], true)
  {
  }

  lemma RemovesDir(u: Setup, s: State, c: CallId, counts: seq<nat>)
    requires c in s.calls && s.calls[c] == RemoveDir && counts != []
    ensures Drive(u, s, c, counts, true) == Goto(s.(disk := RemoveAll(s.disk)), c, Returned)
  {
    var s' := Goto(s.(disk := RemoveAll(s.disk)), c, Returned);
    DriveOn(u, s, c, counts, s');
    ReturnedStays(u, s', c, counts[1..], true);
  }

  lemma Marks(u: Setup, s: State, c: CallId, counts: seq<nat>)
    requires c in s.calls && s.calls[c] == CancelMark && 2 <= |counts|
    ensures Drive(u, s, c, counts, true)
         == if s.status == Uploading then Goto(s.(status := Failed, disk := RemoveAll(s.disk)), c, Returned)
            else Goto(s, c, Returned)
  {
    if s.status == Uploading {
      var marked := Goto(s.(status := Failed), c, RemoveDir);
      DriveOn(u, s, c, counts, marked);
      RemovesDir(u, marked, c, counts[1..]);
      GotoTwice(s.(status := Failed, disk := RemoveAll(s.disk)), c, RemoveDir, Returned);
    } else {
      DriveOn(u, s, c, counts, Goto(s, c, Returned));
      ReturnedStays(u, Goto(s, c, Returned), c, counts[1..], true);
    }
  }

  /** A Cancel that nothing disturbs fails an open task and removes its directory; it
      leaves any other task as it is. */
  lemma CancelAloneIsTheCall(u: Setup, s: State, c: CallId, counts: seq<nat>)
    requires c in s.calls && s.calls[c] == CancelFind && 3 <= |counts|
    ensures var s' := Drive(u, s, c, counts, true);
            && s'.calls == s.calls[c := Returned] && s'.rows == s.rows && s'.created == s.created
            && if s.status == Uploading then s'.status == Failed && !s'.disk.dir && s'.disk.parts == map[]
               else s'.status == s.status && s'.disk == s.disk
  {
    DriveOn(u, s, c, counts, Goto(s, c, CancelMark));
    Marks(u, Goto(s, c, CancelMark), c, counts[1..]);
  }
}
