/** One upload task under any number of concurrent UploadChunk, Complete,
    Cancel and CleanupExpired calls (internal/upload/service.go). One SQL
    statement or one file-system call is one step. */
module UploadProtocol {
  import opened Options
  import opened Chunking

  datatype Status = Uploading | Completing | Completed | Failed

  type CallId = nat
  type Inode = nat

  /** Where a call is. The segments a merge has read so far stand for the bytes
      of its private merged file. */
  datatype Pc =
    | ChunkFind(number: int, body: Content)
    | ChunkCreate(number: int, body: Content)
    | ChunkWrite(number: int, body: Content, inode: Inode, written: nat)
    | ChunkRename(number: int, body: Content)
    | ChunkRemoveTemp(number: int)
    | ChunkUpsert(number: int, body: Content)
    | ChunkTouch
    | CompleteFind
    | CompleteClaim
    | CompleteList
    | MergeStart(rows: seq<ChunkRow>)
    | MergeOpen(rows: seq<ChunkRow>, segments: seq<Content>)
    | MergeRead(rows: seq<ChunkRow>, segments: seq<Content>, inode: Inode, read: Content)
    | CheckHash(segments: seq<Content>)
    | CreateFile(segments: seq<Content>)
    | Finish
    | RestoreStatus
    | CancelFind
    | CancelMark
    | RemoveDir
    | Returned
    | FinalTransitionLost

  /** The temp directory. Names point at inodes, so an open file survives being
      renamed or removed. */
  datatype Disk = Disk(dir: bool, parts: map<int, Inode>, temps: map<int, Inode>, inodes: map<Inode, Content>,
      nextInode: Inode)

  /** The task row's status and its chunk rows, the temp directory, the calls,
      and, for the record, every body handed to UploadChunk and the segments of
      every user file created. */
  datatype State = State(
    status: Status,
    rows: map<int, ChunkRow>,
    disk: Disk,
    calls: map<CallId, Pc>,
    bodies: set<(int, Content)>,
    created: seq<seq<Content>>)

  datatype Setup = Setup(task: Task, hash: Content -> Digest)

  /** A call arrives, or moves on. count is how many bytes one read or write
      transfers; ok is the outcome of what lies outside this model: the client's
      connection, the expiry query, UploadIntoFolder. */
  datatype Event =
    | Arrive(call: CallId, first: Pc)
    | Advance(call: CallId, count: nat, ok: bool)

  function Init(): State {
    State(Uploading, map[], Disk(true, map[], map[], map[], 0), map[], {}, [])
  }

  predicate FirstPc(pc: Pc) {
    pc.ChunkFind? || pc.CompleteFind? || pc.CancelFind?
  }

  // ---- the file system ----

  function Bytes(disk: Disk, inode: Inode): Content {
    if inode in disk.inodes then disk.inodes[inode] else []
  }

  /** os.Create: a file another call may still be writing is truncated. */
  function CreateTemp(disk: Disk, n: int): Disk {
    var inode := TempInode(disk, n);
    disk.(temps := disk.temps[n := inode], inodes := disk.inodes[inode := []], nextInode := disk.nextInode + 1)
  }

  function TempInode(disk: Disk, n: int): Inode {
    if n in disk.temps then disk.temps[n] else disk.nextInode
  }

  /** Bytes written at an offset; a hole left by a truncation reads as zeros. */
  function WriteAt(bytes: Content, at: nat, piece: Content): Content {
    var padded := if |bytes| < at then bytes + seq(at - |bytes|, _ => 0) else bytes;
    padded[..at] + piece + (if at + |piece| <= |padded| then padded[at + |piece|..] else [])
  }

  function WriteTemp(disk: Disk, inode: Inode, at: nat, piece: Content): Disk {
    disk.(inodes := disk.inodes[inode := WriteAt(Bytes(disk, inode), at, piece)])
  }

  function RenameTemp(disk: Disk, n: int): Disk
    requires n in disk.temps
  {
    disk.(parts := disk.parts[n := disk.temps[n]], temps := disk.temps - {n})
  }

  function RemoveTemp(disk: Disk, n: int): Disk {
    disk.(temps := disk.temps - {n})
  }

  function RemoveAll(disk: Disk): Disk {
    disk.(dir := false, parts := map[], temps := map[])
  }

  /** How far a transfer of count bytes gets. */
  function Progress(from: nat, count: nat, size: nat): (to: nat)
    requires from <= size
    ensures from <= to <= size
  {
    if 0 < count <= size - from then from + count else size
  }

  // ---- UploadChunk ----

  predicate ChunkPc(pc: Pc) {
    pc.ChunkFind? || pc.ChunkCreate? || pc.ChunkWrite? || pc.ChunkRename? || pc.ChunkRemoveTemp? || pc.ChunkUpsert?
    || pc.ChunkTouch?
  }

  datatype ChunkMove = ChunkMove(pc: Pc, disk: Disk, rows: map<int, ChunkRow>)

  function NextChunk(u: Setup, s: State, pc: Pc, count: nat, ok: bool): ChunkMove
    requires ChunkPc(pc)
  {
    match pc
    case ChunkFind(n, body) =>
      var accepted := s.status == Uploading && 0 <= n < u.task.totalChunks;
      ChunkMove(if accepted then ChunkCreate(n, body) else Returned, s.disk, s.rows)
    case ChunkCreate(n, body) =>
      if !s.disk.dir then ChunkMove(Returned, s.disk, s.rows)
      else ChunkMove(ChunkWrite(n, body, TempInode(s.disk, n), 0), CreateTemp(s.disk, n), s.rows)
    case ChunkWrite(n, body, inode, written) =>
      if !ok then ChunkMove(ChunkRemoveTemp(n), s.disk, s.rows)
      else if written < |body| then
        var end := Progress(written, count, |body|);
        ChunkMove(ChunkWrite(n, body, inode, end), WriteTemp(s.disk, inode, written, body[written..end]), s.rows)
      else
        ChunkMove(if |body| == ExpectedChunkSize(u.task, n) then ChunkRename(n, body)
                  else ChunkRemoveTemp(n), s.disk, s.rows)
    case ChunkRename(n, body) =>
      if n in s.disk.temps then ChunkMove(ChunkUpsert(n, body), RenameTemp(s.disk, n), s.rows)
      else ChunkMove(ChunkRemoveTemp(n), s.disk, s.rows)
    case ChunkRemoveTemp(n) => ChunkMove(Returned, RemoveTemp(s.disk, n), s.rows)
    case ChunkUpsert(n, body) =>
      ChunkMove(ChunkTouch, s.disk, s.rows[n := ChunkRow(n, |body|, Some(u.hash(body)))])
    // TouchUploading decides only what the caller is told.
    case ChunkTouch => ChunkMove(Returned, s.disk, s.rows)
  }

  // ---- Complete ----

  /** ListChunks: the rows in the order of their numbers. */
  function RowList(rows: map<int, ChunkRow>, n: int): seq<ChunkRow>
    decreases n
  {
    if n <= 0 then [] else RowList(rows, n - 1) + (if n - 1 in rows then [rows[n - 1]] else [])
  }

  /** Finding, listing, reading and checking: the steps of Complete that change
      nothing but the call itself and its private merged file. */
  predicate MergePc(pc: Pc) {
    pc.CompleteFind? || pc.CompleteList? || pc.MergeStart? || pc.MergeOpen? || pc.MergeRead? || pc.CheckHash?
  }

  function NextMerge(u: Setup, s: State, pc: Pc, count: nat): Pc
    requires MergePc(pc)
  {
    match pc
    case CompleteFind => if s.status == Uploading then CompleteClaim else Returned
    case CompleteList => MergeStart(RowList(s.rows, u.task.totalChunks))
    case MergeStart(rows) =>
      if |rows| == u.task.totalChunks && s.disk.dir then MergeOpen(rows, []) else RestoreStatus
    case MergeOpen(rows, segments) => NextOpen(u, s, rows, segments)
    case MergeRead(rows, segments, inode, read) => NextRead(u, s, rows, segments, inode, read, count)
    case CheckHash(segments) =>
      if u.task.fileHash.Some? && u.task.fileHash.value != u.hash(Concat(segments)) then RestoreStatus
      else CreateFile(segments)
  }

  function NextOpen(u: Setup, s: State, rows: seq<ChunkRow>, segments: seq<Content>): Pc {
    var i := |segments|;
    if i >= |rows| then
      if |Concat(segments)| == u.task.fileSize then CheckHash(segments) else RestoreStatus
    else if rows[i].number != i || rows[i].size != ExpectedChunkSize(u.task, i) || i !in s.disk.parts then RestoreStatus
    else MergeRead(rows, segments, s.disk.parts[i], [])
  }

  /** io.Copy reads until it meets the end of the file; what was read is what is
      hashed and what is written to the merged file. */
  function NextRead(u: Setup, s: State, rows: seq<ChunkRow>, segments: seq<Content>, inode: Inode, read: Content,
                    count: nat): Pc {
    var bytes := Bytes(s.disk, inode);
    var i := |segments|;
    if |read| < |bytes| then
      MergeRead(rows, segments, inode, read + bytes[|read|..Progress(|read|, count, |bytes|)])
    else if i < |rows| && |read| == ExpectedChunkSize(u.task, i) && rows[i].hash == Some(u.hash(read)) then
      MergeOpen(rows, segments + [read])
    else RestoreStatus
  }

  // ---- steps and runs ----

  function Goto(s: State, c: CallId, pc: Pc): State {
    s.(calls := s.calls[c := pc])
  }

  /** The UPDATE ... WHERE status = from of TransitionStatus. */
  function TransitionStatus(s: State, from: Status, to: Status): State {
    if s.status == from then s.(status := to) else s
  }

  function Step(u: Setup, s: State, e: Event): State {
    match e
    case Arrive(c, first) =>
      if c in s.calls || !FirstPc(first) then s
      else Goto(s.(bodies := s.bodies + if first.ChunkFind? then {(first.number, first.body)} else {}), c, first)
    case Advance(c, count, ok) =>
      if c !in s.calls then s
      else
        var pc := s.calls[c];
        if ChunkPc(pc) then
          var move := NextChunk(u, s, pc, count, ok);
          Goto(s.(disk := move.disk, rows := move.rows), c, move.pc)
        else if MergePc(pc) then Goto(s, c, NextMerge(u, s, pc, count))
        else Transition(s, c, pc, ok)
  }

  /** The steps that change the task's status, its directory or the user's files. */
  function Transition(s: State, c: CallId, pc: Pc, ok: bool): State {
    match pc
    case CompleteClaim =>
      Goto(TransitionStatus(s, Uploading, Completing), c, if s.status == Uploading then CompleteList else Returned)
    case CreateFile(segments) =>
      if ok then Goto(s.(created := s.created + [segments]), c, Finish) else Goto(s, c, RestoreStatus)
    case Finish =>
      Goto(TransitionStatus(s, Completing, Completed), c, if s.status == Completing then RemoveDir
                                                          else FinalTransitionLost)
    case FinalTransitionLost => Goto(s, c, RestoreStatus)
    case RestoreStatus => Goto(TransitionStatus(s, Completing, Uploading), c, Returned)
    // Cancel finds the task; CleanupExpired lists it once it is old enough.
    case CancelFind => Goto(s, c, if ok then CancelMark else Returned)
    case CancelMark =>
      Goto(TransitionStatus(s, Uploading, Failed), c, if s.status == Uploading then RemoveDir else Returned)
    case RemoveDir => Goto(s.(disk := RemoveAll(s.disk)), c, Returned)
    case _ => s
  }

  ghost function Run(u: Setup, s: State, events: seq<Event>): State {
    if events == [] then s else Step(u, Run(u, s, events[..|events| - 1]), events[|events| - 1])
  }

  // ---- what every reachable state satisfies ----

  /** Calls between their claim of the task and its release. */
  predicate Owner(pc: Pc) {
    pc.CompleteList? || pc.MergeStart? || pc.MergeOpen? || pc.MergeRead? || pc.CheckHash? || pc.CreateFile?
      || pc.Finish?
    || pc.RestoreStatus?
  }

  /** Some call's body for number n has this size and hash. */
  ghost predicate SomeBody(u: Setup, s: State, n: int, size: int, digest: Digest) {
    exists body: Content :: (n, body) in s.bodies && |body| == size && u.hash(body) == digest
  }

  ghost predicate RowOk(u: Setup, s: State, n: int, row: ChunkRow) {
    && 0 <= n < u.task.totalChunks
    && row.number == n
    && row.size == ExpectedChunkSize(u.task, n)
    && row.hash.Some?
    && SomeBody(u, s, n, row.size, row.hash.value)
  }

  ghost predicate RowsOk(u: Setup, s: State, rows: seq<ChunkRow>) {
    forall i :: 0 <= i < |rows| ==> RowOk(u, s, rows[i].number, rows[i])
  }

  /** Segment i hashes to what some body of number i hashes to. */
  ghost predicate SegmentsOk(u: Setup, s: State, segments: seq<Content>) {
    forall i :: 0 <= i < |segments| ==>
      |segments[i]| == ExpectedChunkSize(u.task, i) && SomeBody(u, s, i, |segments[i]|, u.hash(segments[i]))
  }

  ghost predicate FileOk(u: Setup, s: State, segments: seq<Content>) {
    && |segments| == u.task.totalChunks
    && SegmentsOk(u, s, segments)
    && |Concat(segments)| == u.task.fileSize
  }

  ghost predicate HashOk(u: Setup, segments: seq<Content>) {
    u.task.fileHash.Some? ==> u.hash(Concat(segments)) == u.task.fileHash.value
  }

  ghost predicate PcOk(u: Setup, s: State, pc: Pc) {
    match pc
    case ChunkFind(n, body) => (n, body) in s.bodies
    case ChunkCreate(n, body) => (n, body) in s.bodies && 0 <= n < u.task.totalChunks
    case ChunkWrite(n, body, _, _) => (n, body) in s.bodies && 0 <= n < u.task.totalChunks
    case ChunkRename(n, body) =>
      (n, body) in s.bodies && 0 <= n < u.task.totalChunks && |body| == ExpectedChunkSize(u.task, n)
    case ChunkUpsert(n, body) =>
      (n, body) in s.bodies && 0 <= n < u.task.totalChunks && |body| == ExpectedChunkSize(u.task, n)
    case MergeStart(rows) => RowsOk(u, s, rows)
    case MergeOpen(rows, segments) =>
      |rows| == u.task.totalChunks && RowsOk(u, s, rows) && |segments| <= |rows| && SegmentsOk(u, s, segments)
    case MergeRead(rows, segments, _, _) =>
      && |rows| == u.task.totalChunks && RowsOk(u, s, rows) && |segments| < |rows| && SegmentsOk(u, s, segments)
      && rows[|segments|].number == |segments|
    case CheckHash(segments) => FileOk(u, s, segments)
    case CreateFile(segments) => FileOk(u, s, segments) && HashOk(u, segments)
    case RemoveDir => s.status == Completed || s.status == Failed
    case FinalTransitionLost => false
    case _ => true
  }

  /** The status names its owner: completing exactly while one call holds it. */
  ghost predicate OneOwner(s: State) {
    && (s.status == Completing <==> exists c :: c in s.calls && Owner(s.calls[c]))
    && (forall c, d :: c in s.calls && d in s.calls && Owner(s.calls[c]) && Owner(s.calls[d]) ==> c == d)
  }

  ghost predicate AtMostOneFile(s: State) {
    && |s.created| <= 1
    && (s.status == Completed ==> s.created != [])
    && (s.created != [] ==> s.status == Completed || exists c :: c in s.calls && s.calls[c].Finish?)
    && (forall c :: c in s.calls && s.calls[c].Finish? ==> s.created != [])
  }

  ghost predicate DirOk(s: State) {
    s.status == Uploading || s.status == Completing ==> s.disk.dir
  }

  ghost predicate TableOk(u: Setup, s: State) {
    forall n :: n in s.rows ==> RowOk(u, s, n, s.rows[n])
  }

  ghost predicate CallsOk(u: Setup, s: State) {
    forall c :: c in s.calls ==> PcOk(u, s, s.calls[c])
  }

  ghost predicate CreatedOk(u: Setup, s: State) {
    forall i :: 0 <= i < |s.created| ==> FileOk(u, s, s.created[i]) && HashOk(u, s.created[i])
  }

  ghost predicate Inv(u: Setup, s: State) {
    OneOwner(s) && AtMostOneFile(s) && DirOk(s) && TableOk(u, s) && CallsOk(u, s) && CreatedOk(u, s)
  }

  // ---- proofs ----

  lemma BodiesGrow(u: Setup, s: State, s': State)
    requires s.bodies <= s'.bodies
    ensures forall n, size, digest :: SomeBody(u, s, n, size, digest) ==> SomeBody(u, s', n, size, digest)
  {
    forall n, size, digest | SomeBody(u, s, n, size, digest)
      ensures SomeBody(u, s', n, size, digest)
    {
      var body :| (n, body) in s.bodies && |body| == size && u.hash(body) == digest;
      assert (n, body) in s'.bodies;
    }
  }

  lemma {:induction false} RowListOk(u: Setup, s: State, n: int)
    requires forall k :: k in s.rows ==> RowOk(u, s, k, s.rows[k])
    ensures RowsOk(u, s, RowList(s.rows, n))
    ensures SortedRows(RowList(s.rows, n))
    ensures forall i :: 0 <= i < |RowList(s.rows, n)| ==> RowList(s.rows, n)[i].number < n
    decreases n
  {
    if n > 0 {
      RowListOk(u, s, n - 1);
    }
  }

  predicate Terminal(status: Status) {
    status == Completed || status == Failed
  }

  lemma OkSurvives(u: Setup, s: State, s': State)
    requires s.bodies <= s'.bodies
    ensures forall n, row :: RowOk(u, s, n, row) ==> RowOk(u, s', n, row)
    ensures forall rows :: RowsOk(u, s, rows) ==> RowsOk(u, s', rows)
    ensures forall segments :: SegmentsOk(u, s, segments) ==> SegmentsOk(u, s', segments)
    ensures forall segments :: FileOk(u, s, segments) ==> FileOk(u, s', segments)
  {
    BodiesGrow(u, s, s');
  }

  lemma PcSurvives(u: Setup, s: State, s': State, pc: Pc)
    requires PcOk(u, s, pc) && s.bodies <= s'.bodies && (Terminal(s.status) ==> Terminal(s'.status))
    ensures PcOk(u, s', pc)
  {
    OkSurvives(u, s, s');
  }

  /** What the state of one call being replaced means for the tables. */
  lemma OthersSurvive(u: Setup, s: State, s': State, c: CallId)
    requires CallsOk(u, s) && s.bodies <= s'.bodies && (Terminal(s.status) ==> Terminal(s'.status))
    requires c in s'.calls && s'.calls == s.calls[c := s'.calls[c]]
    requires PcOk(u, s', s'.calls[c])
    ensures CallsOk(u, s')
  {
    forall d | d in s'.calls
      ensures PcOk(u, s', s'.calls[d])
    {
      if d != c {
        PcSurvives(u, s, s', s.calls[d]);
      }
    }
  }

  /** A step that leaves the status, the directory and the created files alone
      and neither takes nor gives up ownership. */
  lemma QuietStep(u: Setup, s: State, s': State, c: CallId)
    requires Inv(u, s) && s.bodies <= s'.bodies
    requires s'.status == s.status && s'.disk.dir == s.disk.dir && s'.created == s.created
    requires c in s'.calls && s'.calls == s.calls[c := s'.calls[c]]
    requires (c in s.calls && Owner(s.calls[c])) == Owner(s'.calls[c])
    requires (c in s.calls && s.calls[c].Finish?) == s'.calls[c].Finish?
    requires TableOk(u, s') && PcOk(u, s', s'.calls[c])
    ensures Inv(u, s')
  {
    OthersSurvive(u, s, s', c);
    OkSurvives(u, s, s');
    assert OneOwner(s') by { QuietOwner(s, s', c); }
    assert AtMostOneFile(s') by { QuietFile(s, s', c); }
  }

  lemma QuietOwner(s: State, s': State, c: CallId)
    requires OneOwner(s) && s'.status == s.status
    requires c in s'.calls && s'.calls == s.calls[c := s'.calls[c]]
    requires (c in s.calls && Owner(s.calls[c])) == Owner(s'.calls[c])
    ensures OneOwner(s')
  {
    if s.status == Completing {
      var o :| o in s.calls && Owner(s.calls[o]);
      assert o in s'.calls && Owner(s'.calls[o]);
    }
    assert forall d :: d in s'.calls && Owner(s'.calls[d]) ==> d in s.calls && Owner(s.calls[d]);
  }

  lemma QuietFile(s: State, s': State, c: CallId)
    requires AtMostOneFile(s) && s'.status == s.status && s'.created == s.created
    requires c in s'.calls && s'.calls == s.calls[c := s'.calls[c]]
    requires (c in s.calls && s.calls[c].Finish?) == s'.calls[c].Finish?
    ensures AtMostOneFile(s')
  {
    if s.created != [] && s.status != Completed {
      var o :| o in s.calls && s.calls[o].Finish?;
      assert o in s'.calls && s'.calls[o].Finish?;
    }
    assert forall d :: d in s'.calls && s'.calls[d].Finish? ==> d in s.calls && s.calls[d].Finish?;
  }

  lemma ArriveKeepsInv(u: Setup, s: State, c: CallId, first: Pc)
    requires Inv(u, s)
    ensures Inv(u, Step(u, s, Arrive(c, first)))
  {
    var s' := Step(u, s, Arrive(c, first));
    if s' != s {
      OkSurvives(u, s, s');
      QuietStep(u, s, s', c);
    }
  }

  lemma ChunkMoveOk(u: Setup, s: State, pc: Pc, count: nat, ok: bool)
    requires ChunkPc(pc) && PcOk(u, s, pc)
    ensures var move := NextChunk(u, s, pc, count, ok);
            && (ChunkPc(move.pc) || move.pc.Returned?)
            && PcOk(u, s, move.pc)
            && move.disk.dir == s.disk.dir
  {
  }

  lemma UpsertKeepsTable(u: Setup, s: State, pc: Pc, count: nat, ok: bool)
    requires ChunkPc(pc) && PcOk(u, s, pc) && TableOk(u, s)
    ensures TableOk(u, s.(rows := NextChunk(u, s, pc, count, ok).rows))
  {
    var s' := s.(rows := NextChunk(u, s, pc, count, ok).rows);
    OkSurvives(u, s, s');
    if pc.ChunkUpsert? {
      assert (pc.number, pc.body) in s'.bodies;
      assert SomeBody(u, s', pc.number, |pc.body|, u.hash(pc.body));
    }
  }

  lemma ChunkTableOk(u: Setup, s: State, c: CallId, count: nat, ok: bool)
    requires Inv(u, s) && c in s.calls && ChunkPc(s.calls[c])
    ensures TableOk(u, Step(u, s, Advance(c, count, ok)))
  {
    var s' := Step(u, s, Advance(c, count, ok));
    UpsertKeepsTable(u, s, s.calls[c], count, ok);
    OkSurvives(u, s.(rows := s'.rows), s');
  }

  lemma ChunkKeepsInv(u: Setup, s: State, c: CallId, count: nat, ok: bool)
    requires Inv(u, s) && c in s.calls && ChunkPc(s.calls[c])
    ensures Inv(u, Step(u, s, Advance(c, count, ok)))
  {
    var s' := Step(u, s, Advance(c, count, ok));
    ChunkMoveOk(u, s, s.calls[c], count, ok);
    assert PcOk(u, s', s'.calls[c]) by { PcSurvives(u, s, s', s'.calls[c]); }
    ChunkTableOk(u, s, c, count, ok);
    QuietStep(u, s, s', c);
  }

  lemma MergePcOk(u: Setup, s: State, pc: Pc, count: nat)
    requires MergePc(pc) && PcOk(u, s, pc) && TableOk(u, s)
    ensures var next := NextMerge(u, s, pc, count);
            PcOk(u, s, next) && Owner(next) == Owner(pc) && !next.Finish?
  {
    match pc
    case CompleteList => RowListOk(u, s, u.task.totalChunks);
    case MergeOpen(rows, segments) =>
    case MergeRead(rows, segments, inode, read) => ReadPcOk(u, s, pc, count);
    case _ =>
  }

  lemma ReadPcOk(u: Setup, s: State, pc: Pc, count: nat)
    requires pc.MergeRead? && PcOk(u, s, pc)
    ensures var next := NextRead(u, s, pc.rows, pc.segments, pc.inode, pc.read, count);
            PcOk(u, s, next) && Owner(next) && !next.Finish?
  {
    var i := |pc.segments|;
    if NextRead(u, s, pc.rows, pc.segments, pc.inode, pc.read, count).MergeOpen? {
      assert RowOk(u, s, i, pc.rows[i]);
      assert SomeBody(u, s, i, |pc.read|, u.hash(pc.read));
      assert SegmentsOk(u, s, pc.segments + [pc.read]);
    }
  }

  lemma MergeKeepsInv(u: Setup, s: State, c: CallId, count: nat, ok: bool)
    requires Inv(u, s) && c in s.calls && MergePc(s.calls[c])
    ensures Inv(u, Step(u, s, Advance(c, count, ok)))
  {
    var s' := Step(u, s, Advance(c, count, ok));
    MergePcOk(u, s, s.calls[c], count);
    PcSurvives(u, s, s', s'.calls[c]);
    assert TableOk(u, s') by { OkSurvives(u, s, s'); }
    QuietStep(u, s, s', c);
  }

  // ---- the steps that change the status, the directory or the files ----

  lemma ClaimKeepsInv(u: Setup, s: State, c: CallId, ok: bool)
    requires Inv(u, s) && c in s.calls && s.calls[c].CompleteClaim?
    ensures Inv(u, Transition(s, c, s.calls[c], ok))
  {
    var s' := Transition(s, c, s.calls[c], ok);
    OkSurvives(u, s, s');
    if s.status != Uploading {
      QuietStep(u, s, s', c);
    } else {
      OthersSurvive(u, s, s', c);
      assert Owner(s'.calls[c]);
      assert forall d :: d in s'.calls && Owner(s'.calls[d]) ==> d == c;
    }
  }

  /** UploadIntoFolder runs at most once: until now nothing was created. */
  lemma CreateKeepsInv(u: Setup, s: State, c: CallId, ok: bool)
    requires Inv(u, s) && c in s.calls && s.calls[c].CreateFile?
    ensures Inv(u, Transition(s, c, s.calls[c], ok))
  {
    var s' := Transition(s, c, s.calls[c], ok);
    assert PcOk(u, s, s.calls[c]);
    OkSurvives(u, s, s');
    assert s.created == [] by {
      assert Owner(s.calls[c]);
    }
    if !ok {
      QuietStep(u, s, s', c);
    } else {
      OthersSurvive(u, s, s', c);
      QuietOwner(s, s', c);
      assert s'.calls[c].Finish?;
    }
  }

  lemma ReleaseKeepsInv(u: Setup, s: State, c: CallId, ok: bool)
    requires Inv(u, s) && c in s.calls && (s.calls[c].Finish? || s.calls[c].RestoreStatus?)
    ensures Inv(u, Transition(s, c, s.calls[c], ok))
  {
    var s' := Transition(s, c, s.calls[c], ok);
    assert Owner(s.calls[c]);
    OkSurvives(u, s, s');
    OthersSurvive(u, s, s', c);
    assert forall d :: d in s'.calls ==> !Owner(s'.calls[d]);
    if s.calls[c].RestoreStatus? {
      assert s.created == [];
    }
  }

  lemma CancelMarkKeepsInv(u: Setup, s: State, c: CallId, ok: bool)
    requires Inv(u, s) && c in s.calls && s.calls[c].CancelMark?
    ensures Inv(u, Transition(s, c, s.calls[c], ok))
  {
    var s' := Transition(s, c, s.calls[c], ok);
    OkSurvives(u, s, s');
    if s.status != Uploading {
      QuietStep(u, s, s', c);
    } else {
      OthersSurvive(u, s, s', c);
      assert forall d :: d in s'.calls && Owner(s'.calls[d]) ==> d in s.calls && Owner(s.calls[d]);
    }
  }

  lemma RemoveDirKeepsInv(u: Setup, s: State, c: CallId, ok: bool)
    requires Inv(u, s) && c in s.calls && s.calls[c].RemoveDir?
    ensures Inv(u, Transition(s, c, s.calls[c], ok))
  {
    var s' := Transition(s, c, s.calls[c], ok);
    OkSurvives(u, s, s');
    assert PcOk(u, s, s.calls[c]);
    OthersSurvive(u, s, s', c);
    QuietOwner(s, s', c);
    QuietFile(s, s', c);
  }

  lemma TransitionKeepsInv(u: Setup, s: State, c: CallId, ok: bool)
    requires Inv(u, s) && c in s.calls && !ChunkPc(s.calls[c]) && !MergePc(s.calls[c])
    ensures Inv(u, Transition(s, c, s.calls[c], ok))
  {
    assert PcOk(u, s, s.calls[c]);
    match s.calls[c]
    case CompleteClaim => ClaimKeepsInv(u, s, c, ok);
    case CreateFile(_) => CreateKeepsInv(u, s, c, ok);
    case Finish => ReleaseKeepsInv(u, s, c, ok);
    case RestoreStatus => ReleaseKeepsInv(u, s, c, ok);
    case CancelFind =>
      OkSurvives(u, s, Transition(s, c, s.calls[c], ok));
      QuietStep(u, s, Transition(s, c, s.calls[c], ok), c);
    case CancelMark => CancelMarkKeepsInv(u, s, c, ok);
    case RemoveDir => RemoveDirKeepsInv(u, s, c, ok);
    case _ =>
  }

  lemma StepKeepsInv(u: Setup, s: State, e: Event)
    requires Inv(u, s)
    ensures Inv(u, Step(u, s, e))
  {
    match e
    case Arrive(c, first) => ArriveKeepsInv(u, s, c, first);
    case Advance(c, count, ok) =>
      if c in s.calls {
        if ChunkPc(s.calls[c]) { ChunkKeepsInv(u, s, c, count, ok); }
        else if MergePc(s.calls[c]) { MergeKeepsInv(u, s, c, count, ok); }
        else { TransitionKeepsInv(u, s, c, ok); }
      }
  }

  lemma {:induction false} RunKeepsInv(u: Setup, events: seq<Event>)
    ensures Inv(u, Run(u, Init(), events))
    decreases |events|
  {
    if events != [] {
      RunKeepsInv(u, events[..|events| - 1]);
      StepKeepsInv(u, Run(u, Init(), events[..|events| - 1]), events[|events| - 1]);
    }
  }

  // ---- main results: every run, every interleaving ----

  /** The task is completing exactly while one call owns it, and that call finds
      the temp directory in place. */
  lemma OneCallOwnsTheTask(u: Setup, events: seq<Event>)
    ensures var s := Run(u, Init(), events);
            && (s.status == Completing <==> exists c :: c in s.calls && Owner(s.calls[c]))
            && (forall c, d :: c in s.calls && d in s.calls && Owner(s.calls[c]) && Owner(s.calls[d]) ==> c == d)
            && (forall c :: c in s.calls && Owner(s.calls[c]) ==> s.disk.dir)
  {
    RunKeepsInv(u, events);
  }

  /** The final compare-and-set of Complete and its deferred restore always find
      the task completing: the branch that reports a lost transition is dead. */
  lemma FinalTransitionAlwaysSucceeds(u: Setup, events: seq<Event>, c: CallId)
    ensures var s := Run(u, Init(), events);
            c in s.calls ==>
              && !s.calls[c].FinalTransitionLost?
              && (s.calls[c].Finish? || s.calls[c].RestoreStatus? ==> s.status == Completing)
  {
    RunKeepsInv(u, events);
    var s := Run(u, Init(), events);
    if c in s.calls {
      assert PcOk(u, s, s.calls[c]);
      assert s.calls[c].Finish? ==> Owner(s.calls[c]);
    }
  }

  lemma StepKeepsTerminal(u: Setup, s: State, e: Event)
    requires Inv(u, s) && Terminal(s.status)
    ensures Step(u, s, e).status == s.status && Step(u, s, e).created == s.created
  {
    if e.Advance? && e.call in s.calls {
      assert PcOk(u, s, s.calls[e.call]);
      assert !Owner(s.calls[e.call]);
    }
  }

  lemma {:induction false} RunSplits(u: Setup, s: State, first: seq<Event>, then_: seq<Event>)
    ensures Run(u, s, first + then_) == Run(u, Run(u, s, first), then_)
    decreases |then_|
  {
    if then_ == [] {
      assert first + then_ == first;
    } else {
      assert (first + then_)[..|first + then_| - 1] == first + then_[..|then_| - 1];
      RunSplits(u, s, first, then_[..|then_| - 1]);
    }
  }

  /** completed and failed are final, and so is the set of created files. */
  lemma {:induction false} TerminalIsForever(u: Setup, events: seq<Event>, later: seq<Event>)
    requires Terminal(Run(u, Init(), events).status)
    ensures Run(u, Init(), events + later).status == Run(u, Init(), events).status
    ensures Run(u, Init(), events + later).created == Run(u, Init(), events).created
    decreases |later|
  {
    if later == [] {
      assert events + later == events;
    } else {
      var before := later[..|later| - 1];
      assert (events + later)[..|events + later| - 1] == events + before;
      TerminalIsForever(u, events, before);
      RunKeepsInv(u, events + before);
      StepKeepsTerminal(u, Run(u, Init(), events + before), later[|later| - 1]);
    }
  }

  /** At most one user file is created per task, none unless the task completes
      or is about to. */
  lemma AtMostOneFileIsCreated(u: Setup, events: seq<Event>)
    ensures var s := Run(u, Init(), events);
            && |s.created| <= 1
            && (s.status == Completed ==> |s.created| == 1)
            && (s.status == Uploading || s.status == Failed ==> s.created == [])
  {
    RunKeepsInv(u, events);
    var s := Run(u, Init(), events);
    assert forall c :: c in s.calls && s.calls[c].Finish? ==> Owner(s.calls[c]);
  }

  lemma SegmentIsABody(u: Setup, s: State, segments: seq<Content>, n: int)
    requires Injective(u.hash) && SegmentsOk(u, s, segments) && 0 <= n < |segments|
    ensures (n, segments[n]) in s.bodies
  {
    var body :| (n, body) in s.bodies && |body| == |segments[n]| && u.hash(body) == u.hash(segments[n]);
    assert body == segments[n];
  }

  /** The segments of a created file are exactly the task's chunks, segment n is
      byte for byte the body of one single UploadChunk call for number n,
      whatever the calls did to the shared temporary file, and the whole has the
      declared size and hash. */
  lemma CreatedFileIsMadeOfWholeBodies(u: Setup, events: seq<Event>, i: int)
    requires Injective(u.hash) && 0 <= i < |Run(u, Init(), events).created|
    ensures var s := Run(u, Init(), events);
            var segments := s.created[i];
            && |segments| == u.task.totalChunks
            && (forall n :: 0 <= n < |segments| ==>
                  (n, segments[n]) in s.bodies && |segments[n]| == ExpectedChunkSize(u.task, n))
            && |Concat(segments)| == u.task.fileSize
            && (u.task.fileHash.Some? ==> u.hash(Concat(segments)) == u.task.fileHash.value)
  {
    RunKeepsInv(u, events);
    var s := Run(u, Init(), events);
    assert FileOk(u, s, s.created[i]) && HashOk(u, s.created[i]);
    forall n | 0 <= n < |s.created[i]|
      ensures (n, s.created[i][n]) in s.bodies
    {
      SegmentIsABody(u, s, s.created[i], n);
    }
  }

  /** Every accepted body is the client's slice of one file. */
  ghost predicate SendsOnly(u: Setup, s: State, content: Content) {
    forall n, body :: (n, body) in s.bodies && 0 <= n < u.task.totalChunks && |body| == ExpectedChunkSize(u.task, n)
      ==> body == Slice(content, u.task.chunkSize, n)
  }

  /** Round trip over all interleavings: slices sent in any order, repeated,
      resumed or racing, can only ever become the file they were cut from. */
  lemma OnlyTheFileComesOut(u: Setup, events: seq<Event>, content: Content)
    requires Injective(u.hash) && ValidTask(u.task) && |content| == u.task.fileSize
    requires SendsOnly(u, Run(u, Init(), events), content)
    ensures forall segments <- Run(u, Init(), events).created :: Concat(segments) == content
  {
    var s := Run(u, Init(), events);
    forall i | 0 <= i < |s.created|
      ensures Concat(s.created[i]) == content
    {
      CreatedFileIsMadeOfWholeBodies(u, events, i);
      assert s.created[i] == Slices(content, u.task.chunkSize, u.task.totalChunks);
      SlicesMakeTheFile(u.task, content);
    }
  }
}
