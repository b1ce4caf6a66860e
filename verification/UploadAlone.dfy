/** The interleaved upload machine and the calls of one client agree: an
    UploadChunk, Complete or Cancel call of UploadProtocol that is left alone does
    what the service call is for, and chunks sent one after the other in any order
    make a complete task. */
module UploadAlone {
  import opened Options
  import opened Chunking
  import opened UploadProtocol
  import opened UploadProgress
  import Uploads
  import UploadClients

  type Send = UploadClients.Send

  // ---- the temp directory ----

  /** No part and no other temp file shares a temp file's inode. */
  ghost predicate DiskOk(disk: Disk) {
    && (forall n :: n in disk.temps ==> disk.temps[n] < disk.nextInode)
    && (forall n :: n in disk.parts ==> disk.parts[n] < disk.nextInode)
    && (forall m, n :: m in disk.temps && n in disk.temps && m != n ==> disk.temps[m] != disk.temps[n])
    && (forall m, n :: m in disk.temps && n in disk.parts ==> disk.temps[m] != disk.parts[n])
  }

  lemma ChunkKeepsDisk(u: Setup, s: State, pc: Pc, count: nat, ok: bool)
    requires DiskOk(s.disk) && ChunkPc(pc)
    ensures DiskOk(NextChunk(u, s, pc, count, ok).disk)
  {
  }

  lemma TransitionKeepsDisk(s: State, c: CallId, pc: Pc, ok: bool)
    requires DiskOk(s.disk)
    ensures DiskOk(Transition(s, c, pc, ok).disk)
  {
    assert Transition(s, c, pc, ok).disk == s.disk || Transition(s, c, pc, ok).disk == RemoveAll(s.disk);
  }

  lemma StepKeepsDisk(u: Setup, s: State, e: Event)
    requires DiskOk(s.disk)
    ensures DiskOk(Step(u, s, e).disk)
  {
    if e.Advance? && e.call in s.calls {
      var pc := s.calls[e.call];
      if ChunkPc(pc) {
        ChunkKeepsDisk(u, s, pc, e.count, e.ok);
      } else if MergePc(pc) {
        assert Step(u, s, e).disk == s.disk;
      } else {
        TransitionKeepsDisk(s, e.call, pc, e.ok);
      }
    }
  }

  lemma {:induction false} RunKeepsDisk(u: Setup, events: seq<Event>)
    ensures DiskOk(Run(u, Init(), events).disk)
    decreases |events|
  {
    if events != [] {
      RunKeepsDisk(u, events[..|events| - 1]);
      StepKeepsDisk(u, Run(u, Init(), events[..|events| - 1]), events[|events| - 1]);
    }
  }

  /** Every part but number n reads as before. */
  ghost predicate OtherPartsKept(disk: Disk, disk': Disk, n: int) {
    forall k :: k != n ==>
      && (k in disk'.parts <==> k in disk.parts)
      && (k in disk.parts ==> Bytes(disk', disk'.parts[k]) == Bytes(disk, disk.parts[k]))
  }

  // ---- one chunk call ----

  ghost predicate Fits(u: Setup, s: State, n: int, body: Content) {
    s.status == Uploading && 0 <= n < u.task.totalChunks && |body| == ExpectedChunkSize(u.task, n)
  }

  /** What an UploadChunk call is for: a chunk that fits an open task is part n, with
      its size and hash recorded; any other changes no row and no part. ok is whether
      the connection holds. */
  ghost predicate Uploaded(u: Setup, s: State, s': State, c: CallId, n: int, body: Content, ok: bool) {
    && s' == s.(calls := s.calls[c := Returned], disk := s'.disk, rows := s'.rows)
    && s'.disk.dir == s.disk.dir && OtherPartsKept(s.disk, s'.disk, n)
    && if ok && Fits(u, s, n, body) then
         && s'.rows == s.rows[n := ChunkRow(n, |body|, Some(u.hash(body)))]
         && n in s'.disk.parts && Bytes(s'.disk, s'.disk.parts[n]) == body
       else
         && s'.rows == s.rows && s'.disk.parts == s.disk.parts
         && (n in s.disk.parts ==> Bytes(s'.disk, s'.disk.parts[n]) == Bytes(s.disk, s.disk.parts[n]))
  }

  /** The directory with what the call has written so far. */
  function Holding(s: State, n: int, bytes: Content): Disk {
    var disk := CreateTemp(s.disk, n);
    disk.(inodes := disk.inodes[TempInode(s.disk, n) := bytes])
  }

  function Renamed(s: State, n: int, body: Content): Disk {
    var disk := Holding(s, n, body);
    if n in disk.temps then RenameTemp(disk, n) else disk
  }

  function Recorded(u: Setup, s: State, n: int, body: Content): map<int, ChunkRow> {
    s.rows[n := ChunkRow(n, |body|, Some(u.hash(body)))]
  }

  /** The state the call has come to from s0, where it began. */
  ghost predicate OnTrack(u: Setup, s0: State, s: State, c: CallId, n: int, body: Content, ok: bool) {
    && c in s.calls
    && var pc := s.calls[c];
       var fits := ok && Fits(u, s0, n, body);
       if pc.ChunkFind? then pc == ChunkFind(n, body) && s == Goto(s0, c, pc)
       else if pc.ChunkCreate? then
         pc == ChunkCreate(n, body) && s == Goto(s0, c, pc) && s0.status == Uploading && 0 <= n < u.task.totalChunks
       else if pc.ChunkWrite? then
         && pc.written <= |body| && pc == ChunkWrite(n, body, TempInode(s0.disk, n), pc.written)
         && s == Goto(s0.(disk := Holding(s0, n, body[..pc.written])), c, pc)
         && s0.status == Uploading && 0 <= n < u.task.totalChunks
       else if pc.ChunkRename? then
         pc == ChunkRename(n, body) && s == Goto(s0.(disk := Holding(s0, n, body)), c, pc) && fits
       else if pc.ChunkUpsert? then
         pc == ChunkUpsert(n, body) && s == Goto(s0.(disk := Renamed(s0, n, body)), c, pc) && fits
       else if pc.ChunkTouch? then
         s == Goto(s0.(disk := Renamed(s0, n, body), rows := Recorded(u, s0, n, body)), c, pc) && fits
       else if pc.ChunkRemoveTemp? then
         && pc.number == n && !fits
         && s == Goto(s0.(disk := Holding(s0, n, Bytes(s.disk, TempInode(s0.disk, n)))), c, pc)
       else pc.Returned? && DiskOk(s.disk) && Uploaded(u, s0, s, c, n, body, ok)
  }

  function Distance(pc: Pc): int {
    if pc.ChunkFind? then 6 + |pc.body|
    else if pc.ChunkCreate? then 5 + |pc.body|
    else if pc.ChunkWrite? then 4 + |pc.body| - pc.written
    else if pc.ChunkRename? then 3
    else if pc.ChunkUpsert? then 2
    else if pc.ChunkTouch? || pc.ChunkRemoveTemp? then 1
    else 0
  }

  ghost predicate Nearer(u: Setup, s0: State, s: State, s': State, c: CallId, n: int, body: Content, ok: bool) {
    && OnTrack(u, s0, s', c, n, body, ok) && c in s.calls
    && (s.calls[c] == Returned || Distance(s'.calls[c]) < Distance(s.calls[c]))
  }

  ghost predicate Begun(s0: State) {
    DiskOk(s0.disk) && (s0.status == Uploading ==> s0.disk.dir)
  }

  lemma StoredPart(u: Setup, s0: State, c: CallId, n: int, body: Content)
    requires Begun(s0) && Fits(u, s0, n, body)
    ensures var s := Goto(s0.(disk := Renamed(s0, n, body), rows := Recorded(u, s0, n, body)), c, Returned);
            DiskOk(s.disk) && Uploaded(u, s0, s, c, n, body, true)
  {
  }

  lemma DroppedTemp(u: Setup, s0: State, c: CallId, n: int, body: Content, bytes: Content, ok: bool)
    requires Begun(s0) && !(ok && Fits(u, s0, n, body))
    ensures var s := Goto(s0.(disk := RemoveTemp(Holding(s0, n, bytes), n)), c, Returned);
            DiskOk(s.disk) && Uploaded(u, s0, s, c, n, body, ok)
  {
  }

  lemma FindGoesOn(u: Setup, s0: State, s: State, c: CallId, n: int, body: Content, ok: bool, count: nat)
    requires Begun(s0) && OnTrack(u, s0, s, c, n, body, ok) && (s.calls[c].ChunkFind? || s.calls[c].ChunkCreate?)
    ensures Nearer(u, s0, s, Step(u, s, Advance(c, count, ok)), c, n, body, ok)
  {
    var pc := s.calls[c];
    if pc.ChunkFind? {
      GotoTwice(s0, c, pc, ChunkCreate(n, body));
      GotoTwice(s0, c, pc, Returned);
    } else {
      var pc' := ChunkWrite(n, body, TempInode(s0.disk, n), 0);
      assert CreateTemp(s0.disk, n) == Holding(s0, n, body[..0]);
      GotoTwice(s0.(disk := Holding(s0, n, [])), c, pc, pc');
    }
  }

  lemma WriteGoesOn(u: Setup, s0: State, s: State, c: CallId, n: int, body: Content, ok: bool, count: nat)
    requires Begun(s0) && OnTrack(u, s0, s, c, n, body, ok) && s.calls[c].ChunkWrite?
    ensures Nearer(u, s0, s, Step(u, s, Advance(c, count, ok)), c, n, body, ok)
  {
    var pc, w := s.calls[c], s.calls[c].written;
    var disk := Holding(s0, n, body[..w]);
    if !ok {
      GotoTwice(s0.(disk := disk), c, pc, ChunkRemoveTemp(n));
    } else if w < |body| {
      var end := Progress(w, count, |body|);
      assert WriteAt(body[..w], w, body[w..end]) == body[..end];
      assert WriteTemp(disk, pc.inode, w, body[w..end]) == Holding(s0, n, body[..end]);
      GotoTwice(s0.(disk := Holding(s0, n, body[..end])), c, pc, ChunkWrite(n, body, pc.inode, end));
    } else {
      assert body[..w] == body;
      GotoTwice(s0.(disk := disk), c, pc, ChunkRemoveTemp(n));
      GotoTwice(s0.(disk := disk), c, pc, ChunkRename(n, body));
    }
  }

  lemma StoreGoesOn(u: Setup, s0: State, s: State, c: CallId, n: int, body: Content, ok: bool, count: nat)
    requires Begun(s0) && OnTrack(u, s0, s, c, n, body, ok)
    requires var pc := s.calls[c]; pc.ChunkRename? || pc.ChunkUpsert? || pc.ChunkTouch?
    ensures Nearer(u, s0, s, Step(u, s, Advance(c, count, ok)), c, n, body, ok)
  {
    var pc := s.calls[c];
    var renamed := s0.(disk := Renamed(s0, n, body));
    var recorded := renamed.(rows := Recorded(u, s0, n, body));
    if pc.ChunkRename? {
      GotoTwice(renamed, c, pc, ChunkUpsert(n, body));
    } else if pc.ChunkUpsert? {
      GotoTwice(recorded, c, pc, ChunkTouch);
    } else {
      GotoTwice(recorded, c, pc, Returned);
      StoredPart(u, s0, c, n, body);
    }
  }

  lemma DropGoesOn(u: Setup, s0: State, s: State, c: CallId, n: int, body: Content, ok: bool, count: nat)
    requires Begun(s0) && OnTrack(u, s0, s, c, n, body, ok) && s.calls[c].ChunkRemoveTemp?
    ensures Nearer(u, s0, s, Step(u, s, Advance(c, count, ok)), c, n, body, ok)
  {
    var bytes := Bytes(s.disk, TempInode(s0.disk, n));
    GotoTwice(s0.(disk := RemoveTemp(Holding(s0, n, bytes), n)), c, s.calls[c], Returned);
    DroppedTemp(u, s0, c, n, body, bytes, ok);
  }

  lemma GoesOn(u: Setup, s0: State, s: State, c: CallId, n: int, body: Content, ok: bool, count: nat)
    requires Begun(s0) && OnTrack(u, s0, s, c, n, body, ok) && s.calls[c] != Returned
    ensures Nearer(u, s0, s, Step(u, s, Advance(c, count, ok)), c, n, body, ok)
  {
    var pc := s.calls[c];
    if pc.ChunkFind? || pc.ChunkCreate? {
      FindGoesOn(u, s0, s, c, n, body, ok, count);
    } else if pc.ChunkWrite? {
      WriteGoesOn(u, s0, s, c, n, body, ok, count);
    } else if pc.ChunkRemoveTemp? {
      DropGoesOn(u, s0, s, c, n, body, ok, count);
    } else {
      StoreGoesOn(u, s0, s, c, n, body, ok, count);
    }
  }

  lemma {:induction false} GetsThere(u: Setup, s0: State, s: State, c: CallId, n: int, body: Content, counts: seq<nat>,
                                     ok: bool)
    requires Begun(s0) && OnTrack(u, s0, s, c, n, body, ok) && Distance(s.calls[c]) <= |counts|
    ensures var s' := Drive(u, s, c, counts, ok);
            DiskOk(s'.disk) && Uploaded(u, s0, s', c, n, body, ok)
    decreases |counts|
  {
    if s.calls[c] == Returned {
      ReturnedStays(u, s, c, counts, ok);
    } else {
      GoesOn(u, s0, s, c, n, body, ok, counts[0]);
      GetsThere(u, s0, Step(u, s, Advance(c, counts[0], ok)), c, n, body, counts[1..], ok);
    }
  }

  lemma ChunkAlone(u: Setup, s: State, c: CallId, n: int, body: Content, counts: seq<nat>, ok: bool)
    requires Begun(s) && c in s.calls && s.calls[c] == ChunkFind(n, body) && |body| + 6 <= |counts|
    ensures var s' := Drive(u, s, c, counts, ok);
            DiskOk(s'.disk) && Uploaded(u, s, s', c, n, body, ok)
  {
    assert s.calls[c := s.calls[c]] == s.calls;
    GetsThere(u, s, s, c, n, body, counts, ok);
  }

  /** Main result: in every reachable state an UploadChunk call that is left alone
      from there on, however many bytes each write transfers, stores and records
      exactly its own chunk when the task is open, the chunk fits and the connection
      holds, and otherwise leaves rows and parts as they were. */
  lemma ChunkAloneIsTheCall(u: Setup, events: seq<Event>, c: CallId, n: int, body: Content, counts: seq<nat>, ok: bool)
    requires ValidTask(u.task) && |body| + 6 <= |counts|
    requires c in Run(u, Init(), events).calls && Run(u, Init(), events).calls[c] == ChunkFind(n, body)
    ensures var s := Run(u, Init(), events);
            Uploaded(u, s, Drive(u, s, c, counts, ok), c, n, body, ok)
  {
    RunKeepsDisk(u, events);
    RunKeepsInv(u, events);
    ChunkAlone(u, Run(u, Init(), events), c, n, body, counts, ok);
  }

  // ---- chunks one after the other ----

  /** A chunk call and how many bytes each of its writes transfers. */
  datatype Sending = Sending(send: Send, counts: seq<nat>)

  ghost predicate LongEnough(sendings: seq<Sending>) {
    forall i :: 0 <= i < |sendings| ==> |sendings[i].send.body| + 6 <= |sendings[i].counts|
  }

  function Sends(sendings: seq<Sending>): (sends: seq<Send>)
    ensures |sends| == |sendings| && forall i :: 0 <= i < |sends| ==> sends[i] == sendings[i].send
  {
    seq(|sendings|, i requires 0 <= i < |sendings| => sendings[i].send)
  }

  /** The calls arrive one by one, each when the one before it has returned. */
  ghost function SendAll(u: Setup, sendings: seq<Sending>): State {
    if sendings == [] then Init()
    else
      var c := |sendings| - 1;
      SendOne(u, SendAll(u, sendings[..c]), c, sendings[c])
  }

  ghost function SendOne(u: Setup, s: State, c: CallId, sending: Sending): State {
    var first := ChunkFind(sending.send.number, sending.send.body);
    Drive(u, Step(u, s, Arrive(c, first)), c, sending.counts, true)
  }

  /** Rows and parts are those of the map. */
  ghost predicate Holds(u: Setup, s: State, parts: map<int, Content>) {
    && s.rows.Keys == parts.Keys
    && forall k :: k in parts ==>
         && 0 <= k < u.task.totalChunks && |parts[k]| == ExpectedChunkSize(u.task, k)
         && s.rows[k] == ChunkRow(k, |parts[k]|, Some(u.hash(parts[k])))
         && k in s.disk.parts && Bytes(s.disk, s.disk.parts[k]) == parts[k]
  }

  ghost predicate Open(s: State, n: nat) {
    && s.status == Uploading && s.disk.dir && DiskOk(s.disk) && s.created == []
    && forall c :: c in s.calls ==> c < n
  }

  /** The machine, call by call, holds what the service class holds. */
  lemma {:induction false} SentIsTaken(u: Setup, sendings: seq<Sending>)
    requires ValidTask(u.task) && LongEnough(sendings)
    ensures Open(SendAll(u, sendings), |sendings|)
    ensures Holds(u, SendAll(u, sendings), UploadClients.Taken(u.task, map[], Sends(sendings)))
    decreases |sendings|
  {
    if sendings != [] {
      var c := |sendings| - 1;
      var before := sendings[..c];
      assert Sends(sendings)[..c] == Sends(before);
      SentIsTaken(u, before);
      OneMoreSend(u, SendAll(u, before), c, UploadClients.Taken(u.task, map[], Sends(before)), sendings[c]);
    }
  }

  lemma OneMoreSend(u: Setup, s: State, c: CallId, parts: map<int, Content>, sending: Sending)
    requires Open(s, c) && Holds(u, s, parts) && |sending.send.body| + 6 <= |sending.counts|
    ensures var send, s' := sending.send, SendOne(u, s, c, sending);
            && Open(s', c + 1)
            && Holds(u, s', if UploadClients.Accepted(u.task, send) then parts[send.number := send.body] else parts)
  {
    var n, body := sending.send.number, sending.send.body;
    var s1 := Step(u, s, Arrive(c, ChunkFind(n, body)));
    assert s1.disk == s.disk && s1.rows == s.rows && s1.status == s.status && s1.calls[c] == ChunkFind(n, body);
    ChunkAlone(u, s1, c, n, body, sending.counts, true);
    var s' := SendOne(u, s, c, sending);
    if UploadClients.Accepted(u.task, sending.send) {
      HoldsOneMore(u, s, s', parts, n, body);
    } else {
      HoldsTheSame(u, s, s', parts, n);
    }
  }

  lemma HoldsOneMore(u: Setup, s: State, s': State, parts: map<int, Content>, n: int, body: Content)
    requires Holds(u, s, parts) && OtherPartsKept(s.disk, s'.disk, n)
    requires 0 <= n < u.task.totalChunks && |body| == ExpectedChunkSize(u.task, n)
    requires s'.rows == s.rows[n := ChunkRow(n, |body|, Some(u.hash(body)))]
    requires n in s'.disk.parts && Bytes(s'.disk, s'.disk.parts[n]) == body
    ensures Holds(u, s', parts[n := body])
  {
  }

  lemma HoldsTheSame(u: Setup, s: State, s': State, parts: map<int, Content>, n: int)
    requires Holds(u, s, parts) && s'.rows == s.rows && OtherPartsKept(s.disk, s'.disk, n)
    requires n in s.disk.parts ==> n in s'.disk.parts
    requires n in s.disk.parts ==> Bytes(s'.disk, s'.disk.parts[n]) == Bytes(s.disk, s.disk.parts[n])
    ensures Holds(u, s', parts)
  {
  }

  // ---- Complete after them ----

  lemma HeldPartsAreStored(u: Setup, s: State, parts: map<int, Content>)
    requires ValidTask(u.task) && Holds(u, s, parts)
    ensures 0 <= u.task.totalChunks
    ensures AllThere(u, s) <==> UploadClients.Full(u.task, parts)
    ensures AllThere(u, s) ==> Stored(u, s.disk, Rows(u, s), PartSeq(parts, u.task.totalChunks))
  {
    TotalChunksCover(u.task);
    Uploads.RowListShape(s.rows, u.task.totalChunks);
  }

  ghost function LastBodies(u: Setup, sends: seq<Send>): seq<Content> {
    PartSeq(UploadClients.Taken(u.task, map[], sends), if u.task.totalChunks < 0 then 0 else u.task.totalChunks)
  }

  /** What a Complete makes of the sends: the file of the last bodies taken, or the
      task as it was. */
  ghost predicate Completes(u: Setup, sends: seq<Send>, ok: bool) {
    && UploadClients.Covers(u.task, sends) && ok
    && (u.task.fileHash.Some? ==> u.task.fileHash.value == u.hash(Concat(LastBodies(u, sends))))
  }

  ghost function SentThenCompleted(u: Setup, sendings: seq<Sending>, counts: seq<nat>, ok: bool): State {
    var c := |sendings|;
    Drive(u, Step(u, SendAll(u, sendings), Arrive(c, CompleteFind)), c, counts, ok)
  }

  lemma LastBodiesMakeTheFileIff(u: Setup, sends: seq<Send>, content: Content)
    requires ValidTask(u.task) && UploadClients.Covers(u.task, sends) && |content| == u.task.fileSize
    ensures Concat(LastBodies(u, sends)) == content <==> UploadClients.EndsOnSlices(u.task, sends, content)
  {
    UploadClients.AnyOrderMakesTheFileIff(u.task, sends, content);
  }

  lemma SentIsReady(u: Setup, sendings: seq<Sending>, ok: bool)
    requires ValidTask(u.task) && LongEnough(sendings)
    ensures var s := Step(u, SendAll(u, sendings), Arrive(|sendings|, CompleteFind));
            && s == Goto(SendAll(u, sendings), |sendings|, CompleteFind)
            && s.created == [] && Ready(u, s, LastBodies(u, Sends(sendings)))
            && (Succeeds(u, s, LastBodies(u, Sends(sendings)), ok) <==> Completes(u, Sends(sendings), ok))
  {
    var s := Step(u, SendAll(u, sendings), Arrive(|sendings|, CompleteFind));
    SentIsTaken(u, sendings);
    HeldPartsAreStored(u, s, UploadClients.Taken(u.task, map[], Sends(sendings)));
    UploadClients.CoversIff(u.task, Sends(sendings));
  }

  /** Main result: chunks sent one after the other, in any order and with any repeats
      and refusals, then a Complete. One file comes of it exactly when every number was
      taken, a declared hash fits and the file is accepted; it is made of the last
      bodies taken, and is the content exactly when these are its slices. Otherwise the
      task is open again, with all it had. */
  lemma SentChunksMakeTheFile(u: Setup, sendings: seq<Sending>, counts: seq<nat>, ok: bool, content: Content)
    requires ValidTask(u.task) && LongEnough(sendings) && |content| == u.task.fileSize
    requires Enough(LastBodies(u, Sends(sendings))) <= |counts|
    ensures var s, sends := SentThenCompleted(u, sendings, counts, ok), Sends(sendings);
            && |sendings| in s.calls && s.calls[|sendings|] == Returned
            && if Completes(u, sends, ok) then
                 && s.status == Completed && s.created == [LastBodies(u, sends)]
                 && (Concat(s.created[0]) == content <==> UploadClients.EndsOnSlices(u.task, sends, content))
               else s == Goto(SendAll(u, sendings), |sendings|, Returned) && s.created == []
  {
    var sends, c := Sends(sendings), |sendings|;
    var s := Goto(SendAll(u, sendings), c, CompleteFind);
    SentIsReady(u, sendings, ok);
    CompleteAloneSucceeds(u, s, c, LastBodies(u, sends), counts, ok);
    if Completes(u, sends, ok) {
      LastBodiesMakeTheFileIff(u, sends, content);
    } else {
      GotoTwice(SendAll(u, sendings), c, CompleteFind, Returned);
    }
  }
}
