/** Download slots of shares and collections (internal/share/repository.go and the
    open and save calls of internal/share/service.go): reservations and releases
    are single UPDATEs, and calls interleave between them. */
module ShareSlots {
  import opened Options
  import opened Totals

  type Token = string
  type CallId = nat

  /** The counting columns of file_shares or share_collections. */
  datatype Slots = Slots(collection: bool, maxDownloads: Option<int>, count: int, expiresAt: Option<Time>)

  predicate Live(row: Slots, now: Time) {
    row.expiresAt.None? || now < row.expiresAt.value
  }

  /** ReserveDownload (one slot) and ReserveCollectionDownloads; None when the
      UPDATE matches no row. */
  function Reserve(row: Slots, n: int, now: Time): Option<Slots> {
    if n <= 0 || !Live(row, now) then None
    else if !row.collection && row.maxDownloads.Some? && row.count >= row.maxDownloads.value then None
    else if row.collection && row.maxDownloads.Some? && row.count + n > row.maxDownloads.value then None
    else Some(row.(count := row.count + (if row.collection then n else 1)))
  }

  /** ReleaseDownloadReservation and ReleaseCollectionDownloadReservations, with
      the guard of the one and the clamp of the other. */
  function Release(row: Slots, n: int): Slots {
    if !row.collection then (if row.count > 0 then row.(count := row.count - 1) else row)
    else if n <= 0 then row
    else row.(count := if row.count >= n then row.count - n else 0)
  }

  /** A reservation is made exactly for a positive number of slots of a row that is in
      time and has room for them, one at a time for a file share; it adds them to the
      count and changes nothing else. What a release gives back is the same, never below
      zero. */
  lemma ReserveIff(row: Slots, n: int, now: Time)
    requires !row.collection ==> n <= 1
    ensures var r := Reserve(row, n, now);
            && (r.Some? <==>
                  && 0 < n && (row.expiresAt.Some? ==> now < row.expiresAt.value)
                  && (row.maxDownloads.Some? ==> row.count + n <= row.maxDownloads.value))
            && (r.Some? ==> r.value == row.(count := row.count + n))
            && (r.Some? && 0 <= row.count ==> Release(r.value, n) == row)
  {
  }

  // ---- interleaved calls ----

  /** Where a call is: about to reserve (its checks done), saving with slots
      reserved, or about to release them after a failed save. Information and preview
      calls come nowhere near a count (ShareServices). */
  datatype Call =
    | Asking(token: Token, n: int, saving: bool)
    | Saving(token: Token, n: int)
    | Releasing(token: Token, n: int)
    | Ended

  /** Per token, kept for the proofs: slots ever reserved and released, and slots
      of downloads served and saves completed. */
  datatype Tally = Tally(reserved: int, released: int, kept: int)

  datatype State = State(slots: map<Token, Slots>, calls: map<CallId, Call>, now: Time, tallies: map<Token, Tally>)

  datatype Event =
    | Create(token: Token, collection: bool, maxDownloads: Option<int>, expiresAt: Time)
    | Remove(token: Token)
    | Tick(nanoseconds: nat)
    | Arrive(call: CallId, first: Call)
    | Advance(call: CallId, saved: bool)

  const START := State(map[], map[], 0, map[])

  /** A file share is asked for one slot at a time. */
  predicate MayArrive(s: State, first: Call) {
    && first.Asking? && 0 < first.n && first.token in s.slots
    && (!s.slots[first.token].collection ==> first.n == 1)
  }

  function Add(t: Tally, reserved: int, released: int, kept: int): Tally {
    Tally(t.reserved + reserved, t.released + released, t.kept + kept)
  }

  function StepAsking(s: State, c: CallId): State
    requires c in s.calls && s.calls[c].Asking?
  {
    var call := s.calls[c];
    var t := call.token;
    var row := if t in s.slots then Reserve(s.slots[t], call.n, s.now) else None;
    if row.None? || t !in s.tallies then s.(calls := s.calls[c := Ended])
    else
      State(s.slots[t := row.value], s.calls[c := if call.saving then Saving(t, call.n) else Ended], s.now,
            s.tallies[t := Add(s.tallies[t], call.n, 0, if call.saving then 0 else call.n)])
  }

  function StepSaving(s: State, c: CallId, saved: bool): State
    requires c in s.calls && s.calls[c].Saving?
  {
    var call := s.calls[c];
    var t := call.token;
    if !saved then s.(calls := s.calls[c := Releasing(t, call.n)])
    else s.(calls := s.calls[c := Ended],
            tallies := if t in s.tallies then s.tallies[t := Add(s.tallies[t], 0, 0, call.n)] else s.tallies)
  }

  function StepReleasing(s: State, c: CallId): State
    requires c in s.calls && s.calls[c].Releasing?
  {
    var call := s.calls[c];
    var t := call.token;
    if t !in s.slots || t !in s.tallies then s.(calls := s.calls[c := Ended])
    else State(s.slots[t := Release(s.slots[t], call.n)], s.calls[c := Ended], s.now,
               s.tallies[t := Add(s.tallies[t], 0, call.n, 0)])
  }

  function Step(s: State, e: Event): State {
    match e
    case Create(t, collection, maxDownloads, expiresAt) =>
      if t in s.tallies || expiresAt <= s.now || (maxDownloads.Some? && maxDownloads.value <= 0) then s
      else s.(slots := s.slots[t := Slots(collection, maxDownloads, 0, Some(expiresAt))],
          tallies := s.tallies[t := Tally(0, 0, 0)])
    case Remove(t) => s.(slots := s.slots - {t})
    case Tick(n) => s.(now := s.now + n)
    case Arrive(c, first) => if c in s.calls || !MayArrive(s, first) then s else s.(calls := s.calls[c := first])
    case Advance(c, saved) =>
      if c !in s.calls then s
      else if s.calls[c].Asking? then StepAsking(s, c)
      else if s.calls[c].Saving? then StepSaving(s, c, saved)
      else if s.calls[c].Releasing? then StepReleasing(s, c)
      else s
  }

  function Run(s: State, events: seq<Event>): State {
    if events == [] then s else Step(Run(s, events[..|events| - 1]), events[|events| - 1])
  }

  // ---- the accounts balance ----

  predicate HoldsSlots(call: Call, t: Token) {
    (call.Saving? || call.Releasing?) && call.token == t
  }

  function HeldSlots(calls: map<CallId, Call>, t: Token): map<CallId, int> {
    map c | c in calls && HoldsSlots(calls[c], t) :: calls[c].n
  }

  /** Slots reserved by calls that have neither completed nor released them. */
  ghost function Outstanding(calls: map<CallId, Call>, t: Token): int {
    Total(HeldSlots(calls, t))
  }

  predicate CallOk(s: State, call: Call) {
    call.Asking? || call.Saving? || call.Releasing? ==>
      && 0 < call.n && call.token in s.tallies
      && (call.token in s.slots && !s.slots[call.token].collection ==> call.n == 1)
  }

  ghost predicate TokenOk(s: State, t: Token) {
    t in s.tallies && t in s.slots ==>
      var row, tally := s.slots[t], s.tallies[t];
      && row.count == tally.reserved - tally.released == tally.kept + Outstanding(s.calls, t)
      && 0 <= tally.kept
      && (row.maxDownloads.Some? ==> 0 < row.maxDownloads.value && row.count <= row.maxDownloads.value)
  }

  ghost predicate Inv(s: State) {
    && (forall t :: t in s.slots ==> t in s.tallies)
    && (forall c :: c in s.calls ==> CallOk(s, s.calls[c]))
    && (forall t :: TokenOk(s, t))
  }

  lemma OutstandingAfter(calls: map<CallId, Call>, c: CallId, call: Call, t: Token)
    ensures Outstanding(calls[c := call], t)
         == Outstanding(calls, t)
            + (if HoldsSlots(call, t) then call.n else 0)
            - (if c in calls && HoldsSlots(calls[c], t) then calls[c].n else 0)
  {
    var held, held' := HeldSlots(calls, t), HeldSlots(calls[c := call], t);
    var rest := held - {c};
    if c in held { TotalSplit(held, c); } else { assert held == rest; }
    if HoldsSlots(call, t) {
      assert held' == rest[c := call.n];
      TotalPut(rest, c, call.n);
    } else {
      assert held' == rest;
    }
  }

  lemma HeldIsPartOfOutstanding(calls: map<CallId, Call>, c: CallId, t: Token)
    requires c in calls && HoldsSlots(calls[c], t)
    requires forall d :: d in calls && HoldsSlots(calls[d], t) ==> 0 < calls[d].n
    ensures 0 < calls[c].n <= Outstanding(calls, t)
  {
    TotalBounds(HeldSlots(calls, t));
    assert HeldSlots(calls, t)[c] == calls[c].n;
  }

  lemma AskingKeeps(s: State, c: CallId)
    requires Inv(s) && c in s.calls && s.calls[c].Asking?
    ensures Inv(StepAsking(s, c))
  {
    var s' := StepAsking(s, c);
    forall t
      ensures TokenOk(s', t)
    {
      assert TokenOk(s, t);
      OutstandingAfter(s.calls, c, s'.calls[c], t);
    }
  }

  lemma SavingKeeps(s: State, c: CallId, saved: bool)
    requires Inv(s) && c in s.calls && s.calls[c].Saving?
    ensures Inv(StepSaving(s, c, saved))
  {
    var s' := StepSaving(s, c, saved);
    forall t
      ensures TokenOk(s', t)
    {
      assert TokenOk(s, t);
      OutstandingAfter(s.calls, c, s'.calls[c], t);
    }
  }

  lemma ReleasingKeeps(s: State, c: CallId)
    requires Inv(s) && c in s.calls && s.calls[c].Releasing?
    ensures Inv(StepReleasing(s, c))
    ensures s.calls[c].token in s.slots ==> s.calls[c].n <= s.slots[s.calls[c].token].count
  {
    var s' := StepReleasing(s, c);
    HeldIsPartOfOutstanding(s.calls, c, s.calls[c].token);
    assert TokenOk(s, s.calls[c].token);
    forall t
      ensures TokenOk(s', t)
    {
      assert TokenOk(s, t);
      OutstandingAfter(s.calls, c, s'.calls[c], t);
    }
  }

  lemma QuietCallKeeps(s: State, c: CallId, call: Call)
    requires Inv(s) && !call.Saving? && !call.Releasing? && CallOk(s, call)
    requires c in s.calls ==> s.calls[c].Ended?
    ensures Inv(s.(calls := s.calls[c := call]))
  {
    var s' := s.(calls := s.calls[c := call]);
    forall t
      ensures TokenOk(s', t)
    {
      assert TokenOk(s, t);
      OutstandingAfter(s.calls, c, call, t);
    }
  }

  /** A new share starts empty, and no call can hold slots of an unknown token. */
  lemma CreateKeeps(s: State, t: Token, row: Slots)
    requires Inv(s) && t !in s.tallies && row.count == 0 && (row.maxDownloads.Some? ==> 0 < row.maxDownloads.value)
    ensures Inv(s.(slots := s.slots[t := row], tallies := s.tallies[t := Tally(0, 0, 0)]))
  {
    var s' := s.(slots := s.slots[t := row], tallies := s.tallies[t := Tally(0, 0, 0)]);
    assert HeldSlots(s.calls, t) == map[];
    forall t'
      ensures TokenOk(s', t')
    {
      assert TokenOk(s, t');
    }
  }

  lemma RestKeeps(s: State, s': State)
    requires Inv(s) && s'.calls == s.calls && s'.tallies == s.tallies
    requires forall t :: t in s'.slots ==> t in s.slots && s'.slots[t] == s.slots[t]
    ensures Inv(s')
  {
    forall t
      ensures TokenOk(s', t)
    {
      assert TokenOk(s, t);
    }
  }

  lemma StepKeepsInv(s: State, e: Event)
    requires Inv(s)
    ensures Inv(Step(s, e))
  {
    match e
    case Create(t, collection, maxDownloads, expiresAt) =>
      if Step(s, e) != s {
        CreateKeeps(s, t, Slots(collection, maxDownloads, 0, Some(expiresAt)));
      }
    case Remove(t) => RestKeeps(s, s.(slots := s.slots - {t}));
    case Tick(n) => RestKeeps(s, s.(now := s.now + n));
    case Arrive(c, first) =>
      if c !in s.calls && MayArrive(s, first) {
        QuietCallKeeps(s, c, first);
      }
    case Advance(c, saved) =>
      if c in s.calls {
        if s.calls[c].Asking? {
          AskingKeeps(s, c);
        } else if s.calls[c].Saving? {
          SavingKeeps(s, c, saved);
        } else if s.calls[c].Releasing? {
          ReleasingKeeps(s, c);
        }
      }
  }

  lemma {:induction false} RunKeepsInv(s: State, events: seq<Event>)
    requires Inv(s)
    ensures Inv(Run(s, events))
    decreases |events|
  {
    if events != [] {
      RunKeepsInv(s, events[..|events| - 1]);
      StepKeepsInv(Run(s, events[..|events| - 1]), events[|events| - 1]);
    }
  }

  lemma RunsBalance(events: seq<Event>)
    ensures Inv(Run(START, events))
  {
    RunKeepsInv(START, events);
  }

  /** The count of a live share is what was reserved less what was released, never
      negative and never over the limit; it is also what was delivered plus what
      calls in flight still hold, so no more is ever delivered than allowed. */
  lemma CountsBalance(events: seq<Event>, t: Token)
    requires t in Run(START, events).slots
    ensures var s := Run(START, events);
            t in s.tallies
            && var row, tally := s.slots[t], s.tallies[t];
               && row.count == tally.reserved - tally.released
               && row.count == tally.kept + Outstanding(s.calls, t)
               && 0 <= tally.kept <= row.count && 0 <= Outstanding(s.calls, t)
               && (row.maxDownloads.Some? ==> tally.kept <= row.count <= row.maxDownloads.value)
  {
    RunsBalance(events);
    var s := Run(START, events);
    assert TokenOk(s, t);
    TotalBounds(HeldSlots(s.calls, t));
  }

  /** The guard and the clamp of the releases never come into play: a release
      always gives back exactly what its call reserved. */
  lemma ReleaseIsExact(events: seq<Event>, c: CallId)
    requires c in Run(START, events).calls && Run(START, events).calls[c].Releasing?
    requires Run(START, events).calls[c].token in Run(START, events).slots
    ensures var s := Run(START, events);
            var row := s.slots[s.calls[c].token];
            Release(row, s.calls[c].n) == row.(count := row.count - s.calls[c].n) && 0 <= row.count - s.calls[c].n
  {
    RunsBalance(events);
    var s := Run(START, events);
    ReleasingKeeps(s, c);
    assert CallOk(s, s.calls[c]);
  }

  // ---- calls left alone ----

  lemma RunOn(s: State, events: seq<Event>, e: Event)
    ensures Run(s, events + [e]) == Step(Run(s, events), e)
  {
    assert (events + [e])[..|events|] == events;
  }

  /** The count and the call that slots of a row taken or not leave behind. */
  ghost predicate Leaves(s: State, s': State, c: CallId, t: Token, count: int, kept: int) {
    && t in s'.slots && t in s.slots && s'.slots == s.slots[t := s.slots[t].(count := count)]
    && c in s'.calls && s'.calls[c] == Ended
    && t in s'.tallies && t in s.tallies && s'.tallies[t].kept == s.tallies[t].kept + kept
  }

  /** Whether there are slots for the call. */
  predicate Grants(s: State, t: Token, n: int) {
    && t in s.slots && Live(s.slots[t], s.now)
    && (s.slots[t].maxDownloads.Some? ==> s.slots[t].count + n <= s.slots[t].maxDownloads.value)
  }

  /** A download that nothing disturbs takes its slots for good if they are there, and
      none otherwise. */
  lemma DownloadAlone(s: State, c: CallId, t: Token, n: int)
    requires c !in s.calls && t in s.slots && t in s.tallies && 0 < n && (!s.slots[t].collection ==> n == 1)
    ensures var s' := Run(s, [Arrive(c, Asking(t, n, false)), Advance(c, true)]);
            if Grants(s, t, n) then Leaves(s, s', c, t, s.slots[t].count + n, n)
            else Leaves(s, s', c, t, s.slots[t].count, 0)
  {
    var e := Arrive(c, Asking(t, n, false));
    RunOn(s, [], e);
    RunOn(s, [e], Advance(c, true));
    assert [] + [e] == [e] && [e] + [Advance(c, true)] == [e, Advance(c, true)];
    assert s.slots[t := s.slots[t]] == s.slots;
  }

  /** A save takes its slots before it saves, and keeps them exactly when the save
      succeeds; a failed save gives back what it took. */
  lemma SaveAlone(s: State, c: CallId, t: Token, n: int, saved: bool)
    requires c !in s.calls && t in s.tallies && 0 < n && Grants(s, t, n) && (!s.slots[t].collection ==> n == 1)
    requires 0 <= s.slots[t].count
    ensures var s1 := Run(s, [Arrive(c, Asking(t, n, true)), Advance(c, true)]);
            && s1.slots == s.slots[t := s.slots[t].(count := s.slots[t].count + n)]
            && var s' := Step(Step(s1, Advance(c, saved)), Advance(c, saved));
               if saved then Leaves(s, s', c, t, s.slots[t].count + n, n) else Leaves(s, s', c, t, s.slots[t].count, 0)
  {
    var e := Arrive(c, Asking(t, n, true));
    RunOn(s, [], e);
    RunOn(s, [e], Advance(c, true));
    assert [] + [e] == [e] && [e] + [Advance(c, true)] == [e, Advance(c, true)];
    assert s.slots[t := s.slots[t]] == s.slots;
  }

  /** A share that is created with an expiry ahead and a positive limit or none starts
      with no download; removed it is gone. */
  lemma CreatedAndRemoved(s: State, t: Token, collection: bool, maxDownloads: Option<int>, expiresAt: Time)
    requires t !in s.tallies && s.now < expiresAt && (maxDownloads.Some? ==> 0 < maxDownloads.value)
    ensures var s' := Step(s, Create(t, collection, maxDownloads, expiresAt));
            && t in s'.slots && t in s'.tallies && s'.slots[t] == Slots(collection, maxDownloads, 0, Some(expiresAt))
            && t !in Step(s', Remove(t)).slots
  {
  }
}
