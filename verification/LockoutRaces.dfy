/** Visits of one (token, IP) key that interleave: findAccessibleFile and
    findAccessibleCollection (internal/share/service.go) test the lock and update
    the failures in two separate calls of the in-process controller. */
module LockoutRaces {
  import opened Options
  import opened Lockout

  type VisitId = nat

  /** A visit that has not tested the lock, one that has found it open, or one that
      is over. */
  datatype Visitor = Arrived(verdict: Verdict) | Passed(verdict: Verdict) | Done

  datatype State = State(entry: Failures, visitors: map<VisitId, Visitor>, now: Time)

  datatype Event =
    | Arrive(visit: VisitId, verdict: Verdict)
    | Test(visit: VisitId)
    | Update(visit: VisitId)
    | Tick(nanoseconds: nat)

  function UpdatedEntry(e: Failures, verdict: Verdict, now: Time): Failures {
    match verdict
    case WrongPassword => Record(e, now)
    case Refused => e
    case Admitted => NO_FAILURES
  }

  predicate HasPassed(s: State, v: VisitId) {
    v in s.visitors && s.visitors[v].Passed?
  }

  function Step(s: State, e: Event): State {
    match e
    case Arrive(v, verdict) => if v in s.visitors then s else s.(visitors := s.visitors[v := Arrived(verdict)])
    case Test(v) =>
      if v in s.visitors && s.visitors[v].Arrived? then
        s.(visitors := s.visitors[v := if Locked(s.entry, s.now) then Done else Passed(s.visitors[v].verdict)])
      else s
    case Update(v) =>
      if HasPassed(s, v) then
        State(UpdatedEntry(s.entry, s.visitors[v].verdict, s.now), s.visitors[v := Done], s.now)
      else s
    case Tick(n) => s.(now := s.now + n)
  }

  function Run(s: State, events: seq<Event>): State {
    if events == [] then s else Step(Run(s, events[..|events| - 1]), events[|events| - 1])
  }

  /** The event records a wrong password. */
  predicate Fails(s: State, e: Event) {
    e.Update? && HasPassed(s, e.visit) && s.visitors[e.visit].verdict == WrongPassword
  }

  /** The event is an admitted visit's ClearPasswordFailures. */
  predicate Clears(s: State, e: Event) {
    e.Update? && HasPassed(s, e.visit) && s.visitors[e.visit].verdict == Admitted
  }

  /** The guard that locks: a wrong password finds the key open with four counted. */
  predicate IsFifth(s: State, e: Event) {
    Fails(s, e) && !Locked(s.entry, s.now) && s.entry.count + 1 >= FAILURE_LIMIT
  }

  /** Event i of the run was a fifth failure, and nothing cleared it since. */
  predicate LocksAt(s: State, events: seq<Event>, i: nat) {
    && i < |events| && IsFifth(Run(s, events[..i]), events[i])
    && forall j :: i < j < |events| ==> !Clears(Run(s, events[..j]), events[j])
  }

  lemma {:induction false} ClockGoesOn(s: State, events: seq<Event>, i: nat)
    requires i <= |events|
    ensures Run(s, events[..i]).now <= Run(s, events).now
    decreases |events|
  {
    if i < |events| {
      var before := events[..|events| - 1];
      assert before[..i] == events[..i];
      ClockGoesOn(s, before, i);
    } else {
      assert events[..i] == events;
    }
  }

  lemma LocksAtEarlier(s: State, events: seq<Event>, i: nat)
    requires LocksAt(s, events, i) && i < |events| - 1
    ensures LocksAt(s, events[..|events| - 1], i) && !Clears(Run(s, events[..|events| - 1]), events[|events| - 1])
  {
    var before := events[..|events| - 1];
    assert before[..i] == events[..i];
    forall j | i < j < |before|
      ensures !Clears(Run(s, before[..j]), before[j])
    {
      assert before[..j] == events[..j];
    }
  }

  lemma LocksAtLater(s: State, before: seq<Event>, e: Event, i: nat)
    requires LocksAt(s, before, i) && !Clears(Run(s, before), e)
    ensures LocksAt(s, before + [e], i)
  {
    var events := before + [e];
    assert events[..i] == before[..i];
    forall j | i < j < |events|
      ensures !Clears(Run(s, events[..j]), events[j])
    {
      assert events[..j] == before[..j];
      assert before[..|before|] == before;
    }
  }

  /** A fifth failure that nothing cleared still holds the key while it is young. */
  lemma {:induction false} FifthLocks(s: State, events: seq<Event>, i: nat)
    requires LocksAt(s, events, i) && Run(s, events).now < Run(s, events[..i]).now + LOCK
    ensures Run(s, events).entry.lockedTil == Some(Run(s, events[..i]).now + LOCK)
    decreases |events|
  {
    var before := events[..|events| - 1];
    if i < |events| - 1 {
      LocksAtEarlier(s, events, i);
      assert before[..i] == events[..i];
      ClockGoesOn(s, events, |events| - 1);
      FifthLocks(s, before, i);
    }
  }

  /** A lock that was not there has come from such a failure. */
  lemma {:induction false} LockHasFifth(s: State, events: seq<Event>) returns (i: nat)
    requires !Locked(s.entry, s.now) && Locked(Run(s, events).entry, Run(s, events).now)
    ensures LocksAt(s, events, i) && Run(s, events).now < Run(s, events[..i]).now + LOCK
    decreases |events|
  {
    var before, e := events[..|events| - 1], events[|events| - 1];
    var m := Run(s, before);
    if IsFifth(m, e) {
      i := |events| - 1;
    } else {
      ClockGoesOn(s, events, |events| - 1);
      i := LockHasFifth(s, before);
      FifthLocks(s, before, i);
      assert before + [e] == events && before[..i] == events[..i];
      LocksAtLater(s, before, e, i);
    }
  }

  /** The visit's own steps are not among the events. */
  predicate Without(events: seq<Event>, v: VisitId) {
    forall i :: 0 <= i < |events| ==> events[i] != Update(v)
  }

  lemma {:induction false} PassedStays(s: State, events: seq<Event>, v: VisitId)
    requires HasPassed(s, v) && Without(events, v)
    ensures HasPassed(Run(s, events), v) && Run(s, events).visitors[v] == s.visitors[v]
    decreases |events|
  {
    if events != [] {
      PassedStays(s, events[..|events| - 1], v);
    }
  }

  /** An admitted visit finds the key open, other visits come in between, and then it
      clears. The clear removes a live lock if and only if one of the failures in
      between was the fifth, none of the visits in between cleared after it, and
      its ten minutes still run. */
  lemma AdmittedVisitClearsALiveLockIff(s: State, v: VisitId, events: seq<Event>)
    requires v in s.visitors && s.visitors[v] == Arrived(Admitted) && !Locked(s.entry, s.now) && Without(events, v)
    ensures var tested := Step(s, Test(v));
            var before, after := Run(tested, events), Step(Run(tested, events), Update(v));
            && after.entry == NO_FAILURES && !Locked(after.entry, after.now)
            && (Locked(before.entry, before.now)
                <==> exists i: nat ::
                       LocksAt(tested, events, i) && before.now < Run(tested, events[..i]).now + TEN_MINUTES)
  {
    var tested := Step(s, Test(v));
    PassedStays(tested, events, v);
    var before := Run(tested, events);
    if Locked(before.entry, before.now) {
      var i := LockHasFifth(tested, events);
    }
    if i: nat :| LocksAt(tested, events, i) && before.now < Run(tested, events[..i]).now + LOCK {
      FifthLocks(tested, events, i);
    }
  }

  /** Wrong passwords recorded since the last clear, on top of those counted at the
      start when there was none. */
  function Streak(s: State, events: seq<Event>): int {
    if events == [] then s.entry.count
    else
      var before, e := events[..|events| - 1], events[|events| - 1];
      if Clears(Run(s, before), e) then 0 else Streak(s, before) + (if Fails(Run(s, before), e) then 1 else 0)
  }

  lemma {:induction false} StreakDecides(s: State, events: seq<Event>)
    requires Sound(s.entry, s.now) && !Locked(s.entry, s.now) && Run(s, events).now < s.now + LOCK
    ensures var s', streak := Run(s, events), Streak(s, events);
            && (streak < FAILURE_LIMIT ==> s'.entry.count == streak && !Locked(s'.entry, s'.now))
            && (streak >= FAILURE_LIMIT ==> s'.entry.lockedTil.Some? && s.now + LOCK <= s'.entry.lockedTil.value)
    decreases |events|
  {
    if events != [] {
      ClockGoesOn(s, events, |events| - 1);
      StreakDecides(s, events[..|events| - 1]);
      ClockGoesOn(s, events[..|events| - 1], 0);
    }
  }

  /** In a visit shorter than a lock the condition is a count: the clear removes a
      live lock if and only if the wrong passwords since the last clear, those
      counted before included, have come to five. */
  lemma ShortVisitClearsALiveLockIff(s: State, v: VisitId, events: seq<Event>)
    requires v in s.visitors && s.visitors[v] == Arrived(Admitted) && Sound(s.entry, s.now) && !Locked(s.entry, s.now)
    requires Without(events, v) && Run(Step(s, Test(v)), events).now < s.now + TEN_MINUTES
    ensures var tested := Step(s, Test(v));
            && (Locked(Run(tested, events).entry, Run(tested, events).now) <==> Streak(tested, events) >= 5)
            && !Locked(Step(Run(tested, events), Update(v)).entry, Run(tested, events).now)
  {
    PassedStays(Step(s, Test(v)), events, v);
    StreakDecides(Step(s, Test(v)), events);
  }

  // ---- it happens ----

  const UNTOUCHED := State(NO_FAILURES, map[], 0)

  function VerdictOf(v: VisitId): Verdict {
    if v == 0 then Admitted else WrongPassword
  }

  /** n visits, the first of them admitted, that have all passed the test. */
  function Crowd(n: nat): map<VisitId, Visitor> {
    map v: nat | v < n :: Passed(VerdictOf(v))
  }

  function Gather(n: nat): seq<Event> {
    if n == 0 then [] else Gather(n - 1) + [Arrive(n - 1, VerdictOf(n - 1)), Test(n - 1)]
  }

  lemma {:induction false} GatherPasses(n: nat)
    ensures Run(UNTOUCHED, Gather(n)) == State(NO_FAILURES, Crowd(n), 0)
    decreases n
  {
    if n > 0 {
      GatherPasses(n - 1);
      var once := Gather(n - 1) + [Arrive(n - 1, VerdictOf(n - 1))];
      assert once[..|once| - 1] == Gather(n - 1);
      assert Gather(n) == once + [Test(n - 1)];
      assert Gather(n)[..|Gather(n)| - 1] == once;
      assert Crowd(n) == Crowd(n - 1)[n - 1 := Passed(VerdictOf(n - 1))];
    }
  }

  function Wrong(n: nat): seq<Event> {
    if n == 0 then [] else Wrong(n - 1) + [Update(n)]
  }

  /** What n wrong passwords leave of an untouched key, up to the fifth. */
  lemma {:induction false} WrongCounts(n: nat, crowd: State)
    requires n <= 5 && crowd == State(NO_FAILURES, Crowd(6), 0)
    ensures var s := Run(crowd, Wrong(n));
            && s.now == 0
            && (forall v: nat :: v == 0 || n < v <= 5 ==> v in s.visitors && s.visitors[v] == Passed(VerdictOf(v)))
            && s.entry == if n < 5 then Failures(n, None) else Failures(0, Some(LOCK))
    decreases n, crowd
  {
    if n > 0 {
      WrongCounts(n - 1, crowd);
      assert Wrong(n)[..|Wrong(n)| - 1] == Wrong(n - 1);
    }
  }

  /** Six visits find an untouched key open; five of them record wrong passwords, and
      then the sixth clears the lock they have just set. */
  lemma InterleavedClear()
    ensures var crowd := Run(UNTOUCHED, Gather(6));
            var s := Run(crowd, Wrong(5));
            Locked(s.entry, s.now) && !Locked(Step(s, Update(0)).entry, s.now)
  {
    GatherPasses(6);
    WrongCounts(5, Run(UNTOUCHED, Gather(6)));
  }
}
