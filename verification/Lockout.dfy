/** The password lockout of internal/share/access_control.go, in process and as
    a Redis script, for one (token, IP) key. */
module Lockout {
  import opened Options
  import RateLimit

  const FAILURE_LIMIT: int := 5
  const LOCK: Time := 600 * SECOND

  /** Ten minutes in nanoseconds. */
  const TEN_MINUTES: Time := 600_000_000_000

  /** A missing map entry is the zero value: no failures, a lock in the past. */
  datatype Failures = Failures(count: int, lockedTil: Option<Time>)

  const NO_FAILURES := Failures(0, None)

  predicate Locked(e: Failures, now: Time) {
    e.lockedTil.Some? && now < e.lockedTil.value
  }

  function Record(e: Failures, now: Time): Failures {
    if Locked(e, now) then e
    else if e.count + 1 >= FAILURE_LIMIT then Failures(0, Some(now + LOCK))
    else e.(count := e.count + 1)
  }

  type Counter = RateLimit.Counter

  /** The failure counter and the lock key of one (token, IP) pair. */
  datatype RedisFailures = RedisFailures(failures: Option<Counter>, lock: Option<Counter>)

  const NO_KEYS := RedisFailures(None, None)

  predicate RedisLocked(r: RedisFailures, now: Time) {
    RateLimit.Live(r.lock, now).Some?
  }

  function RedisRecord(r: RedisFailures, now: Time): RedisFailures {
    if RedisLocked(r, now) then r
    else
      var live := RateLimit.Live(r.failures, now);
      var counted := if live.None? then RateLimit.Counter(1, Some(now + LOCK))
                     else live.value.(value := live.value.value + 1);
      if counted.value >= FAILURE_LIMIT then RedisFailures(None, Some(RateLimit.Counter(1, Some(now + LOCK))))
      else r.(failures := Some(counted))
  }

  /** ClearPasswordFailures deletes the counter and leaves the lock key. */
  function RedisClear(r: RedisFailures): RedisFailures {
    r.(failures := None)
  }

  // ---- how many failures count in ten minutes ----

  datatype Event = Fail(at: Time) | Clear(at: Time)

  /** A clock that never goes back, and no clear in the ten minutes from a. */
  ghost predicate History(events: seq<Event>, a: Time, now: Time) {
    && (forall i :: 0 <= i < |events| ==> now <= events[i].at)
    && (forall i, j :: 0 <= i < j < |events| ==> events[i].at <= events[j].at)
    && (forall i :: 0 <= i < |events| && events[i].Clear? ==> !(a <= events[i].at < a + TEN_MINUTES))
  }

  function After(e: Failures, event: Event): Failures {
    if event.Fail? then Record(e, event.at) else NO_FAILURES
  }

  function RedisAfter(r: RedisFailures, event: Event): RedisFailures {
    if event.Fail? then RedisRecord(r, event.at) else RedisClear(r)
  }

  /** Failures that are counted, not dropped under a lock, from a on. */
  ghost function Counted(e: Failures, events: seq<Event>, a: Time): nat
    decreases |events|
  {
    if events == [] then 0
    else
      var v := events[0];
      (if v.Fail? && !Locked(e, v.at) && a <= v.at < a + TEN_MINUTES then 1 else 0)
        + Counted(After(e, v), events[1..], a)
  }

  ghost function RedisCounted(r: RedisFailures, events: seq<Event>, a: Time): nat
    decreases |events|
  {
    if events == [] then 0
    else
      var v := events[0];
      (if v.Fail? && !RedisLocked(r, v.at) && a <= v.at < a + TEN_MINUTES then 1 else 0)
      + RedisCounted(RedisAfter(r, v), events[1..], a)
  }

  ghost predicate Sound(e: Failures, now: Time) {
    && 0 <= e.count < FAILURE_LIMIT
    && (e.lockedTil.Some? ==> e.lockedTil.value <= now + LOCK)
  }

  /** Failures the ten minutes from a can still count. */
  function Potential(e: Failures, a: Time, now: Time): int {
    if now < a then FAILURE_LIMIT
    else if now >= a + LOCK || Locked(e, a + LOCK - 1) then 0
    else FAILURE_LIMIT - e.count
  }

  lemma {:induction false} CountedWithinPotential(e: Failures, events: seq<Event>, a: Time, now: Time)
    requires Sound(e, now) && History(events, a, now)
    ensures Counted(e, events, a) <= Potential(e, a, now)
    decreases |events|
  {
    if events != [] {
      CountedWithinPotential(After(e, events[0]), events[1..], a, events[0].at);
    }
  }

  /** Main result: in process, ten minutes without a clear count at most 5. */
  lemma LockoutBound(events: seq<Event>, a: Time, start: Time)
    requires History(events, a, start)
    ensures Counted(NO_FAILURES, events, a) <= 5
  {
    CountedWithinPotential(NO_FAILURES, events, a, start);
  }

  ghost predicate RedisSound(r: RedisFailures, now: Time) {
    && (r.failures.Some? ==>
          && 1 <= r.failures.value.value < FAILURE_LIMIT
          && r.failures.value.expiresAt.Some?
          && r.failures.value.expiresAt.value <= now + LOCK)
    && (r.lock.Some? ==> r.lock.value.expiresAt.Some? && r.lock.value.expiresAt.value <= now + LOCK)
  }

  /** A counter opened before a can expire inside the ten minutes and give way
      to a second one. */
  function RedisPotential(r: RedisFailures, a: Time, now: Time): int {
    if now < a then 2 * FAILURE_LIMIT - 2
    else if now >= a + LOCK || RedisLocked(r, a + LOCK - 1) then 0
    else
      var live := RateLimit.Live(r.failures, now);
      if live.None? then FAILURE_LIMIT
      else if RateLimit.Live(live, a + LOCK - 1).Some? then FAILURE_LIMIT - live.value.value
      else 2 * FAILURE_LIMIT - 1 - live.value.value
  }

  lemma {:induction false} RedisCountedWithinPotential(r: RedisFailures, events: seq<Event>, a: Time, now: Time)
    requires RedisSound(r, now) && History(events, a, now)
    ensures RedisCounted(r, events, a) <= RedisPotential(r, a, now)
    decreases |events|
  {
    if events != [] {
      RedisCountedWithinPotential(RedisAfter(r, events[0]), events[1..], a, events[0].at);
    }
  }

  /** Main result: with Redis the same ten minutes count at most 8. */
  lemma RedisLockoutBound(events: seq<Event>, a: Time, start: Time)
    requires History(events, a, start)
    ensures RedisCounted(NO_KEYS, events, a) <= 8
  {
    RedisCountedWithinPotential(NO_KEYS, events, a, start);
  }

  lemma RedisCountedUnfolds(r: RedisFailures, v: Event, rest: seq<Event>, a: Time)
    ensures RedisCounted(r, [v] + rest, a)
         == (if v.Fail? && !RedisLocked(r, v.at) && a <= v.at < a + TEN_MINUTES then 1 else 0)
            + RedisCounted(RedisAfter(r, v), rest, a)
  {
    assert ([v] + rest)[1..] == rest;
  }

  /** n failures at one instant that do not reach the limit all count. */
  lemma {:induction false} RoundCounts(r: RedisFailures, n: nat, t: Time, rest: seq<Event>, a: Time)
    requires a <= t < a + LOCK && r.lock == None && r.failures.Some?
    requires r.failures.value.expiresAt.Some? && t < r.failures.value.expiresAt.value
    requires r.failures.value.value + n < FAILURE_LIMIT
    ensures RedisCounted(r, seq(n, _ => Fail(t)) + rest, a)
         == n + RedisCounted(r.(failures := Some(r.failures.value.(value := r.failures.value.value + n))), rest, a)
    decreases n
  {
    if n == 0 {
      assert seq(n, _ => Fail(t)) + rest == rest;
    } else {
      var tail := seq(n - 1, _ => Fail(t)) + rest;
      assert seq(n, _ => Fail(t)) + rest == [Fail(t)] + tail;
      RedisCountedUnfolds(r, Fail(t), tail, a);
      RoundCounts(RedisRecord(r, t), n - 1, t, rest, a);
    }
  }

  /** One failure just before the minutes begin, three before its counter
      expires, then a full round of five. */
  ghost function EightFailures(): seq<Event> {
    [Fail(-1)] + (seq(3, _ => Fail(0)) + ([Fail(LOCK - 1)] + (seq(3, _ => Fail(LOCK - 1)) + ([Fail(LOCK - 1)] + []))))
  }

  lemma EightIsAHistory()
    ensures History(EightFailures(), 0, -1)
  {
    assert forall i :: 0 <= i < |EightFailures()| ==>
        EightFailures()[i] == if i == 0 then Fail(-1) else if i < 4 then Fail(0) else Fail(LOCK - 1);
  }

  /** Eight is reached. */
  lemma EightFailuresInTenMinutes()
    ensures exists events: seq<Event> :: History(events, 0, -1) && RedisCounted(NO_KEYS, events, 0) == 8
  {
    var t := LOCK - 1;
    var last := [Fail(t)] + [];
    var round := [Fail(t)] + (seq(3, _ => Fail(t)) + last);
    var r4 := RedisFailures(Some(RateLimit.Counter(4, Some(LOCK - 1))), None);
    var r5 := RedisFailures(Some(RateLimit.Counter(1, Some(t + LOCK))), None);
    var r8 := RedisFailures(Some(RateLimit.Counter(4, Some(t + LOCK))), None);
    assert RedisCounted(r4, round, 0) == 5 by {
      RedisCountedUnfolds(r4, Fail(t), seq(3, _ => Fail(t)) + last, 0);
      RoundCounts(r5, 3, t, last, 0);
      RedisCountedUnfolds(r8, Fail(t), [], 0);
    }
    assert RedisCounted(NO_KEYS, EightFailures(), 0) == 8 by {
      RedisCountedUnfolds(NO_KEYS, Fail(-1), seq(3, _ => Fail(0)) + round, 0);
      RoundCounts(RedisRecord(NO_KEYS, -1), 3, 0, round, 0);
    }
    EightIsAHistory();
  }

  // ---- five wrong passwords in a row ----

  /** README's rule: in process five failures in a row lock for ten minutes,
      however far apart; with Redis exactly when the fifth comes before the
      first is ten minutes old. */
  lemma FiveInARow(t1: Time, t2: Time, t3: Time, t4: Time, t5: Time, now: Time)
    requires t1 <= t2 <= t3 <= t4 <= t5
    ensures var e := Record(Record(Record(Record(Record(NO_FAILURES, t1), t2), t3), t4), t5);
            Locked(e, now) <==> now < t5 + TEN_MINUTES
    ensures var r := RedisRecord(RedisRecord(RedisRecord(RedisRecord(RedisRecord(NO_KEYS, t1), t2), t3), t4), t5);
            t5 <= now < t5 + TEN_MINUTES ==> (RedisLocked(r, now) <==> t5 < t1 + TEN_MINUTES)
  {
    var r2 := RedisRecord(RedisRecord(NO_KEYS, t1), t2);
    var r4 := RedisRecord(RedisRecord(r2, t3), t4);
    assert r4.lock == None;
  }

  /** The two controllers hold the same lock and the same live count. */
  ghost predicate Agree(e: Failures, r: RedisFailures, now: Time) {
    && (Locked(e, now) <==> RedisLocked(r, now))
    && (Locked(e, now) ==> r.lock.value.expiresAt == e.lockedTil && e.count == 0 && r.failures.None?)
    && e.count == (var live := RateLimit.Live(r.failures, now); if live.Some? then live.value.value else 0)
  }

  /** A further failure keeps the two controllers in agreement exactly when the
      Redis counter has not expired under a positive count. */
  lemma FailureKeepsAgreementIff(e: Failures, r: RedisFailures, now: Time, t: Time)
    requires Sound(e, now) && RedisSound(r, now) && Agree(e, r, now) && now <= t
    ensures Agree(Record(e, t), RedisRecord(r, t), t)
       <==> Locked(e, t) || e.count == 0 || t < r.failures.value.expiresAt.value
  {
    assert e.count > 0 ==> r.failures.Some?;
  }

  // ---- service calls ----

  /** What the checks after the lock test decide. */
  datatype Verdict = WrongPassword | Refused | Admitted

  /** One findAccessibleFile or findAccessibleCollection call: the clock is
      read for the lock test and again for the update. */
  datatype Visit = Visit(checkedAt: Time, verdict: Verdict, updatedAt: Time)

  predicate LockedOut(e: Failures, v: Visit) {
    Locked(e, v.checkedAt)
  }

  function AfterVisit(e: Failures, v: Visit): Failures {
    if LockedOut(e, v) then e
    else match v.verdict
      case WrongPassword => Record(e, v.updatedAt)
      case Refused => e
      case Admitted => NO_FAILURES
  }

  /** Outside a lock the fifth wrong password locks for ten minutes, an earlier one counts
      once more, a refusal for another reason changes nothing, and an admission forgives. */
  lemma VisitIsJudged(e: Failures, v: Visit)
    requires !LockedOut(e, v) && 0 <= e.count < 5 && v.checkedAt <= v.updatedAt
    ensures v.verdict.WrongPassword? && e.count == 4 ==>
              forall now :: Locked(AfterVisit(e, v), now) <==> now < v.updatedAt + TEN_MINUTES
    ensures v.verdict.WrongPassword? && e.count < 4 ==> AfterVisit(e, v) == e.(count := e.count + 1)
    ensures v.verdict.Refused? ==> AfterVisit(e, v) == e
    ensures v.verdict.Admitted? ==> AfterVisit(e, v) == NO_FAILURES
  {
  }

  ghost predicate OneAtATime(visits: seq<Visit>, now: Time) {
    && (forall i :: 0 <= i < |visits| ==> now <= visits[i].checkedAt <= visits[i].updatedAt)
    && (forall i, j :: 0 <= i < j < |visits| ==> visits[i].updatedAt <= visits[j].checkedAt)
  }

  ghost function AfterVisits(e: Failures, visits: seq<Visit>): Failures {
    if visits == [] then e
    else AfterVisit(AfterVisits(e, visits[..|visits| - 1]), visits[|visits| - 1])
  }

  /** Calls taken one at a time never clear a live lock: every visit before its
      end is turned away. */
  lemma {:induction false} LiveLockIsHonoured(e: Failures, visits: seq<Visit>, now: Time)
    requires OneAtATime(visits, now) && visits != [] && e.lockedTil.Some?
    requires visits[|visits| - 1].checkedAt < e.lockedTil.value
    ensures AfterVisits(e, visits) == e
    ensures LockedOut(AfterVisits(e, visits[..|visits| - 1]), visits[|visits| - 1])
    decreases |visits|
  {
    var before := visits[..|visits| - 1];
    if before != [] {
      LiveLockIsHonoured(e, before, now);
    }
  }

  /** No Redis operation removes a lock key: only its own time ends a lock. */
  lemma RedisLockSurvives(r: RedisFailures, event: Event, t: Time)
    requires RedisLocked(r, t) && t <= event.at && RedisSound(r, t)
    ensures RedisLocked(RedisAfter(r, event), t)
  {
  }
}
