/** The fixed-window download limiter of internal/share/access_control.go, as a
    function of one key's entry, and what it promises about whole histories. */
module RateLimit {
  import opened Options

  const LIMIT: int := 20
  const WINDOW: Time := 60 * SECOND

  /** One minute in nanoseconds. */
  const MINUTE: Time := 60_000_000_000

  /** One entry of the in-process map. A missing entry is Go's zero window,
      whose startedAt is the zero time. */
  datatype DownloadWindow = DownloadWindow(startedAt: Time, count: int)

  datatype Decision = Decision(allowed: bool, entry: Option<DownloadWindow>)

  /** The in-process controller's answer to one request for one key. */
  function Decide(w: Option<DownloadWindow>, now: Time): Decision {
    if w.None? || now - w.value.startedAt >= WINDOW then Decision(true, Some(DownloadWindow(now, 1)))
    else if w.value.count >= LIMIT then Decision(false, w)
    else Decision(true, Some(w.value.(count := w.value.count + 1)))
  }

  ghost predicate Sorted(times: seq<Time>) {
    forall i, j :: 0 <= i < j < |times| ==> times[i] <= times[j]
  }

  /** A clock that never goes back, read first at now or later. */
  ghost predicate SortedFrom(times: seq<Time>, now: Time) {
    Sorted(times) && forall i :: 0 <= i < |times| ==> now <= times[i]
  }

  /** Allowed requests that fall into the half-open minute starting at a. */
  ghost function CountAllowed(w: Option<DownloadWindow>, times: seq<Time>, a: Time): nat
    decreases |times|
  {
    if times == [] then 0
    else
      var d := Decide(w, times[0]);
      (if d.allowed && a <= times[0] < a + MINUTE then 1 else 0) + CountAllowed(d.entry, times[1..], a)
  }

  /** An entry the limiter can produce, last touched no later than now. */
  ghost predicate Sound(w: Option<DownloadWindow>, now: Time) {
    w.Some? ==> 1 <= w.value.count <= LIMIT && w.value.startedAt <= now
  }

  /** The most requests the minute starting at a can still allow, when the
      entry is w and the minute has begun. */
  function Capacity(w: Option<DownloadWindow>, a: Time): int {
    if w.None? || w.value.startedAt + WINDOW <= a then LIMIT
    else if w.value.startedAt >= a + WINDOW then 0
    else if w.value.startedAt >= a then LIMIT - w.value.count
    else 2 * LIMIT - w.value.count
  }

  /** Before the minute has begun the entry may still be replaced. */
  function Potential(w: Option<DownloadWindow>, a: Time, now: Time): int {
    if now < a && (w.None? || w.value.startedAt + WINDOW <= a) then 2 * LIMIT - 1 else Capacity(w, a)
  }

  lemma {:induction false} CountWithinPotential(w: Option<DownloadWindow>, times: seq<Time>, a: Time, now: Time)
    requires Sound(w, now) && SortedFrom(times, now)
    ensures CountAllowed(w, times, a) <= Potential(w, a, now)
    decreases |times|
  {
    if times != [] {
      var d := Decide(w, times[0]);
      CountWithinPotential(d.entry, times[1..], a, times[0]);
    }
  }

  /** n requests at the same instant are all allowed while the window has room. */
  ghost function Burst(t: Time, n: nat): (times: seq<Time>)
    ensures |times| == n && forall i :: 0 <= i < n ==> times[i] == t
  {
    if n == 0 then [] else [t] + Burst(t, n - 1)
  }

  lemma {:induction false} BurstFillsWindow(w: DownloadWindow, t: Time, n: nat, rest: seq<Time>, a: Time)
    requires 1 <= w.count && w.count + n <= LIMIT
    requires a <= t < a + WINDOW && t - w.startedAt < WINDOW
    ensures CountAllowed(Some(w), Burst(t, n) + rest, a)
         == n + CountAllowed(Some(w.(count := w.count + n)), rest, a)
    decreases n
  {
    if n == 0 {
      assert Burst(t, n) + rest == rest;
    } else {
      var times := Burst(t, n) + rest;
      assert times[0] == t && times[1..] == Burst(t, n - 1) + rest;
      BurstFillsWindow(w.(count := w.count + 1), t, n - 1, rest, a);
    }
  }

  lemma FreshBurst(w: Option<DownloadWindow>, t: Time, a: Time)
    requires a <= t < a + WINDOW && (w.None? || t - w.value.startedAt >= WINDOW)
    ensures CountAllowed(w, Burst(t, LIMIT), a) == LIMIT
  {
    var times := Burst(t, LIMIT);
    assert times[0] == t && times[1..] == Burst(t, LIMIT - 1) + [];
    BurstFillsWindow(DownloadWindow(t, 1), t, LIMIT - 1, [], a);
  }

  /** A request sequence that uses the whole capacity of the minute. */
  ghost function Worst(w: Option<DownloadWindow>, a: Time): seq<Time> {
    if w.None? || w.value.startedAt + WINDOW <= a then Burst(a, LIMIT)
    else if w.value.count > LIMIT then []
    else if w.value.startedAt >= a then Burst(a, LIMIT - w.value.count)
    else Burst(a, LIMIT - w.value.count) + Burst(w.value.startedAt + WINDOW, LIMIT)
  }

  lemma WorstIsSorted(w: Option<DownloadWindow>, a: Time)
    requires Sound(w, a)
    ensures SortedFrom(Worst(w, a), a)
  {
    if w.Some? && a < w.value.startedAt + WINDOW && w.value.startedAt < a {
      var first := Burst(a, LIMIT - w.value.count);
      var second := Burst(w.value.startedAt + WINDOW, LIMIT);
      assert forall i :: 0 <= i < |first + second| ==>
          (first + second)[i] == if i < |first| then a else w.value.startedAt + WINDOW;
    }
  }

  lemma WorstUsesCapacity(w: Option<DownloadWindow>, a: Time)
    requires Sound(w, a)
    ensures CountAllowed(w, Worst(w, a), a) == Capacity(w, a)
  {
    if w.None? || w.value.startedAt + WINDOW <= a {
      FreshBurst(w, a, a);
    } else if w.value.startedAt == a {
      BurstFillsWindow(w.value, a, LIMIT - w.value.count, [], a);
      assert Burst(a, LIMIT - w.value.count) + [] == Burst(a, LIMIT - w.value.count);
    } else {
      var next := w.value.startedAt + WINDOW;
      BurstFillsWindow(w.value, a, LIMIT - w.value.count, Burst(next, LIMIT), a);
      FreshBurst(Some(w.value.(count := LIMIT)), next, a);
    }
  }

  /** Requests of all keys in the order in which the controller serves them. */
  datatype Request<Key> = Request(key: Key, at: Time)

  function Lookup<Key>(m: map<Key, DownloadWindow>, k: Key): Option<DownloadWindow> {
    if k in m then Some(m[k]) else None
  }

  ghost predicate SortedLog<Key>(log: seq<Request<Key>>) {
    forall i, j :: 0 <= i < j < |log| ==> log[i].at <= log[j].at
  }

  function Serve<Key>(m: map<Key, DownloadWindow>, r: Request<Key>): map<Key, DownloadWindow> {
    m[r.key := Decide(Lookup(m, r.key), r.at).entry.value]
  }

  ghost function CountForKey<Key>(m: map<Key, DownloadWindow>, log: seq<Request<Key>>, k: Key, a: Time): nat
    decreases |log|
  {
    if log == [] then 0
    else
      var r := log[0];
      (if r.key == k && Decide(Lookup(m, k), r.at).allowed && a <= r.at < a + MINUTE then 1 else 0)
      + CountForKey(Serve(m, r), log[1..], k, a)
  }

  ghost function TimesOf<Key>(log: seq<Request<Key>>, k: Key): seq<Time> {
    if log == [] then []
    else if log[0].key == k then [log[0].at] + TimesOf(log[1..], k)
    else TimesOf(log[1..], k)
  }

  lemma {:induction false} TimesOfSorted<Key>(log: seq<Request<Key>>, k: Key, lo: Time)
    requires SortedLog(log) && forall i :: 0 <= i < |log| ==> lo <= log[i].at
    ensures SortedFrom(TimesOf(log, k), lo)
  {
    if log != [] {
      TimesOfSorted(log[1..], k, log[0].at);
    }
  }

  /** Keys do not influence one another. */
  lemma {:induction false} KeysAreIndependent<Key>(m: map<Key, DownloadWindow>, log: seq<Request<Key>>, k: Key, a: Time)
    ensures CountForKey(m, log, k, a) == CountAllowed(Lookup(m, k), TimesOf(log, k), a)
    decreases |log|
  {
    if log != [] {
      var r := log[0];
      KeysAreIndependent(Serve(m, r), log[1..], k, a);
      if r.key == k {
        assert ([r.at] + TimesOf(log[1..], k))[1..] == TimesOf(log[1..], k);
      }
    }
  }

  /** Main result: in every history of any number of keys under a clock that
      never goes back, no half-open minute sees more than 39 allowed requests
      for one key. */
  lemma SlidingMinuteBound<Key>(log: seq<Request<Key>>, k: Key, a: Time)
    requires SortedLog(log)
    ensures CountForKey(map[], log, k, a) <= 39
  {
    KeysAreIndependent(map[], log, k, a);
    var lo := if log == [] then a else log[0].at;
    TimesOfSorted(log, k, lo);
    CountWithinPotential(None, TimesOf(log, k), a, if lo < a then lo else a - 1);
  }

  /** The bound is reached: 39 downloads in one minute. */
  lemma ThirtyNineInOneMinute()
    ensures exists times: seq<Time> :: Sorted(times) && CountAllowed(None, times, 0) == 39
  {
    var w := Some(DownloadWindow(-1, 1));
    var times := [-1] + Worst(w, 0);
    WorstIsSorted(w, 0);
    WorstUsesCapacity(w, 0);
    assert times[0] == -1 && times[1..] == Worst(w, 0);
    assert CountAllowed(None, times, 0) == CountAllowed(w, Worst(w, 0), 0);
  }

  /** The key's window was opened before now, is still live and has room. */
  predicate OpenWithRoom(w: Option<DownloadWindow>, now: Time) {
    w.Some? && w.value.startedAt < now < w.value.startedAt + MINUTE && w.value.count < 20
  }

  /** README's "20 per minute" holds for the minute starting now, whatever is
      requested in it, exactly when no live window with room is left over. */
  lemma TwentyPerMinuteIff(w: Option<DownloadWindow>, now: Time)
    requires Sound(w, now)
    ensures (forall times: seq<Time> :: SortedFrom(times, now) ==> CountAllowed(w, times, now) <= 20)
       <==> !OpenWithRoom(w, now)
  {
    if OpenWithRoom(w, now) {
      WorstIsSorted(w, now);
      WorstUsesCapacity(w, now);
      var times := Worst(w, now);
      assert CountAllowed(w, times, now) > LIMIT;
    } else {
      forall times: seq<Time> | SortedFrom(times, now)
        ensures CountAllowed(w, times, now) <= LIMIT
      {
        CountWithinPotential(w, times, now, now);
      }
    }
  }

  /** A window opens with a request: of the requests of its first minute exactly the
      first twenty are allowed, however they are spread. */
  lemma FirstTwentyAreAllowed(w: Option<DownloadWindow>, times: seq<Time>, i: nat)
    requires Sorted(times) && i < |times| && times[i] < times[0] + 60_000_000_000
    requires w.None? || w.value.startedAt + 60_000_000_000 <= times[0]
    ensures |Answers(w, times)| == |times|
    ensures Answers(w, times)[i] <==> i < 20
  {
    AnswersInWindow(DownloadWindow(times[0], 1), times[1..], i - 1);
  }

  lemma {:induction false} AnswersInWindow(w: DownloadWindow, times: seq<Time>, i: int)
    requires SortedFrom(times, w.startedAt) && -1 <= i < |times| && 1 <= w.count <= LIMIT
    requires i >= 0 ==> times[i] < w.startedAt + WINDOW
    ensures |Answers(Some(w), times)| == |times|
    ensures i >= 0 ==> (Answers(Some(w), times)[i] <==> w.count + i < LIMIT)
    decreases |times|
  {
    if times != [] {
      var d := Decide(Some(w), times[0]);
      AnswersInWindow(d.entry.value, times[1..], if i <= 0 then -1 else i - 1);
    }
  }

  // ---- the Redis script ----

  /** A Redis integer key with its expiry, if EXPIRE has set one. */
  datatype Counter = Counter(value: int, expiresAt: Option<Time>)

  /** A key counts as gone from its expiry instant on. */
  function Live(c: Option<Counter>, now: Time): Option<Counter> {
    if c.Some? && (c.value.expiresAt.None? || now < c.value.expiresAt.value) then c else None
  }

  datatype RedisDecision = RedisDecision(allowed: bool, counter: Option<Counter>)

  /** INCR, EXPIRE on the first increment, compare. */
  function RedisDecide(c: Option<Counter>, now: Time): RedisDecision {
    var live := Live(c, now);
    var count := if live.None? then 1 else live.value.value + 1;
    var counter := if live.None? then Counter(1, Some(now + WINDOW)) else live.value.(value := count);
    RedisDecision(count <= LIMIT, Some(counter))
  }

  ghost function Answers(w: Option<DownloadWindow>, times: seq<Time>): seq<bool>
    decreases |times|
  {
    if times == [] then []
    else var d := Decide(w, times[0]); [d.allowed] + Answers(d.entry, times[1..])
  }

  ghost function RedisAnswers(c: Option<Counter>, times: seq<Time>): seq<bool>
    decreases |times|
  {
    if times == [] then []
    else var d := RedisDecide(c, times[0]); [d.allowed] + RedisAnswers(d.counter, times[1..])
  }

  /** Redis also counts refused requests, so its count runs past the limit. */
  ghost predicate Agree(w: Option<DownloadWindow>, c: Option<Counter>, now: Time) {
    if Live(c, now).Some? then
      && w.Some?
      && c.value.expiresAt == Some(w.value.startedAt + WINDOW)
      && w.value.count == (if c.value.value < LIMIT then c.value.value else LIMIT)
    else w.None? || w.value.startedAt + WINDOW <= now
  }

  lemma {:induction false} SimulateRedis(w: Option<DownloadWindow>, c: Option<Counter>, times: seq<Time>, now: Time)
    requires Agree(w, c, now) && SortedFrom(times, now)
    ensures Answers(w, times) == RedisAnswers(c, times)
    decreases |times|
  {
    if times != [] {
      SimulateRedis(Decide(w, times[0]).entry, RedisDecide(c, times[0]).counter, times[1..], times[0]);
    }
  }

  /** Main result: both controllers answer every request sequence alike. */
  lemma RedisAnswersAlike(times: seq<Time>)
    requires Sorted(times)
    ensures Answers(None, times) == RedisAnswers(None, times)
  {
    if times != [] {
      SimulateRedis(None, None, times, times[0]);
    }
  }
}
