/** Any number of workers on one table of jobs. Reading the clock, each
    statement and each handler is a step of its own; steps interleave freely and
    the clock never goes back. */
module JobWorkers {
  import opened Options
  import opened Totals
  import opened JobQueue

  /** A turn of ProcessNext: the clock is read, a job claimed, its handler run, the
      clock read again for the retry time, and the outcome recorded. */
  datatype Worker =
    | Idle
    | Polling(now: Time)
    | Handling(id: JobId, job: Job)
    | Recording(id: JobId, job: Job, error: string, nextRunAt: Time)
    | Marking(id: JobId, job: Job)

  /** What happened: a claim and the clock read before it, a failure and the clock
      read after it. Kept for the proofs only: nothing reads it. */
  datatype Entry =
    | ClaimedAt(id: JobId, attempt: int, at: Time)
    | FailedAt(id: JobId, attempt: int, at: Time)

  datatype State = State(jobs: Jobs, workers: map<WorkerId, Worker>, clock: Time, history: seq<Entry>)

  datatype Event =
    | Enqueue(id: JobId, kind: string, maxAttempts: int, runAt: Time)
    | Tick(nanoseconds: nat)
    | Poll(worker: WorkerId)
    | TryClaim(worker: WorkerId, pick: JobId)
    | Handle(worker: WorkerId, outcome: Option<string>)
    | Record(worker: WorkerId)
    | Mark(worker: WorkerId)

  predicate Holds(w: Worker) {
    w.Handling? || w.Recording? || w.Marking?
  }

  function Init(workers: set<WorkerId>): State {
    State(map[], map w | w in workers :: Idle, 0, [])
  }

  function SetWorker(s: State, w: WorkerId, worker: Worker): State {
    s.(workers := s.workers[w := worker])
  }

  /** pick settles which of several equally early jobs LIMIT 1 returns. */
  ghost function StepClaim(s: State, w: WorkerId, pick: JobId): State
    requires w in s.workers && s.workers[w].Polling?
  {
    var now := s.workers[w].now;
    if First(s.jobs, pick, now) then
      var jobs := Claimed(s.jobs, pick);
      State(jobs, s.workers[w := Handling(pick, jobs[pick])], s.clock,
            s.history + [ClaimedAt(pick, jobs[pick].attempts, now)])
    else if DueJobs(s.jobs, now) == {} then SetWorker(s, w, Idle)
    else s
  }

  function StepHandle(registered: set<string>, s: State, w: WorkerId, outcome: Option<string>): State
    requires w in s.workers && s.workers[w].Handling?
  {
    var id, job := s.workers[w].id, s.workers[w].job;
    var error := if job.kind in registered then outcome else Some("job type is not registered");
    if error.None? then SetWorker(s, w, Marking(id, job))
    else State(s.jobs, s.workers[w := Recording(id, job, error.value, s.clock + RetryDelay(job.attempts))], s.clock,
               s.history + [FailedAt(id, job.attempts, s.clock)])
  }

  function StepRecord(s: State, w: WorkerId): State
    requires w in s.workers && s.workers[w].Recording?
  {
    var worker := s.workers[w];
    var r := RetryOrFail(s.jobs, worker.id, worker.error, worker.nextRunAt);
    SetWorker(if r.Some? then s.(jobs := r.value) else s, w, Idle)
  }

  function StepMark(s: State, w: WorkerId): State
    requires w in s.workers && s.workers[w].Marking?
  {
    var r := MarkSucceeded(s.jobs, s.workers[w].id);
    SetWorker(if r.Some? then s.(jobs := r.value) else s, w, Idle)
  }

  ghost function Step(registered: set<string>, s: State, e: Event): State {
    match e
    case Enqueue(id, kind, maxAttempts, runAt) =>
      var r := Inserted(s.jobs, id, kind, maxAttempts, runAt, s.clock);
      if r.Some? then s.(jobs := r.value) else s
    case Tick(n) => s.(clock := s.clock + n)
    case Poll(w) => if w in s.workers && s.workers[w].Idle? then SetWorker(s, w, Polling(s.clock)) else s
    case TryClaim(w, pick) => if w in s.workers && s.workers[w].Polling? then StepClaim(s, w, pick) else s
    case Handle(w, outcome) => if w in s.workers && s.workers[w].Handling? then StepHandle(registered, s, w, outcome)
                               else s
    case Record(w) => if w in s.workers && s.workers[w].Recording? then StepRecord(s, w) else s
    case Mark(w) => if w in s.workers && s.workers[w].Marking? then StepMark(s, w) else s
  }

  ghost function Run(registered: set<string>, s: State, events: seq<Event>): State {
    if events == [] then s
    else Step(registered, Run(registered, s, events[..|events| - 1]), events[|events| - 1])
  }

  // ---- invariants ----

  predicate JobOk(job: Job) {
    && 0 <= job.attempts <= job.maxAttempts && 0 < job.maxAttempts
    && (job.status == Queued ==> job.attempts < job.maxAttempts)
    && (job.status == Failed ==> job.attempts == job.maxAttempts)
    && (job.status == Running || job.status == Succeeded ==> 1 <= job.attempts)
  }

  /** A worker's job is running, and as the worker claimed it. */
  predicate WorkerOk(jobs: Jobs, clock: Time, w: Worker) {
    && (w.Polling? ==> w.now <= clock)
    && (Holds(w) ==> w.id in jobs && jobs[w.id].status == Running && jobs[w.id] == w.job)
  }

  predicate OneHolder(workers: map<WorkerId, Worker>) {
    forall v, w :: v in workers && w in workers && v != w && Holds(workers[v]) && Holds(workers[w]) ==>
      workers[v].id != workers[w].id
  }

  predicate Held(workers: map<WorkerId, Worker>, id: JobId) {
    exists w :: w in workers && Holds(workers[w]) && workers[w].id == id
  }

  predicate RunningIsHeld(jobs: Jobs, workers: map<WorkerId, Worker>) {
    forall id :: id in jobs && jobs[id].status == Running ==> Held(workers, id)
  }

  predicate QueueOk(s: State) {
    && (forall id :: id in s.jobs ==> JobOk(s.jobs[id]))
    && (forall w :: w in s.workers ==> WorkerOk(s.jobs, s.clock, s.workers[w]))
    && OneHolder(s.workers)
    && RunningIsHeld(s.jobs, s.workers)
  }

  lemma ClaimKeeps(s: State, w: WorkerId, pick: JobId)
    requires QueueOk(s) && w in s.workers && s.workers[w].Polling? && First(s.jobs, pick, s.workers[w].now)
    ensures QueueOk(StepClaim(s, w, pick))
  {
    var s' := StepClaim(s, w, pick);
    forall id | id in s'.jobs && s'.jobs[id].status == Running
      ensures Held(s'.workers, id)
    {
      if id == pick {
        assert w in s'.workers && Holds(s'.workers[w]);
      } else {
        assert Held(s.workers, id);
        var v :| v in s.workers && Holds(s.workers[v]) && s.workers[v].id == id;
        assert v in s'.workers && s'.workers[v] == s.workers[v];
      }
    }
  }

  /** The holder's update always applies, lets go of the job, and touches no other. */
  lemma ReleaseKeeps(s: State, w: WorkerId, job: Job)
    requires QueueOk(s) && w in s.workers && Holds(s.workers[w]) && JobOk(job) && job.status != Running
    ensures QueueOk(State(s.jobs[s.workers[w].id := job], s.workers[w := Idle], s.clock, s.history))
  {
    var s' := State(s.jobs[s.workers[w].id := job], s.workers[w := Idle], s.clock, s.history);
    forall id | id in s'.jobs && s'.jobs[id].status == Running
      ensures Held(s'.workers, id)
    {
      assert Held(s.workers, id);
      var v :| v in s.workers && Holds(s.workers[v]) && s.workers[v].id == id;
      assert v in s'.workers && s'.workers[v] == s.workers[v];
    }
  }

  /** A worker that moves on with the job it holds, or holds none before and after. */
  lemma MoveKeeps(s: State, w: WorkerId, worker: Worker, history: seq<Entry>)
    requires QueueOk(s) && w in s.workers && WorkerOk(s.jobs, s.clock, worker)
    requires Holds(worker) == Holds(s.workers[w]) && (Holds(worker) ==> worker.id == s.workers[w].id)
    ensures QueueOk(State(s.jobs, s.workers[w := worker], s.clock, history))
  {
    var workers := s.workers[w := worker];
    forall id | id in s.jobs && s.jobs[id].status == Running
      ensures Held(workers, id)
    {
      assert Held(s.workers, id);
      var v :| v in s.workers && Holds(s.workers[v]) && s.workers[v].id == id;
      assert v in workers && Holds(workers[v]) && workers[v].id == id;
    }
  }

  lemma EnqueueKeeps(s: State, id: JobId, job: Job)
    requires QueueOk(s) && id !in s.jobs && JobOk(job) && job.status == Queued
    ensures QueueOk(s.(jobs := s.jobs[id := job]))
  {
    forall k | k in s.jobs && s.jobs[k].status == Running
      ensures Held(s.workers, k)
    {
    }
  }

  lemma StepKeepsQueueOk(registered: set<string>, s: State, e: Event)
    requires QueueOk(s)
    ensures QueueOk(Step(registered, s, e))
  {
    if e.Enqueue? {
      if e.id !in s.jobs && e.kind != "" && e.maxAttempts > 0 {
        EnqueueKeeps(s, e.id, Job(e.kind, Queued, 0, e.maxAttempts, e.runAt, s.clock, None));
      }
    } else if e.Tick? {
    } else if e.worker in s.workers {
      var worker := s.workers[e.worker];
      if e.Poll? && worker.Idle? {
        MoveKeeps(s, e.worker, Polling(s.clock), s.history);
      } else if e.TryClaim? && worker.Polling? {
        if First(s.jobs, e.pick, worker.now) {
          ClaimKeeps(s, e.worker, e.pick);
        } else {
          MoveKeeps(s, e.worker, Idle, s.history);
        }
      } else if e.Handle? && worker.Handling? {
        var s' := StepHandle(registered, s, e.worker, e.outcome);
        MoveKeeps(s, e.worker, s'.workers[e.worker], s'.history);
      } else if e.Record? && worker.Recording? {
        ReleaseKeeps(s, e.worker, RetryOrFail(s.jobs, worker.id, worker.error, worker.nextRunAt).value[worker.id]);
      } else if e.Mark? && worker.Marking? {
        ReleaseKeeps(s, e.worker, MarkSucceeded(s.jobs, worker.id).value[worker.id]);
      }
    }
  }

  lemma {:induction false} RunKeepsQueueOk(registered: set<string>, workers: set<WorkerId>, events: seq<Event>)
    ensures QueueOk(Run(registered, Init(workers), events))
    decreases |events|
  {
    if events != [] {
      RunKeepsQueueOk(registered, workers, events[..|events| - 1]);
      StepKeepsQueueOk(registered, Run(registered, Init(workers), events[..|events| - 1]), events[|events| - 1]);
    }
  }

  /** Each running job has exactly one holder, so whatever a worker has to record
      about its job always applies; queued jobs have attempts left, and a job that
      is marked failed has used them all. */
  lemma EachRunningJobHasOneHolder(registered: set<string>, workers: set<WorkerId>, events: seq<Event>)
    ensures var s := Run(registered, Init(workers), events);
            && (forall id :: id in s.jobs && s.jobs[id].status == Running <==> id in s.jobs && Held(s.workers, id))
            && OneHolder(s.workers)
            && (forall w :: w in s.workers && s.workers[w].Recording? ==>
                  RetryOrFail(s.jobs, s.workers[w].id, s.workers[w].error, s.workers[w].nextRunAt).Some?)
            && (forall w :: w in s.workers && s.workers[w].Marking? ==> MarkSucceeded(s.jobs, s.workers[w].id).Some?)
            && (forall id :: id in s.jobs && s.jobs[id].status == Queued ==>
                  s.jobs[id].attempts < s.jobs[id].maxAttempts)
            && (forall id :: id in s.jobs && s.jobs[id].status == Failed ==>
                  s.jobs[id].attempts == s.jobs[id].maxAttempts)
  {
    RunKeepsQueueOk(registered, workers, events);
  }

  // ---- which job is claimed, and what becomes of it ----

  predicate NothingDue(jobs: Jobs, now: Time) {
    forall k :: k in jobs ==> jobs[k].status != Queued || now < jobs[k].runAt
  }

  /** A claim takes effect exactly for a due job that has waited longest by the clock
      its worker has read; a worker goes idle exactly when nothing is due. */
  lemma LongestWaitingIsClaimed(registered: set<string>, s: State, w: WorkerId, pick: JobId)
    requires w in s.workers && s.workers[w].Polling?
    ensures var s', now := Step(registered, s, TryClaim(w, pick)), s.workers[w].now;
            && (s'.workers[w].Handling? <==> WaitedLongest(s.jobs, pick, now))
            && (s'.workers[w].Handling? ==>
                  && s'.workers[w].id == pick && s'.jobs == s.jobs[pick := s'.jobs[pick]]
                  && s'.jobs[pick] == s.jobs[pick].(status := Running, attempts := s.jobs[pick].attempts + 1)
                  && s'.workers[w].job == s'.jobs[pick])
            && (s'.workers[w].Idle? <==> NothingDue(s.jobs, now))
            && (!s'.workers[w].Handling? ==> s'.jobs == s.jobs)
  {
    var now := s.workers[w].now;
    FirstHasWaitedLongest(s.jobs, pick, now);
    if NothingDue(s.jobs, now) {
      assert DueJobs(s.jobs, now) == {};
    } else {
      var k :| k in s.jobs && s.jobs[k].status == Queued && s.jobs[k].runAt <= now;
      assert k in DueJobs(s.jobs, now);
    }
  }

  /** A worker's turn on that job with nobody else at work. */
  ghost function Turn(registered: set<string>, s: State, w: WorkerId, pick: JobId, outcome: Option<string>): State {
    var claimed := Step(registered, Step(registered, s, Poll(w)), TryClaim(w, pick));
    var handled := Step(registered, claimed, Handle(w, outcome));
    Step(registered, Step(registered, handled, Record(w)), Mark(w))
  }

  /** Left alone, a turn of the interleaved machine does what ProcessNext does: the job
      has succeeded, waits again for its backoff, or has failed after its last attempt,
      and no other job has changed. */
  lemma TurnAloneIsTheCall(registered: set<string>, s: State, w: WorkerId, pick: JobId, outcome: Option<string>)
    requires w in s.workers && s.workers[w].Idle? && WaitedLongest(s.jobs, pick, s.clock)
    ensures var s', job := Turn(registered, s, w, pick, outcome), s.jobs[pick];
            var error := if job.kind in registered then outcome else Some("job type is not registered");
            && s'.workers == s.workers && pick in s'.jobs && s'.jobs == s.jobs[pick := s'.jobs[pick]]
            && var job' := s'.jobs[pick];
               if error.None? then job' == job.(status := Succeeded, attempts := job.attempts + 1, lastError := None)
               else if job.attempts + 1 >= job.maxAttempts then
                 job' == job.(status := Failed, attempts := job.attempts + 1, lastError := error)
               else
                 job' == job.(status := Queued, attempts := job.attempts + 1, lastError := error,
                              runAt := s.clock + RetryDelay(job.attempts + 1))
  {
    FirstHasWaitedLongest(s.jobs, pick, s.clock);
    var job := s.jobs[pick];
    var taken := job.(status := Running, attempts := job.attempts + 1);
    var claimed := State(s.jobs[pick := taken], s.workers[w := Handling(pick, taken)], s.clock,
                         s.history + [ClaimedAt(pick, taken.attempts, s.clock)]);
    assert claimed == Step(registered, Step(registered, s, Poll(w)), TryClaim(w, pick)) by {
      assert s.workers[w := Polling(s.clock)][w := Handling(pick, taken)] == s.workers[w := Handling(pick, taken)];
    }
    assert s.workers[w := Idle] == s.workers;
    HandledAlone(registered, s, w, pick, taken, claimed, outcome);
  }

  lemma HandledAlone(registered: set<string>, s: State, w: WorkerId, pick: JobId, taken: Job, claimed: State,
                     outcome: Option<string>)
    requires w in s.workers && pick in s.jobs && taken.status == Running
    requires claimed == State(s.jobs[pick := taken], s.workers[w := Handling(pick, taken)], s.clock, claimed.history)
    ensures var handled := Step(registered, claimed, Handle(w, outcome));
            var s' := Step(registered, Step(registered, handled, Record(w)), Mark(w));
            var error := if taken.kind in registered then outcome else Some("job type is not registered");
            && s'.workers == s.workers[w := Idle] && pick in s'.jobs && s'.jobs == s.jobs[pick := s'.jobs[pick]]
            && s'.jobs[pick] ==
               if error.None? then taken.(status := Succeeded, lastError := None)
               else if taken.attempts >= taken.maxAttempts then taken.(status := Failed, lastError := error)
               else taken.(status := Queued, lastError := error, runAt := s.clock + RetryDelay(taken.attempts))
  {
    var handled := Step(registered, claimed, Handle(w, outcome));
    var recorded := Step(registered, handled, Record(w));
    if handled.workers[w].Marking? {
      assert handled.workers == s.workers[w := Marking(pick, taken)];
      assert recorded == handled;
    } else {
      assert recorded.workers == s.workers[w := Idle];
    }
  }

  // ---- how often and how soon a job is claimed ----

  function Claims(history: seq<Entry>, id: JobId): nat {
    if history == [] then 0
    else
      var last := history[|history| - 1];
      Claims(history[..|history| - 1], id) + (if last.ClaimedAt? && last.id == id then 1 else 0)
  }

  function AllClaims(history: seq<Entry>): nat {
    if history == [] then 0
    else AllClaims(history[..|history| - 1]) + (if history[|history| - 1].ClaimedAt? then 1 else 0)
  }

  function Attempts(jobs: Jobs): map<JobId, int> {
    map id | id in jobs :: jobs[id].attempts
  }

  function Limits(jobs: Jobs): map<JobId, int> {
    map id | id in jobs :: jobs[id].maxAttempts
  }

  /** A job's attempts are its claims, job by job and in total. */
  ghost predicate CountsOk(jobs: Jobs, history: seq<Entry>) {
    && (forall id :: Claims(history, id) == if id in jobs then jobs[id].attempts else 0)
    && AllClaims(history) == Total(Attempts(jobs))
  }

  lemma OneMoreEntry(history: seq<Entry>, entry: Entry)
    ensures forall id ::
              Claims(history + [entry], id)
              == Claims(history, id) + (if entry.ClaimedAt? && entry.id == id then 1 else 0)
    ensures AllClaims(history + [entry]) == AllClaims(history) + (if entry.ClaimedAt? then 1 else 0)
  {
    assert (history + [entry])[..|history|] == history;
  }

  /** A job replaced by itself with other attempts, or a new one. */
  lemma AttemptsPut(jobs: Jobs, id: JobId, job: Job)
    ensures Total(Attempts(jobs[id := job]))
            == Total(Attempts(jobs)) + job.attempts - (if id in jobs then jobs[id].attempts else 0)
  {
    assert Attempts(jobs[id := job]) == Attempts(jobs)[id := job.attempts];
    TotalPut(Attempts(jobs), id, job.attempts);
  }

  lemma CountsAfterPut(jobs: Jobs, history: seq<Entry>, id: JobId, job: Job)
    requires CountsOk(jobs, history) && job.attempts == if id in jobs then jobs[id].attempts else 0
    ensures CountsOk(jobs[id := job], history)
  {
    AttemptsPut(jobs, id, job);
  }

  lemma CountsAfterClaim(jobs: Jobs, history: seq<Entry>, id: JobId, job: Job, entry: Entry)
    requires CountsOk(jobs, history) && id in jobs && job.attempts == jobs[id].attempts + 1
    requires entry.ClaimedAt? && entry.id == id
    ensures CountsOk(jobs[id := job], history + [entry])
  {
    AttemptsPut(jobs, id, job);
    OneMoreEntry(history, entry);
  }

  lemma StepKeepsCounts(registered: set<string>, s: State, e: Event)
    requires QueueOk(s) && CountsOk(s.jobs, s.history)
    ensures CountsOk(Step(registered, s, e).jobs, Step(registered, s, e).history)
  {
    var s' := Step(registered, s, e);
    if e.Enqueue? {
      if e.id !in s.jobs {
        CountsAfterPut(s.jobs, s.history, e.id, Job(e.kind, Queued, 0, e.maxAttempts, e.runAt, s.clock, None));
      }
    } else if !e.Tick? && e.worker in s.workers {
      var w := s.workers[e.worker];
      if e.TryClaim? && w.Polling? && First(s.jobs, e.pick, w.now) {
        CountsAfterClaim(s.jobs, s.history, e.pick, s'.jobs[e.pick], s'.history[|s.history|]);
      } else if e.Handle? && w.Handling? && s'.history != s.history {
        OneMoreEntry(s.history, s'.history[|s.history|]);
      } else if (e.Record? && w.Recording?) || (e.Mark? && w.Marking?) {
        CountsAfterPut(s.jobs, s.history, w.id, s'.jobs[w.id]);
      }
    }
  }

  lemma {:induction false} RunKeepsCounts(registered: set<string>, workers: set<WorkerId>, events: seq<Event>)
    ensures CountsOk(Run(registered, Init(workers), events).jobs, Run(registered, Init(workers), events).history)
    decreases |events|
  {
    if events != [] {
      RunKeepsCounts(registered, workers, events[..|events| - 1]);
      RunKeepsQueueOk(registered, workers, events[..|events| - 1]);
      StepKeepsCounts(registered, Run(registered, Init(workers), events[..|events| - 1]), events[|events| - 1]);
    }
  }

  /** A job is handed to a handler at most max_attempts times, and all the claims
      ever made are the attempts recorded: a fixed set of jobs allows no more
      claims than the sum of its limits, however the workers interleave. */
  lemma ClaimsAreBounded(registered: set<string>, workers: set<WorkerId>, events: seq<Event>)
    ensures var s := Run(registered, Init(workers), events);
            && (forall id :: id in s.jobs ==> Claims(s.history, id) == s.jobs[id].attempts <= s.jobs[id].maxAttempts)
            && (forall id :: id !in s.jobs ==> Claims(s.history, id) == 0)
            && AllClaims(s.history) == Total(Attempts(s.jobs)) <= Total(Limits(s.jobs))
  {
    var s := Run(registered, Init(workers), events);
    RunKeepsCounts(registered, workers, events);
    RunKeepsQueueOk(registered, workers, events);
    forall id | id in Attempts(s.jobs)
      ensures id in Limits(s.jobs) && Attempts(s.jobs)[id] <= Limits(s.jobs)[id]
    {
      assert JobOk(s.jobs[id]);
    }
    forall id | id in Limits(s.jobs)
      ensures 0 <= Limits(s.jobs)[id]
    {
      assert JobOk(s.jobs[id]);
    }
    TotalMonotone(Attempts(s.jobs), Limits(s.jobs));
  }

  /** The job is not ready before the given time. */
  predicate NotBefore(s: State, id: JobId, time: Time) {
    && (id in s.jobs && s.jobs[id].status == Queued ==> time <= s.jobs[id].runAt)
    && (forall w :: w in s.workers && s.workers[w].Handling? && s.workers[w].id == id ==> time <= s.clock)
    && (forall w :: w in s.workers && s.workers[w].Recording? && s.workers[w].id == id ==>
          time <= s.workers[w].nextRunAt)
  }

  predicate EntryOk(s: State, entry: Entry) {
    entry.FailedAt? ==> entry.id in s.jobs && NotBefore(s, entry.id, entry.at + RetryDelay(entry.attempt))
  }

  predicate PairOk(a: Entry, b: Entry) {
    a.FailedAt? && b.ClaimedAt? && a.id == b.id ==> a.at + RetryDelay(a.attempt) <= b.at
  }

  predicate GapsOk(s: State) {
    && (forall i :: 0 <= i < |s.history| ==> EntryOk(s, s.history[i]))
    && (forall i, j :: 0 <= i < j < |s.history| ==> PairOk(s.history[i], s.history[j]))
  }

  lemma EntryKept(registered: set<string>, s: State, e: Event, entry: Entry)
    requires QueueOk(s) && EntryOk(s, entry)
    ensures EntryOk(Step(registered, s, e), entry)
  {
    if e.Handle? && e.worker in s.workers && s.workers[e.worker].Handling? {
      DelayIsPositive(s.workers[e.worker].job.attempts);
    }
  }

  lemma NewEntryOk(registered: set<string>, s: State, e: Event)
    requires QueueOk(s) && GapsOk(s)
    ensures var s' := Step(registered, s, e);
            && (s'.history == s.history
                || (|s'.history| == |s.history| + 1 && s'.history[..|s.history|] == s.history
                    && EntryOk(s', s'.history[|s.history|])
                    && forall i :: 0 <= i < |s.history| ==> PairOk(s.history[i], s'.history[|s.history|])))
  {
  }

  lemma StepKeepsGaps(registered: set<string>, s: State, e: Event)
    requires QueueOk(s) && GapsOk(s)
    ensures GapsOk(Step(registered, s, e))
  {
    var s' := Step(registered, s, e);
    NewEntryOk(registered, s, e);
    forall i | 0 <= i < |s.history|
      ensures EntryOk(s', s.history[i]) && s'.history[i] == s.history[i]
    {
      EntryKept(registered, s, e, s.history[i]);
      assert s'.history[..|s.history|][i] == s'.history[i];
    }
  }

  lemma {:induction false} RunKeepsGaps(registered: set<string>, workers: set<WorkerId>, events: seq<Event>)
    ensures GapsOk(Run(registered, Init(workers), events))
    decreases |events|
  {
    if events != [] {
      RunKeepsGaps(registered, workers, events[..|events| - 1]);
      RunKeepsQueueOk(registered, workers, events[..|events| - 1]);
      StepKeepsGaps(registered, Run(registered, Init(workers), events[..|events| - 1]), events[|events| - 1]);
    }
  }

  /** Backoff over whole runs: any claim after the k-th attempt has failed reads a
      clock at least min(2^(k-1), 32) seconds past the one read at the failure. */
  lemma RetriesBackOff(registered: set<string>, workers: set<WorkerId>, events: seq<Event>, i: nat, j: nat)
    requires i < j < |Run(registered, Init(workers), events).history|
    ensures var history := Run(registered, Init(workers), events).history;
            history[i].FailedAt? && history[j].ClaimedAt? && history[i].id == history[j].id ==>
              history[i].at + RetryDelay(history[i].attempt) <= history[j].at
  {
    RunKeepsGaps(registered, workers, events);
    var history := Run(registered, Init(workers), events).history;
    assert PairOk(history[i], history[j]);
  }

  /** The wait is counted from the clock read before the failure is recorded, so
      after the record a job can be due again within less than its wait exactly
      when the clock moved in between. */
  lemma DueEarlyIffClockMoved(s: State, w: WorkerId)
    requires QueueOk(s) && w in s.workers && s.workers[w].Recording?
    requires s.workers[w].job.attempts < s.workers[w].job.maxAttempts
    ensures var worker := s.workers[w];
            var wait := RetryDelay(worker.job.attempts);
            (exists now :: s.clock <= now < s.clock + wait && Due(StepRecord(s, w).jobs, worker.id, now))
            <==> worker.nextRunAt - wait < s.clock
  {
    var worker := s.workers[w];
    var wait := RetryDelay(worker.job.attempts);
    DelayIsPositive(worker.job.attempts);
    if worker.nextRunAt - wait < s.clock {
      var now := if s.clock < worker.nextRunAt then worker.nextRunAt else s.clock;
      assert Due(StepRecord(s, w).jobs, worker.id, now);
    }
  }

  lemma RunOn(registered: set<string>, s: State, events: seq<Event>, e: Event)
    ensures Run(registered, s, events + [e]) == Step(registered, Run(registered, s, events), e)
  {
    assert (events + [e])[..|events|] == events;
  }

  const JOB := Job("kind", Queued, 0, 3, 0, 0, None)
  const TAKEN := JOB.(status := Running, attempts := 1)
  const ERROR := "job type is not registered"
  const FAILED := State(map["job" := TAKEN], map[0 := Recording("job", TAKEN, ERROR, SECOND)], 0,
                        [ClaimedAt("job", 1, 0), FailedAt("job", 1, 0)])

  lemma ReachFailed() returns (events: seq<Event>)
    ensures |events| == 4 && Run({}, Init({0}), events) == FAILED
  {
    var s0 := Init({0});
    var s1 := s0.(jobs := map["job" := JOB]);
    assert s1 == Step({}, s0, Enqueue("job", "kind", 3, 0));
    var s2 := s1.(workers := map[0 := Polling(0)]);
    assert s2 == Step({}, s1, Poll(0));
    var s3 := State(map["job" := TAKEN], map[0 := Handling("job", TAKEN)], 0, [ClaimedAt("job", 1, 0)]);
    assert s3 == Step({}, s2, TryClaim(0, "job"));
    assert FAILED == Step({}, s3, Handle(0, None));
    events := [];
    RunOn({}, s0, events, Enqueue("job", "kind", 3, 0));
    events := events + [Enqueue("job", "kind", 3, 0)];
    RunOn({}, s0, events, Poll(0));
    events := events + [Poll(0)];
    RunOn({}, s0, events, TryClaim(0, "job"));
    events := events + [TryClaim(0, "job")];
    RunOn({}, s0, events, Handle(0, None));
    events := events + [Handle(0, None)];
  }

  lemma ClaimAfterRecord(s: State)
    requires s == FAILED.(clock := SECOND)
    ensures var s' := Step({}, Step({}, Step({}, s, Record(0)), Poll(0)), TryClaim(0, "job"));
            s'.clock == SECOND && s'.history == s.history + [ClaimedAt("job", 2, SECOND)]
  {
    var queued := JOB.(attempts := 1, runAt := SECOND, lastError := Some(ERROR));
    var s1 := State(map["job" := queued], map[0 := Idle], SECOND, s.history);
    assert s1 == Step({}, s, Record(0));
    assert Step({}, s1, Poll(0)) == s1.(workers := map[0 := Polling(SECOND)]);
  }

  /** It does move: a job that fails at time 0 and is recorded a second later is
      claimed again at that very moment. */
  lemma ClaimedAgainAtOnce() returns (events: seq<Event>, s: State)
    ensures |events| == 8 && events[4..] == [Tick(SECOND), Record(0), Poll(0), TryClaim(0, "job")]
    ensures s == Run({}, Init({0}), events) && s.clock == SECOND
    ensures s.history == [ClaimedAt("job", 1, 0), FailedAt("job", 1, 0), ClaimedAt("job", 2, SECOND)]
  {
    events := ReachFailed();
    ClaimAfterRecord(FAILED.(clock := SECOND));
    var s0 := Init({0});
    RunOn({}, s0, events, Tick(SECOND));
    events := events + [Tick(SECOND)];
    RunOn({}, s0, events, Record(0));
    events := events + [Record(0)];
    RunOn({}, s0, events, Poll(0));
    events := events + [Poll(0)];
    RunOn({}, s0, events, TryClaim(0, "job"));
    events := events + [TryClaim(0, "job")];
    s := Run({}, s0, events);
  }
}
