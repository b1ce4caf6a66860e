/** internal/job/repository.go and internal/job/runner.go: background jobs that
    several workers claim, retry with backoff and finish. The conditional
    UPDATEs are functions on the table of jobs. */
module JobQueue {
  import opened Options

  type JobId = string
  type WorkerId = nat

  datatype JobStatus = Queued | Running | Succeeded | Failed

  datatype Job = Job(
    kind: string, status: JobStatus, attempts: int, maxAttempts: int,
    runAt: Time, createdAt: Time, lastError: Option<string>)

  type Jobs = map<JobId, Job>

  datatype Claim = Claim(id: JobId, job: Job)

  datatype JobError = NoJobAvailable | JobNotRunning

  // ---- statements ----

  predicate Due(jobs: Jobs, id: JobId, now: Time) {
    id in jobs && jobs[id].status == Queued && jobs[id].runAt <= now
  }

  predicate NotAfter(a: Job, b: Job) {
    a.runAt < b.runAt || (a.runAt == b.runAt && a.createdAt <= b.createdAt)
  }

  /** ORDER BY run_at, created_at LIMIT 1. */
  predicate First(jobs: Jobs, id: JobId, now: Time) {
    Due(jobs, id, now) && forall k :: k in jobs && Due(jobs, k, now) ==> NotAfter(jobs[id], jobs[k])
  }

  /** Create's INSERT, refused by the primary key and the CHECK constraints. */
  function Inserted(jobs: Jobs, id: JobId, kind: string, maxAttempts: int, runAt: Time, now: Time): Option<Jobs> {
    if id in jobs || kind == "" || maxAttempts <= 0 then None
    else Some(jobs[id := Job(kind, Queued, 0, maxAttempts, runAt, now, None)])
  }

  /** id waits and is due, and no other due job has waited longer: none is due earlier,
      and none due at the same moment was created earlier. */
  predicate WaitedLongest(jobs: Jobs, id: JobId, now: Time) {
    && id in jobs && jobs[id].status == Queued && jobs[id].runAt <= now
    && forall k :: k in jobs && jobs[k].status == Queued && jobs[k].runAt <= now ==>
         && jobs[id].runAt <= jobs[k].runAt
         && (jobs[k].runAt == jobs[id].runAt ==> jobs[id].createdAt <= jobs[k].createdAt)
  }

  /** The first of the query's order is the due job that has waited longest. */
  lemma FirstHasWaitedLongest(jobs: Jobs, id: JobId, now: Time)
    ensures First(jobs, id, now) <==> WaitedLongest(jobs, id, now)
  {
    forall k | k in jobs && Due(jobs, k, now) && First(jobs, id, now)
      ensures NotAfter(jobs[id], jobs[k])
    {
    }
  }

  function Claimed(jobs: Jobs, id: JobId): Jobs
    requires id in jobs
  {
    jobs[id := jobs[id].(status := Running, attempts := jobs[id].attempts + 1)]
  }

  function MarkSucceeded(jobs: Jobs, id: JobId): Option<Jobs> {
    if id in jobs && jobs[id].status == Running
    then Some(jobs[id := jobs[id].(status := Succeeded, lastError := None)])
    else None
  }

  function RetryOrFail(jobs: Jobs, id: JobId, error: string, nextRunAt: Time): Option<Jobs> {
    if id in jobs && jobs[id].status == Running then
      var job := jobs[id];
      Some(jobs[id := if job.attempts >= job.maxAttempts
                      then job.(status := Failed, lastError := Some(error))
                      else job.(status := Queued, runAt := nextRunAt, lastError := Some(error))])
    else None
  }

  function Pow2(n: nat): int {
    if n == 0 then 1 else 2 * Pow2(n - 1)
  }

  /** defaultRetryDelay; a shift by n multiplies by 2 to the n. */
  function RetryDelay(attempts: int): Time {
    if attempts <= 1 then SECOND
    else if attempts >= 6 then 32 * SECOND
    else SECOND * Pow2(attempts - 1)
  }

  lemma {:induction false} Pow2Grows(a: nat, b: nat)
    requires a <= b
    ensures 1 <= Pow2(a) <= Pow2(b)
    decreases b
  {
    if a < b {
      Pow2Grows(a, b - 1);
    } else if 0 < a {
      Pow2Grows(a - 1, b - 1);
    }
  }

  /** The wait doubles with every failure from one second, up to 32. */
  lemma DelayDoublesUpTo32(attempts: nat)
    requires 1 <= attempts
    ensures RetryDelay(attempts) == SECOND * (if Pow2(attempts - 1) <= 32 then Pow2(attempts - 1) else 32)
  {
    assert Pow2(1) == 2 && Pow2(2) == 4 && Pow2(3) == 8 && Pow2(4) == 16 && Pow2(5) == 32;
    if attempts >= 6 {
      Pow2Grows(5, attempts - 1);
    } else {
      Pow2Grows(attempts - 1, 5);
    }
  }

  lemma DelayIsPositive(attempts: int)
    ensures SECOND <= RetryDelay(attempts) <= 32 * SECOND
  {
    if 1 < attempts < 6 {
      assert Pow2(5) == 32 by { assert Pow2(1) == 2 && Pow2(2) == 4 && Pow2(3) == 8 && Pow2(4) == 16; }
      Pow2Grows(attempts - 1, 5);
    }
  }

  /** Among jobs one comes first. */
  lemma {:induction false} SomeJobIsFirst(jobs: Jobs, due: set<JobId>) returns (id: JobId)
    requires due != {} && forall k :: k in due ==> k in jobs
    ensures id in due && forall k :: k in due ==> NotAfter(jobs[id], jobs[k])
    decreases |due|
  {
    id :| id in due;
    if due != {id} {
      var rest := SomeJobIsFirst(jobs, due - {id});
      if NotAfter(jobs[rest], jobs[id]) {
        id := rest;
      }
    }
  }

  ghost function DueJobs(jobs: Jobs, now: Time): set<JobId> {
    set k | k in jobs && Due(jobs, k, now)
  }

  // ---- the repository and one turn of a worker ----

  class JobRepository {
    var jobs: Jobs

    constructor ()
      ensures jobs == map[]
    {
      jobs := map[];
    }

    method Create(id: JobId, kind: string, maxAttempts: int, runAt: Time, now: Time) returns (ok: bool)
      modifies this
      ensures ok <==> Inserted(old(jobs), id, kind, maxAttempts, runAt, now).Some?
      ensures jobs == if ok then Inserted(old(jobs), id, kind, maxAttempts, runAt, now).value else old(jobs)
    {
      ok := id !in jobs && kind != "" && maxAttempts > 0;
      if ok {
        jobs := jobs[id := Job(kind, Queued, 0, maxAttempts, runAt, now, None)];
      }
    }

    /** Takes a first due job whenever there is a due job. */
    method ClaimNext(now: Time) returns (r: Result<Claim, JobError>)
      modifies this
      ensures r.Err? <==> forall k :: k in old(jobs) ==> old(jobs)[k].status != Queued || now < old(jobs)[k].runAt
      ensures r.Ok? ==> WaitedLongest(old(jobs), r.value.id, now) && jobs == Claimed(old(jobs), r.value.id)
                        && r.value.job == jobs[r.value.id]
      ensures r.Err? ==> r.error == NoJobAvailable && jobs == old(jobs)
    {
      if k :| k in jobs && Due(jobs, k, now) {
        assert k in DueJobs(jobs, now);
        ghost var first := SomeJobIsFirst(jobs, DueJobs(jobs, now));
        assert First(jobs, first, now);
        var id :| id in jobs && First(jobs, id, now);
        FirstHasWaitedLongest(jobs, id, now);
        jobs := Claimed(jobs, id);
        r := Ok(Claim(id, jobs[id]));
      } else {
        r := Err(NoJobAvailable);
      }
    }

    method Succeed(id: JobId) returns (completed: bool)
      modifies this
      ensures completed <==> MarkSucceeded(old(jobs), id).Some?
      ensures jobs == if completed then MarkSucceeded(old(jobs), id).value else old(jobs)
    {
      completed := id in jobs && jobs[id].status == Running;
      if completed {
        jobs := jobs[id := jobs[id].(status := Succeeded, lastError := None)];
      }
    }

    method Fail(id: JobId, error: string, nextRunAt: Time) returns (r: Result<Job, JobError>)
      modifies this
      ensures r.Ok? <==> RetryOrFail(old(jobs), id, error, nextRunAt).Some?
      ensures r.Ok? ==> jobs == RetryOrFail(old(jobs), id, error, nextRunAt).value && r.value == jobs[id]
      ensures r.Err? ==> r.error == JobNotRunning && jobs == old(jobs)
    {
      if !(id in jobs && jobs[id].status == Running) {
        return Err(JobNotRunning);
      }
      var job := jobs[id];
      if job.attempts >= job.maxAttempts {
        job := job.(status := Failed);
      } else {
        job := job.(status := Queued, runAt := nextRunAt);
      }
      jobs := jobs[id := job.(lastError := Some(error))];
      r := Ok(jobs[id]);
    }

    /** One turn of a worker with nobody else at the table: the first due job ends
        succeeded, back in the queue at least a second later, or failed after its
        last attempt; JobNotRunning never comes back. */
    method ProcessNext(started: Time, handlers: map<string, Job -> Option<string>>, finished: Time)
      returns (r: Result<Option<JobId>, JobError>)
      modifies this
      ensures r.Ok?
      ensures r.value.None? ==>
                jobs == old(jobs) && forall k :: k in jobs ==> jobs[k].status != Queued || started < jobs[k].runAt
      ensures r.value.Some? ==>
                var id := r.value.value;
                && WaitedLongest(old(jobs), id, started)
                && var ran := Claimed(old(jobs), id)[id];
                   var error := if ran.kind in handlers then handlers[ran.kind](ran)
                                else Some("job type is not registered");
                   && id in jobs && jobs == old(jobs)[id := jobs[id]]
                   && jobs[id].attempts == old(jobs)[id].attempts + 1
                   && (error.None? <==> jobs[id].status == Succeeded)
                   && (jobs[id].status == Failed <==> error.Some? && jobs[id].attempts >= jobs[id].maxAttempts)
                   && (jobs[id].status == Queued ==> finished + SECOND <= jobs[id].runAt <= finished + 32 * SECOND)
                   && jobs[id].status != Running
                   && jobs[id].lastError == error
    {
      var claim := ClaimNext(started);
      if claim.Err? {
        return Ok(None);
      }
      var id, job := claim.value.id, claim.value.job;
      var error := if job.kind in handlers then handlers[job.kind](job) else Some("job type is not registered");
      if error.Some? {
        DelayIsPositive(job.attempts);
        var updated := Fail(id, error.value, finished + RetryDelay(job.attempts));
        if updated.Err? {
          assert false;
          return Err(JobNotRunning);
        }
      } else {
        var completed := Succeed(id);
        if !completed {
          assert false;
          return Err(JobNotRunning);
        }
      }
      r := Ok(Some(id));
    }
  }
}
