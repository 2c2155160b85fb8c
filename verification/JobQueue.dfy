// The durable job queue as its callers see it: the effect of the `ops.*` database functions on the rows of
// `ops.jobs`. Every other module uses the queue only through these functions.
module JobQueue {

  datatype Option<+T> = None | Some(value: T)

  datatype Status = Queued | Running | RetryWait | Succeeded | DeadLetter | Cancelled

  predicate Active(status: Status) {
    status.Queued? || status.Running? || status.RetryWait?
  }

  /**
   * One row of `ops.jobs`. `result` keeps the one number of a recorded result that the model reads. `key` tells rows
   * of one payload apart: 0 is the key that submitters derive from the payload, others are an operator's retries.
   */
  datatype Job<+P> = Job(
    payload: P,
    key: nat,
    status: Status,
    holder: nat,
    leaseUntil: nat,
    availableAt: nat,
    attempts: nat,
    maxAttempts: nat,
    cancelRequested: bool,
    createdAt: nat,
    finishedAt: nat,
    result: nat)

  function NewJob<P>(payload: P, maxAttempts: nat, now: nat): Job<P> {
    Job(payload, 0, Queued, 0, 0, now, 0, maxAttempts, false, now, 0, 0)
  }

  /** `ops.retry_admin_job`: a new row for a terminal one, under a key of its own. */
  function RetriedJob<P>(job: Job<P>, key: nat, now: nat): Job<P> {
    NewJob(job.payload, job.maxAttempts, now).(key := key)
  }

  predicate HasActive<P(==)>(jobs: seq<Job<P>>, payload: P) {
    exists i :: 0 <= i < |jobs| && Active(jobs[i].status) && jobs[i].payload == payload && jobs[i].key == 0
  }

  /** Submission is deduplicated only against active jobs; a terminal job never absorbs a new one. */
  function Submit<P(==)>(jobs: seq<Job<P>>, payload: P, maxAttempts: nat, now: nat): seq<Job<P>> {
    if HasActive(jobs, payload) then jobs else jobs + [NewJob(payload, maxAttempts, now)]
  }

  /** `worker` holds a live lease on `job`. */
  predicate Holds<P>(job: Job<P>, worker: nat, now: nat) {
    job.status.Running? && job.holder == worker && now < job.leaseUntil
  }

  predicate Expired<P>(job: Job<P>, now: nat) {
    job.status.Running? && job.leaseUntil <= now
  }

  /**
   * The queue itself does not hand out an expired job whose cancellation was requested; workers are prepared for one,
   * so a claim may return it here.
   */
  predicate Claimable<P>(job: Job<P>, now: nat) {
    && job.attempts < job.maxAttempts
    && (((job.status.Queued? || job.status.RetryWait?) && job.availableAt <= now)
        || Expired(job, now))
  }

  function Claimed<P>(job: Job<P>, worker: nat, now: nat, lease: nat): Job<P> {
    job.(status := Running, holder := worker, leaseUntil := now + lease, attempts := job.attempts + 1)
  }

  /** The cleanup done by a claim: an expired lease that may not be claimed again becomes terminal. */
  predicate Reapable<P>(job: Job<P>, now: nat) {
    Expired(job, now) && (job.cancelRequested || job.attempts >= job.maxAttempts)
  }

  function Reaped<P>(job: Job<P>, now: nat): Job<P> {
    job.(status := if job.cancelRequested then Cancelled else DeadLetter, cancelRequested := false, finishedAt := now)
  }

  function Renewed<P>(job: Job<P>, now: nat, lease: nat): Job<P> {
    job.(leaseUntil := now + lease)
  }

  /** A pending cancellation is acknowledged instead of success, retry or dead letter. */
  function Completed<P>(job: Job<P>, now: nat, result: nat): Job<P> {
    if job.cancelRequested then job.(status := Cancelled, cancelRequested := false, finishedAt := now)
    else job.(status := Succeeded, finishedAt := now, result := result)
  }

  function Failed<P>(job: Job<P>, now: nat, terminal: bool, delay: nat): Job<P> {
    if job.cancelRequested then job.(status := Cancelled, cancelRequested := false, finishedAt := now)
    else if terminal || job.attempts >= job.maxAttempts then job.(status := DeadLetter, finishedAt := now)
    else job.(status := RetryWait, availableAt := now + delay)
  }

  function CancelRequested<P>(job: Job<P>, now: nat): Job<P> {
    if job.status.Running? then job.(cancelRequested := true)
    else if Active(job.status) then job.(status := Cancelled, finishedAt := now)
    else job
  }
}
