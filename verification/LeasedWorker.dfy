// The polling worker of `tmdb-jobs`: any number of workers claim, heartbeat, execute, abort and record
// outcomes under leases that expire. Each `select!` arm, task end, database error and lease expiry is a
// separate nondeterministic step.
module LeasedWorker {
  import opened JobQueue

  /** One claim of one job, numbered by the job's attempt counter. */
  datatype ClaimId = ClaimId(job: nat, attempt: nat)

  datatype Verdict = Ok | RetryLater | Permanent | Panicked | Aborted

  /** The arm of `select!` that `execute_claimed` took; `Acknowledge` is its early branch. */
  datatype Arm = Shutdown | LeaseLost | JobCancelled | Executed | Acknowledge

  datatype Phase = Idle | Selecting | Aborting | Recording | Joining | Stopped

  datatype Kind = Execution | Heartbeat

  /** A spawned task. `polling` is the heartbeat's position between its two queries. */
  datatype Task = Task(worker: nat, kind: Kind, alive: bool, polling: bool, verdict: Verdict)

  datatype Worker = Worker(
    phase: Phase,
    claim: ClaimId,
    arm: Arm,
    execution: nat,
    heartbeat: nat,
    leaseLost: bool,
    jobCancelled: bool,
    shutdown: bool)

  /** A recorded change of a job row: by a worker under its claim, or by the queue itself. */
  datatype Change = ByWorker(claim: ClaimId, worker: nat) | ByQueue(job: nat)

  datatype Entry = Entry(change: Change, terminal: bool)

  function EntryJob(e: Entry): nat {
    match e.change case ByWorker(c, _) => c.job case ByQueue(j) => j
  }

  /**
   * `late` holds the outcome calls whose replies were errors, with the verdict they carry: they may yet take effect.
   * `claims`, `arms`, `calls` and `log` record history; `claims` and `arms` also tell who made a late call and why.
   */
  datatype State = State(
    now: nat,
    jobs: seq<Job<nat>>,
    workers: map<nat, Worker>,
    tasks: seq<Task>,
    claims: map<ClaimId, nat>,
    arms: map<ClaimId, Arm>,
    calls: seq<ClaimId>,
    late: map<ClaimId, Verdict>,
    log: seq<Entry>)

  datatype Action =
    | Tick(elapsed: nat)
    | SubmitJob(payload: nat, maxAttempts: nat)
    | RequestCancel(job: nat)
    | Reap(job: nat)
    | StrayRenew(worker: nat, job: nat, lease: nat)
    | RequestShutdown(worker: nat)
    | Stop(worker: nat)
    | Claim(worker: nat, job: nat, lease: nat)
    | ClaimLost(worker: nat, job: nat, lease: nat)
    | Renew(worker: nat, ok: bool, lease: nat)
    | Poll(worker: nat, cancelled: bool, failed: bool)
    | HeartbeatEnds(worker: nat)
    | ExecutionEnds(worker: nat, verdict: Verdict)
    | Select(worker: nat, arm: Arm)
    | Awaited(worker: nat)
    | Call(worker: nat, applied: bool, delay: nat)
    | Land(claim: ClaimId, delay: nat)
    | Join(worker: nat)

  predicate Engaged(k: Worker) {
    !k.phase.Idle? && !k.phase.Stopped?
  }

  predicate TaskAlive(s: State, t: nat) {
    t < |s.tasks| && s.tasks[t].alive
  }

  predicate Enabled(s: State, a: Action) {
    match a
    case Tick(_) => true
    case SubmitJob(_, _) => true
    case RequestCancel(j) => j < |s.jobs|
    case Reap(j) => j < |s.jobs| && Reapable(s.jobs[j], s.now)
    case StrayRenew(w, j, _) => j < |s.jobs| && Holds(s.jobs[j], w, s.now)
    case RequestShutdown(w) => w in s.workers
    case Stop(w) => w in s.workers && s.workers[w].phase.Idle?
    case Claim(w, j, _) => w in s.workers && s.workers[w].phase.Idle? && j < |s.jobs| && Claimable(s.jobs[j], s.now)
    case ClaimLost(w, j, _) => w in s.workers && s.workers[w].phase.Idle? && j < |s.jobs| && Claimable(s.jobs[j], s.now)
    case Renew(w, ok, _) =>
      w in s.workers && Engaged(s.workers[w]) && s.workers[w].claim.job < |s.jobs|
      && TaskAlive(s, s.workers[w].heartbeat) && s.tasks[s.workers[w].heartbeat].worker == w
      && s.tasks[s.workers[w].heartbeat].kind.Heartbeat? && !s.tasks[s.workers[w].heartbeat].polling
      && (ok ==> Holds(s.jobs[s.workers[w].claim.job], w, s.now))
    case Poll(w, cancelled, failed) =>
      w in s.workers && Engaged(s.workers[w]) && s.workers[w].claim.job < |s.jobs|
      && TaskAlive(s, s.workers[w].heartbeat) && s.tasks[s.workers[w].heartbeat].worker == w
      && s.tasks[s.workers[w].heartbeat].kind.Heartbeat? && s.tasks[s.workers[w].heartbeat].polling
      && (cancelled && !failed ==> s.jobs[s.workers[w].claim.job].cancelRequested)
    case HeartbeatEnds(w) =>
      w in s.workers && s.workers[w].phase.Joining? && TaskAlive(s, s.workers[w].heartbeat)
      && s.tasks[s.workers[w].heartbeat].worker == w && s.tasks[s.workers[w].heartbeat].kind.Heartbeat?
    case ExecutionEnds(w, verdict) =>
      w in s.workers && (s.workers[w].phase.Selecting? || s.workers[w].phase.Aborting?)
      && TaskAlive(s, s.workers[w].execution) && s.tasks[s.workers[w].execution].worker == w
      && s.tasks[s.workers[w].execution].kind.Execution?
      && (verdict.Aborted? ==> s.workers[w].phase.Aborting?)
    case Select(w, arm) =>
      w in s.workers && s.workers[w].phase.Selecting? && s.workers[w].execution < |s.tasks|
      && (match arm
          case Shutdown => s.workers[w].shutdown
          case LeaseLost => s.workers[w].leaseLost
          case JobCancelled => s.workers[w].jobCancelled
          case Executed => !s.tasks[s.workers[w].execution].alive
          case Acknowledge => false)
    case Awaited(w) =>
      w in s.workers && s.workers[w].phase.Aborting? && !TaskAlive(s, s.workers[w].execution)
    case Call(w, applied, _) =>
      w in s.workers && s.workers[w].phase.Recording? && s.workers[w].claim.job < |s.jobs|
      && (s.workers[w].arm.Executed? ==> s.workers[w].execution < |s.tasks|)
      && (applied ==> Holds(s.jobs[s.workers[w].claim.job], w, s.now))
    case Land(c, _) =>
      c in s.late && c in s.claims && c in s.arms && c.job < |s.jobs| && Holds(s.jobs[c.job], s.claims[c], s.now)
    case Join(w) =>
      w in s.workers && s.workers[w].phase.Joining? && !TaskAlive(s, s.workers[w].heartbeat)
  }

  /** The row after the outcome call: `complete`, `fail` or `dead_letter`, by arm and result. */
  function Recorded(job: Job<nat>, now: nat, arm: Arm, verdict: Verdict, delay: nat): Job<nat> {
    if !arm.Executed? || verdict.Ok? then Completed(job, now, 0)
    else Failed(job, now, verdict.Permanent?, delay)
  }

  function VerdictOf(s: State, k: Worker): Verdict {
    if k.execution < |s.tasks| then s.tasks[k.execution].verdict else Aborted
  }

  function SetWorker(s: State, w: nat, k: Worker): State {
    s.(workers := s.workers[w := k])
  }

  function Apply(s: State, a: Action): State
    requires Enabled(s, a)
  {
    match a
    case Tick(elapsed) => s.(now := s.now + elapsed)
    case SubmitJob(payload, max) => s.(jobs := Submit(s.jobs, payload, max, s.now))
    case RequestCancel(j) =>
      var job := s.jobs[j];
      s.(jobs := s.jobs[j := CancelRequested(job, s.now)],
         log := if Active(job.status) && !job.status.Running? then s.log + [Entry(ByQueue(j), true)] else s.log)
    case Reap(j) => s.(jobs := s.jobs[j := Reaped(s.jobs[j], s.now)], log := s.log + [Entry(ByQueue(j), true)])
    case StrayRenew(w, j, lease) => s.(jobs := s.jobs[j := Renewed(s.jobs[j], s.now, lease)])
    case RequestShutdown(w) => SetWorker(s, w, s.workers[w].(shutdown := true))
    case Stop(w) => SetWorker(s, w, s.workers[w].(phase := Stopped))
    case Claim(w, j, lease) =>
      var job := Claimed(s.jobs[j], w, s.now, lease);
      var id := ClaimId(j, job.attempts);
      var n := |s.tasks|;
      var k := Worker(if job.cancelRequested then Recording else Selecting, id,
                      if job.cancelRequested then Acknowledge else Executed, n, n + 1, false, false,
                      s.workers[w].shutdown);
      s.(jobs := s.jobs[j := job],
         workers := s.workers[w := k],
         tasks := if job.cancelRequested then s.tasks
                  else s.tasks + [Task(w, Execution, true, false, Aborted), Task(w, Heartbeat, true, false, Aborted)],
         claims := s.claims[id := w],
         arms := if job.cancelRequested then s.arms[id := Acknowledge] else s.arms)
    case ClaimLost(w, j, lease) =>
      var job := Claimed(s.jobs[j], w, s.now, lease);
      s.(jobs := s.jobs[j := job], claims := s.claims[ClaimId(j, job.attempts) := w])
    case Renew(w, ok, lease) =>
      var k := s.workers[w];
      if ok then
        s.(jobs := s.jobs[k.claim.job := Renewed(s.jobs[k.claim.job], s.now, lease)],
           tasks := s.tasks[k.heartbeat := s.tasks[k.heartbeat].(polling := true)])
      else
        s.(workers := s.workers[w := k.(leaseLost := true)],
           tasks := s.tasks[k.heartbeat := s.tasks[k.heartbeat].(alive := false)])
    case Poll(w, cancelled, failed) =>
      var k := s.workers[w];
      if failed then
        s.(workers := s.workers[w := k.(leaseLost := true)],
           tasks := s.tasks[k.heartbeat := s.tasks[k.heartbeat].(alive := false)])
      else if cancelled then
        s.(workers := s.workers[w := k.(jobCancelled := true)],
           tasks := s.tasks[k.heartbeat := s.tasks[k.heartbeat].(alive := false)])
      else
        s.(tasks := s.tasks[k.heartbeat := s.tasks[k.heartbeat].(polling := false)])
    case HeartbeatEnds(w) =>
      var t := s.workers[w].heartbeat;
      s.(tasks := s.tasks[t := s.tasks[t].(alive := false)])
    case ExecutionEnds(w, verdict) =>
      var t := s.workers[w].execution;
      s.(tasks := s.tasks[t := s.tasks[t].(alive := false, verdict := verdict)])
    case Select(w, arm) =>
      var k := s.workers[w];
      s.(workers := s.workers[w := k.(phase := if arm.Executed? then Recording else Aborting, arm := arm)],
         arms := s.arms[k.claim := arm])
    case Awaited(w) =>
      SetWorker(s, w, s.workers[w].(phase := if s.workers[w].arm.JobCancelled? then Recording else Joining))
    case Call(w, applied, delay) =>
      var k := s.workers[w];
      var job := s.jobs[k.claim.job];
      var after := Recorded(job, s.now, k.arm, VerdictOf(s, k), delay);
      s.(jobs := if applied then s.jobs[k.claim.job := after] else s.jobs,
         workers := s.workers[w := k.(phase := if k.arm.Acknowledge? then Idle else Joining)],
         calls := s.calls + [k.claim],
         late := if applied then s.late else s.late[k.claim := VerdictOf(s, k)],
         log := if applied then s.log + [Entry(ByWorker(k.claim, w), !Active(after.status))] else s.log)
    case Land(c, delay) =>
      var after := Recorded(s.jobs[c.job], s.now, s.arms[c], s.late[c], delay);
      s.(jobs := s.jobs[c.job := after], late := s.late - {c},
         log := s.log + [Entry(ByWorker(c, s.claims[c]), !Active(after.status))])
    case Join(w) => SetWorker(s, w, s.workers[w].(phase := Idle))
  }

  predicate Init(s: State) {
    && s.jobs == [] && s.tasks == [] && s.claims == map[] && s.arms == map[] && s.calls == []
    && s.late == map[] && s.log == []
    && forall w :: w in s.workers ==> s.workers[w].phase.Idle?
  }

  /** The state after a sequence of actions; `None` when one was not enabled. */
  function Execute(s: State, actions: seq<Action>): Option<State> {
    if actions == [] then Some(s)
    else
      var before := Execute(s, actions[..|actions| - 1]);
      var a := actions[|actions| - 1];
      if before.Some? && Enabled(before.value, a) then Some(Apply(before.value, a)) else None
  }

  ghost predicate Reachable(s: State) {
    exists s0: State, actions :: Init(s0) && Execute(s0, actions) == Some(s)
  }

  // ---- invariant ----------------------------------------------------------------------------------

  /** Claim history agrees with the rows: the last claim of a running row was made by its holder. */
  ghost predicate ClaimsOk(s: State) {
    && (forall c :: c in s.claims ==> c.job < |s.jobs| && 1 <= c.attempt <= s.jobs[c.job].attempts)
    && (forall j :: 0 <= j < |s.jobs| && s.jobs[j].status.Running? ==>
          var c := ClaimId(j, s.jobs[j].attempts);
          c in s.claims && s.claims[c] == s.jobs[j].holder)
  }

  /** An engaged worker works on its own claim, and has made no later claim of the same job. */
  ghost predicate WorkersOk(s: State) {
    forall w :: w in s.workers && Engaged(s.workers[w]) ==> OwnNewest(s.claims, w, s.workers[w].claim)
  }

  ghost predicate OwnNewest(claims: map<ClaimId, nat>, w: nat, own: ClaimId) {
    && own in claims && claims[own] == w
    && forall c :: c in claims && claims[c] == w && c.job == own.job ==> c.attempt <= own.attempt
  }

  /** The live tasks of a worker are the execution and the heartbeat it is waiting for. */
  ghost predicate TasksOk(s: State) {
    forall t :: 0 <= t < |s.tasks| && s.tasks[t].alive ==> TaskOk(s.workers, s.tasks, t)
  }

  ghost predicate TaskOk(workers: map<nat, Worker>, tasks: seq<Task>, t: nat)
    requires t < |tasks|
  {
    var w := tasks[t].worker;
    && w in workers && Engaged(workers[w]) && !workers[w].arm.Acknowledge?
    && (if tasks[t].kind.Execution? then
          t == workers[w].execution && (workers[w].phase.Selecting? || workers[w].phase.Aborting?)
        else t == workers[w].heartbeat)
  }

  /** Each claim is called for at most once, under an arm other than shutdown or lease loss. */
  ghost predicate CallHistoryOk(s: State) {
    && (forall i :: 0 <= i < |s.calls| ==> s.calls[i] in s.claims && s.calls[i] in s.arms
                                           && !s.arms[s.calls[i]].Shutdown? && !s.arms[s.calls[i]].LeaseLost?)
    && (forall i, j :: 0 <= i < j < |s.calls| ==> s.calls[i] != s.calls[j])
    && (forall c :: c in s.arms ==> c in s.claims)
  }

  /** A worker's arm is on record once chosen, and its claim is not called for before it records. */
  ghost predicate CallersOk(s: State) {
    forall w :: w in s.workers && Engaged(s.workers[w]) ==> CallerOk(s.arms, s.calls, s.workers[w])
  }

  ghost predicate CallerOk(arms: map<ClaimId, Arm>, calls: seq<ClaimId>, k: Worker) {
    && (k.phase.Selecting? ==> k.claim !in arms)
    && (!k.phase.Selecting? ==> k.claim in arms && arms[k.claim] == k.arm)
    && (!k.phase.Joining? ==> k.claim !in calls)
    && (k.phase.Recording? ==> !k.arm.Shutdown? && !k.arm.LeaseLost?)
  }

  /**
   * A worker told of a cancellation holds a claim of a row whose cancellation was requested, or that has ended since.
   */
  ghost predicate CancelsOk(s: State) {
    forall w :: w in s.workers ==> CancelOk(s.jobs, s.workers[w])
  }

  /** Recorded changes agree with the rows and with the claim history. */
  ghost predicate LogRowsOk(s: State) {
    forall i :: 0 <= i < |s.log| ==>
      var e := s.log[i];
      && EntryJob(e) < |s.jobs|
      && (e.terminal ==> !Active(s.jobs[EntryJob(e)].status))
      && (e.change.ByWorker? ==>
            e.change.claim in s.claims && s.claims[e.change.claim] == e.change.worker && e.change.claim in s.calls)
  }

  /** A late call was made, is not recorded, and tells of a cancellation only if one was requested. */
  ghost predicate LateOk(s: State) {
    forall c :: c in s.late ==> LateCallOk(s, c)
  }

  ghost predicate LateCallOk(s: State, c: ClaimId) {
    && c in s.calls && c in s.claims && c in s.arms && c.job < |s.jobs|
    && Unrecorded(s.log, c)
    && (s.arms[c].JobCancelled? || s.arms[c].Acknowledge? ==>
          s.jobs[c.job].cancelRequested || !Active(s.jobs[c.job].status))
  }

  /** Nothing follows a terminal change of a job, and no claim is recorded twice. */
  ghost predicate LogDistinct(log: seq<Entry>) {
    && (forall i, j :: 0 <= i < j < |log| && log[i].terminal ==> EntryJob(log[i]) != EntryJob(log[j]))
    && (forall i, j :: 0 <= i < j < |log| && log[i].change.ByWorker? && log[j].change.ByWorker? ==>
          log[i].change.claim != log[j].change.claim)
  }

  ghost predicate Inv(s: State) {
    ClaimsOk(s) && WorkersOk(s) && TasksOk(s) && CallHistoryOk(s) && CallersOk(s) && CancelsOk(s)
    && LogRowsOk(s) && LateOk(s) && LogDistinct(s.log)
  }

  lemma RecordedEnds(job: Job<nat>, now: nat, arm: Arm, verdict: Verdict, delay: nat)
    requires job.status.Running?
    ensures var after := Recorded(job, now, arm, verdict, delay);
            !after.status.Running? && after.attempts == job.attempts
  {
  }

  /** A step that claims nothing and lets no row be running that was not. */
  lemma RowsKeepClaims(s: State, t: State)
    requires ClaimsOk(s) && t.claims == s.claims && |s.jobs| <= |t.jobs|
    requires forall j :: 0 <= j < |s.jobs| ==>
               && t.jobs[j].attempts == s.jobs[j].attempts
               && (t.jobs[j].status.Running? ==> s.jobs[j].status.Running? && t.jobs[j].holder == s.jobs[j].holder)
    requires forall j :: |s.jobs| <= j < |t.jobs| ==> !t.jobs[j].status.Running?
    ensures ClaimsOk(t)
  {
  }

  lemma ClaimKeepsClaims(s: State, a: Action)
    requires ClaimsOk(s) && Enabled(s, a) && (a.Claim? || a.ClaimLost?)
    ensures ClaimsOk(Apply(s, a))
  {
  }

  lemma KeepsClaims(s: State, a: Action)
    requires ClaimsOk(s) && Enabled(s, a)
    ensures ClaimsOk(Apply(s, a))
  {
    hide ClaimsOk, Recorded, VerdictOf;
    if a.Claim? || a.ClaimLost? {
      ClaimKeepsClaims(s, a);
    } else {
      if a.Call? {
        var k := s.workers[a.worker];
        if a.applied { RecordedEnds(s.jobs[k.claim.job], s.now, k.arm, VerdictOf(s, k), a.delay); }
      } else if a.Land? {
        RecordedEnds(s.jobs[a.claim.job], s.now, s.arms[a.claim], s.late[a.claim], a.delay);
      }
      RowsKeepClaims(s, Apply(s, a));
    }
  }

  lemma KeepsWorkers(s: State, a: Action)
    requires ClaimsOk(s) && WorkersOk(s) && Enabled(s, a)
    ensures WorkersOk(Apply(s, a))
  {
    hide Recorded;
    var t := Apply(s, a);
    forall w | w in t.workers && Engaged(t.workers[w]) ensures OwnNewest(t.claims, w, t.workers[w].claim) {
      if a.Claim? { ClaimKeepsNewest(s, a, w); }
    }
  }

  lemma ClaimKeepsNewest(s: State, a: Action, w: nat)
    requires ClaimsOk(s) && WorkersOk(s) && Enabled(s, a) && a.Claim?
    requires w in s.workers && Engaged(Apply(s, a).workers[w])
    ensures OwnNewest(Apply(s, a).claims, w, Apply(s, a).workers[w].claim)
  {
    if w != a.worker { assert OwnNewest(s.claims, w, s.workers[w].claim); }
  }

  lemma KeepsTasks(s: State, a: Action)
    requires TasksOk(s) && Enabled(s, a)
    ensures TasksOk(Apply(s, a))
  {
    var t := Apply(s, a);
    forall i | 0 <= i < |t.tasks| && t.tasks[i].alive ensures TaskOk(t.workers, t.tasks, i) {
      KeepsTask(s, a, i);
    }
  }

  lemma KeepsTask(s: State, a: Action, i: nat)
    requires TasksOk(s) && Enabled(s, a) && TaskAlive(Apply(s, a), i)
    ensures TaskOk(Apply(s, a).workers, Apply(s, a).tasks, i)
  {
    hide Recorded;
    if a.Claim? {
      ClaimKeepsTask(s, a, i);
    } else {
      assert TaskOk(s.workers, s.tasks, i);
    }
  }

  lemma ClaimKeepsTask(s: State, a: Action, i: nat)
    requires TasksOk(s) && Enabled(s, a) && a.Claim? && TaskAlive(Apply(s, a), i)
    ensures TaskOk(Apply(s, a).workers, Apply(s, a).tasks, i)
  {
    if i < |s.tasks| { assert TaskOk(s.workers, s.tasks, i); }
  }

  /**
   * Rows are only appended; a cancellation request stays until the row is terminal, attempts only grow, a terminal
   * row never changes.
   */
  ghost predicate RowsEvolve(jobs: seq<Job<nat>>, later: seq<Job<nat>>) {
    && |jobs| <= |later|
    && forall j :: 0 <= j < |jobs| ==>
         && (jobs[j].cancelRequested ==> later[j].cancelRequested || !Active(later[j].status))
         && jobs[j].attempts <= later[j].attempts
         && (!Active(jobs[j].status) ==> later[j] == jobs[j])
         && (later[j].status.Running? && later[j].attempts == jobs[j].attempts ==> jobs[j].status.Running?)
  }

  lemma StepEvolvesRows(s: State, a: Action)
    requires Enabled(s, a)
    ensures RowsEvolve(s.jobs, Apply(s, a).jobs)
  {
  }

  lemma CallKeepsHistory(s: State, a: Action)
    requires CallHistoryOk(s) && CallersOk(s) && WorkersOk(s) && Enabled(s, a) && a.Call?
    ensures CallHistoryOk(Apply(s, a))
  {
    assert CallerOk(s.arms, s.calls, s.workers[a.worker]) && OwnNewest(s.claims, a.worker, s.workers[a.worker].claim);
    hide Recorded, VerdictOf, WorkersOk, CallersOk;
  }

  lemma ArmKeepsHistory(s: State, a: Action)
    requires CallHistoryOk(s) && CallersOk(s) && ClaimsOk(s) && WorkersOk(s) && Enabled(s, a) && (a.Claim? || a.Select?)
    ensures CallHistoryOk(Apply(s, a))
  {
    if a.Claim? {
      assert Apply(s, a).workers[a.worker].claim !in s.claims;
    } else {
      assert CallerOk(s.arms, s.calls, s.workers[a.worker]) && OwnNewest(s.claims, a.worker, s.workers[a.worker].claim);
    }
    hide WorkersOk, CallersOk, ClaimsOk;
  }

  lemma KeepsCallHistory(s: State, a: Action)
    requires CallHistoryOk(s) && CallersOk(s) && ClaimsOk(s) && WorkersOk(s) && Enabled(s, a)
    ensures CallHistoryOk(Apply(s, a))
  {
    hide CallersOk, ClaimsOk, WorkersOk, Recorded, VerdictOf, Apply;
    if a.Call? {
      CallKeepsHistory(s, a);
    } else if a.Claim? || a.Select? {
      ArmKeepsHistory(s, a);
    } else {
      StepTouchesOne(s, a);
      ClaimsStay(s, a);
    }
  }

  /** The claim whose call and arm history a step may touch. */
  function Touched(s: State, a: Action): ClaimId
    requires Enabled(s, a) && (a.Claim? || a.Select? || a.Call?)
  {
    if a.Claim? then ClaimId(a.job, s.jobs[a.job].attempts + 1) else s.workers[a.worker].claim
  }

  lemma StepTouchesOne(s: State, a: Action)
    requires Enabled(s, a)
    ensures !a.Claim? && !a.Select? && !a.Call? ==> Apply(s, a).arms == s.arms && Apply(s, a).calls == s.calls
    ensures a.Claim? || a.Select? || a.Call? ==>
              && (forall c :: c != Touched(s, a) ==> (c in Apply(s, a).arms <==> c in s.arms)
                                                     && (c in s.arms ==> Apply(s, a).arms[c] == s.arms[c]))
              && (Apply(s, a).calls == s.calls || Apply(s, a).calls == s.calls + [Touched(s, a)])
  {
    hide Recorded;
  }

  /** The history of every other worker's claim stays as it is. */
  lemma OthersKeepCaller(s: State, a: Action, v: nat)
    requires ClaimsOk(s) && WorkersOk(s) && Enabled(s, a)
    requires v in s.workers && Engaged(s.workers[v]) && CallerOk(s.arms, s.calls, s.workers[v])
    requires Apply(s, a).workers[v] == s.workers[v]
    ensures CallerOk(Apply(s, a).arms, Apply(s, a).calls, s.workers[v])
  {
    StepTouchesOne(s, a);
    if a.Claim? || a.Select? || a.Call? { OthersTouchElsewhere(s, a, v); }
    hide Apply, Touched;
  }

  lemma OthersTouchElsewhere(s: State, a: Action, v: nat)
    requires ClaimsOk(s) && WorkersOk(s) && Enabled(s, a) && (a.Claim? || a.Select? || a.Call?)
    requires v in s.workers && Engaged(s.workers[v]) && Apply(s, a).workers[v] == s.workers[v]
    ensures s.workers[v].claim != Touched(s, a)
  {
    assert s.claims[s.workers[v].claim] == v;
    if a.Claim? { assert Touched(s, a) !in s.claims; }
  }

  lemma SelectKeepsCaller(s: State, a: Action)
    requires Enabled(s, a) && a.Select? && CallerOk(s.arms, s.calls, s.workers[a.worker])
    ensures CallerOk(Apply(s, a).arms, Apply(s, a).calls, Apply(s, a).workers[a.worker])
  {
  }

  lemma ClaimKeepsCaller(s: State, a: Action)
    requires CallHistoryOk(s) && ClaimsOk(s) && Enabled(s, a) && a.Claim?
    ensures CallerOk(Apply(s, a).arms, Apply(s, a).calls, Apply(s, a).workers[a.worker])
  {
    assert ClaimId(a.job, s.jobs[a.job].attempts + 1) !in s.claims;
    hide ClaimsOk;
  }

  lemma ActorKeepsCaller(s: State, a: Action, w: nat)
    requires CallHistoryOk(s) && ClaimsOk(s) && Enabled(s, a) && w in s.workers
    requires Engaged(s.workers[w]) ==> CallerOk(s.arms, s.calls, s.workers[w])
    requires Apply(s, a).workers[w] != s.workers[w] && Engaged(Apply(s, a).workers[w])
    ensures CallerOk(Apply(s, a).arms, Apply(s, a).calls, Apply(s, a).workers[w])
  {
    hide Recorded, VerdictOf, Submit, CancelRequested, Reaped, Renewed, ClaimsOk, CallHistoryOk, Claimable, Holds;
    if a.Claim? {
      ClaimKeepsCaller(s, a);
    } else if a.Select? {
      SelectKeepsCaller(s, a);
    }
  }

  lemma KeepsCallers(s: State, a: Action)
    requires CallHistoryOk(s) && CallersOk(s) && ClaimsOk(s) && WorkersOk(s) && Enabled(s, a)
    ensures CallersOk(Apply(s, a))
  {
    var t := Apply(s, a);
    forall v | v in t.workers && Engaged(t.workers[v]) ensures CallerOk(t.arms, t.calls, t.workers[v]) {
      if t.workers[v] == s.workers[v] { OthersKeepCaller(s, a, v); } else { ActorKeepsCaller(s, a, v); }
    }
  }

  ghost predicate CancelOk(jobs: seq<Job<nat>>, k: Worker) {
    Engaged(k) && (k.jobCancelled || k.arm.JobCancelled? || k.arm.Acknowledge?) ==>
      k.claim.job < |jobs| && (jobs[k.claim.job].cancelRequested || !Active(jobs[k.claim.job].status))
  }

  lemma KeepsCancels(s: State, a: Action)
    requires CancelsOk(s) && Enabled(s, a)
    ensures CancelsOk(Apply(s, a))
  {
  }

  /**
   * The row of a change is active when the change is recorded, and a worker's change is recorded once for its claim.
   */
  ghost predicate NewEntryFits(s: State, e: Entry) {
    && EntryJob(e) < |s.jobs| && Active(s.jobs[EntryJob(e)].status)
    && (e.change.ByWorker? ==>
          && e.change.claim in s.claims && s.claims[e.change.claim] == e.change.worker
          && Unrecorded(s.log, e.change.claim))
  }

  predicate Unrecorded(log: seq<Entry>, c: ClaimId) {
    forall i :: 0 <= i < |log| && log[i].change.ByWorker? ==> log[i].change.claim != c
  }

  lemma StepLogs(s: State, a: Action)
    requires ClaimsOk(s) && WorkersOk(s) && CallersOk(s) && LogRowsOk(s) && LateOk(s) && Enabled(s, a)
    ensures var t := Apply(s, a);
            t.log == s.log
            || (&& |t.log| == |s.log| + 1 && t.log[..|s.log|] == s.log && NewEntryFits(s, t.log[|s.log|])
                && (t.log[|s.log|].terminal <==> !Active(t.jobs[EntryJob(t.log[|s.log|])].status))
                && (t.log[|s.log|].change.ByWorker? ==>
                      t.log[|s.log|].change.claim in t.calls && (a.Call? || a.Land?)
                      && t.log[|s.log|].change.claim == if a.Call? then s.workers[a.worker].claim else a.claim))
  {
    if a.Call? {
      assert OwnNewest(s.claims, a.worker, s.workers[a.worker].claim);
      assert CallerOk(s.arms, s.calls, s.workers[a.worker]);
    } else if a.Land? {
      assert LateCallOk(s, a.claim);
    }
  }

  lemma ClaimsStay(s: State, a: Action)
    requires ClaimsOk(s) && Enabled(s, a)
    ensures forall c :: c in s.claims ==> c in Apply(s, a).claims && Apply(s, a).claims[c] == s.claims[c]
    ensures forall c :: c in s.calls ==> c in Apply(s, a).calls
  {
    hide Recorded;
  }

  lemma KeepsLog(s: State, a: Action)
    requires ClaimsOk(s) && WorkersOk(s) && CallersOk(s) && LogRowsOk(s) && LateOk(s) && LogDistinct(s.log)
    requires Enabled(s, a)
    ensures LogRowsOk(Apply(s, a)) && LogDistinct(Apply(s, a).log)
  {
    hide Apply, LateOk, CallersOk, WorkersOk, Enabled, Holds, Claimable;
    StepEvolvesRows(s, a);
    StepLogs(s, a);
    ClaimsStay(s, a);
    hide ClaimsOk;
    var t := Apply(s, a);
    forall i | 0 <= i < |t.log| && i < |s.log| ensures t.log[i] == s.log[i] {
      assert t.log[..|s.log|][i] == s.log[i];
    }
  }

  /** A late call stays as it was made while others act. */
  lemma LateCallStays(s: State, a: Action, c: ClaimId)
    requires ClaimsOk(s) && WorkersOk(s) && CallersOk(s) && LogRowsOk(s) && LateOk(s) && Enabled(s, a)
    requires LateCallOk(s, c) && (a.Land? ==> a.claim != c)
    ensures LateCallOk(Apply(s, a), c)
  {
    StepEvolvesRows(s, a);
    StepLogs(s, a);
    ClaimsStay(s, a);
    StepTouchesOne(s, a);
    if a.Claim? || a.Select? || a.Call? { LateIsNotTouched(s, a, c); }
    hide Apply, LateOk, CallersOk, WorkersOk, ClaimsOk, LogRowsOk, Enabled, Touched, NewEntryFits;
    var t := Apply(s, a);
    forall i | 0 <= i < |t.log| && t.log[i].change.ByWorker? ensures t.log[i].change.claim != c {
      if i < |s.log| { assert t.log[i] == t.log[..|s.log|][i]; }
    }
  }

  lemma LateIsNotTouched(s: State, a: Action, c: ClaimId)
    requires ClaimsOk(s) && CallersOk(s) && Enabled(s, a) && (a.Claim? || a.Select? || a.Call?) && LateCallOk(s, c)
    ensures c != Touched(s, a) && (a.Call? ==> c != s.workers[a.worker].claim)
  {
    if !a.Claim? { assert CallerOk(s.arms, s.calls, s.workers[a.worker]); }
  }

  /** The late calls after a step: none but the call of the acting worker is new. */
  lemma StepLates(s: State, a: Action)
    requires Enabled(s, a)
    ensures forall c :: c in Apply(s, a).late ==>
              (c in s.late && (a.Land? ==> a.claim != c)) || (a.Call? && !a.applied && c == s.workers[a.worker].claim)
  {
    hide Recorded;
  }

  lemma NewLateCall(s: State, a: Action)
    requires WorkersOk(s) && CallersOk(s) && CancelsOk(s) && LogRowsOk(s) && Enabled(s, a) && a.Call? && !a.applied
    ensures LateCallOk(Apply(s, a), s.workers[a.worker].claim)
  {
    var k := s.workers[a.worker];
    assert OwnNewest(s.claims, a.worker, k.claim) && CallerOk(s.arms, s.calls, k) && CancelOk(s.jobs, k);
  }

  lemma KeepsLate(s: State, a: Action)
    requires ClaimsOk(s) && WorkersOk(s) && CallersOk(s) && CancelsOk(s) && LogRowsOk(s) && LateOk(s) && Enabled(s, a)
    ensures LateOk(Apply(s, a))
  {
    StepLates(s, a);
    if a.Call? && !a.applied { NewLateCall(s, a); }
    hide Apply, ClaimsOk, WorkersOk, CallersOk, CancelsOk, LogRowsOk, LateCallOk, Enabled;
    forall c | c in Apply(s, a).late ensures LateCallOk(Apply(s, a), c) {
      if c in s.late && (a.Land? ==> a.claim != c) { LateCallStays(s, a, c); }
    }
  }

  lemma {:induction false} ReachableInv(s0: State, actions: seq<Action>)
    requires Init(s0) && Execute(s0, actions).Some?
    ensures Inv(Execute(s0, actions).value)
  {
    if actions != [] {
      ReachableInv(s0, actions[..|actions| - 1]);
      var s, a := Execute(s0, actions[..|actions| - 1]).value, actions[|actions| - 1];
      KeepsClaims(s, a);
      KeepsWorkers(s, a);
      KeepsTasks(s, a);
      KeepsCallHistory(s, a);
      KeepsCallers(s, a);
      KeepsCancels(s, a);
      KeepsLog(s, a);
      KeepsLate(s, a);
    }
  }

  lemma ReachableHasInv(s: State)
    requires Reachable(s)
    ensures Inv(s)
  {
    var s0: State, actions :| Init(s0) && Execute(s0, actions) == Some(s);
    ReachableInv(s0, actions);
  }

  // ---- what holds in every run --------------------------------------------------------------------

  /**
   * A worker has at most one live execution and one live heartbeat task, none of them between claims, and its
   * execution has ended before it records an outcome or joins the heartbeat.
   */
  lemma AtMostOneTaskOfEachKind(s: State, t: nat, u: nat)
    requires Reachable(s) && TaskAlive(s, t) && TaskAlive(s, u)
    requires s.tasks[t].worker == s.tasks[u].worker && s.tasks[t].kind == s.tasks[u].kind
    ensures t == u
    ensures s.tasks[t].worker in s.workers && Engaged(s.workers[s.tasks[t].worker])
    ensures s.tasks[t].kind.Execution? ==>
              var phase := s.workers[s.tasks[t].worker].phase;
              phase.Selecting? || phase.Aborting?
  {
    ReachableHasInv(s);
  }

  /** Each claim makes at most one outcome call, and none when its arm was lease loss or shutdown. */
  lemma AtMostOneCallPerClaim(s: State, i: nat, j: nat)
    requires Reachable(s) && i < |s.calls| && j < |s.calls| && s.calls[i] == s.calls[j]
    ensures i == j
    ensures s.calls[i] in s.arms && !s.arms[s.calls[i]].Shutdown? && !s.arms[s.calls[i]].LeaseLost?
  {
    ReachableHasInv(s);
  }

  /**
   * Each job takes at most one terminal change and nothing is recorded for it afterwards; each claim records at
   * most one change; and the worker of a recorded change is the one that made the claim.
   */
  lemma AtMostOneTerminalChange(s: State, i: nat, j: nat)
    requires Reachable(s) && i < j < |s.log|
    ensures s.log[i].terminal ==> EntryJob(s.log[j]) != EntryJob(s.log[i])
    ensures s.log[i].change.ByWorker? && s.log[j].change.ByWorker? ==> s.log[i].change.claim != s.log[j].change.claim
    ensures s.log[i].change.ByWorker? ==>
              s.log[i].change.claim in s.claims && s.claims[s.log[i].change.claim] == s.log[i].change.worker
  {
    ReachableHasInv(s);
  }

  lemma OlderClaimsAreBehind(s: State, w: nat, v: nat)
    requires ClaimsOk(s) && WorkersOk(s) && w in s.workers && v in s.workers && v != w
    requires Engaged(s.workers[w]) && Engaged(s.workers[v]) && s.workers[v].claim.job == s.workers[w].claim.job
    requires s.workers[w].claim.attempt == s.jobs[s.workers[w].claim.job].attempts
    ensures s.workers[v].claim.attempt < s.workers[w].claim.attempt
  {
  }

  lemma CallRecordsInForce(s: State, a: Action)
    requires ClaimsOk(s) && WorkersOk(s) && Enabled(s, a) && a.Call? && Apply(s, a).log != s.log
    ensures var c := s.workers[a.worker].claim;
            && Apply(s, a).log == s.log + [Entry(ByWorker(c, a.worker), !Active(Apply(s, a).jobs[c.job].status))]
            && Holds(s.jobs[c.job], a.worker, s.now) && c.attempt == s.jobs[c.job].attempts
  {
  }

  /**
   * A change that a worker's own call records is recorded while it holds the live lease and under the job's newest
   * claim; every other worker still busy with that job is on an older claim. The queue sees only the worker's name:
   * this needs that a worker claims again only after its previous claim is over. See `LateOutcomeIsInForceIff` for
   * calls that take effect later.
   */
  lemma OnlyTheClaimInForceRecords(s: State, a: Action)
    requires Reachable(s) && Enabled(s, a) && a.Call? && Apply(s, a).log != s.log
    ensures var c := s.workers[a.worker].claim;
            && Apply(s, a).log == s.log + [Entry(ByWorker(c, a.worker), !Active(Apply(s, a).jobs[c.job].status))]
            && Holds(s.jobs[c.job], a.worker, s.now) && c.attempt == s.jobs[c.job].attempts
            && forall v :: v in s.workers && v != a.worker && Engaged(s.workers[v])
                           && s.workers[v].claim.job == c.job ==>
                 s.workers[v].claim.attempt < c.attempt
  {
    assert ClaimsOk(s) && WorkersOk(s) by { ReachableHasInv(s); }
    CallRecordsInForce(s, a);
    forall v | v in s.workers && v != a.worker && Engaged(s.workers[v])
               && s.workers[v].claim.job == s.workers[a.worker].claim.job
      ensures s.workers[v].claim.attempt < s.workers[a.worker].claim.attempt
    {
      OlderClaimsAreBehind(s, a.worker, v);
    }
  }

  /**
   * A call that takes effect late, after its reply was taken for an error, records under the claim in force if and only
   * if its worker has made no later claim of the job. The queue checks the worker's name and the lease, and both may
   * belong to the later claim.
   */
  lemma LateOutcomeIsInForceIff(s: State, a: Action)
    requires Reachable(s) && Enabled(s, a) && a.Land?
    ensures Apply(s, a).log[|s.log|].change == ByWorker(a.claim, s.claims[a.claim])
    ensures a.claim.attempt == s.jobs[a.claim.job].attempts <==>
            forall d :: d in s.claims && d.job == a.claim.job && s.claims[d] == s.claims[a.claim] ==>
              d.attempt <= a.claim.attempt
  {
    assert ClaimsOk(s) by { ReachableHasInv(s); }
    var newest := ClaimId(a.claim.job, s.jobs[a.claim.job].attempts);
    assert newest in s.claims && s.claims[newest] == s.claims[a.claim];
    hide Recorded;
  }

  /**
   * A cancellation that reached the worker is recorded as a cancellation, never as a success, even when recorded
   * late.
   */
  lemma CancelledWorkNeverSucceeds(s: State, a: Action)
    requires Reachable(s) && Enabled(s, a) && (a.Land? || (a.Call? && a.applied))
    requires var arm := if a.Land? then s.arms[a.claim] else s.workers[a.worker].arm;
             arm.JobCancelled? || arm.Acknowledge?
    ensures Apply(s, a).jobs[if a.Land? then a.claim.job else s.workers[a.worker].claim.job].status.Cancelled?
  {
    ReachableHasInv(s);
    if a.Land? { assert LateCallOk(s, a.claim); } else { assert CancelOk(s.jobs, s.workers[a.worker]); }
  }
}
