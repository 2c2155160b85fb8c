// What becomes of a job in every run of the workers: how often it is tried, why it ends as it does, and that it is
// queued once.
module QueueRules {
  import opened JobQueue
  import opened LeasedOutcomes
  import opened LeasedWorker

  /** The jobs whose cancellation was requested while they were active. */
  function RequestsOf(s: State, a: Action): seq<nat>
    requires Enabled(s, a)
  {
    if a.RequestCancel? && Active(s.jobs[a.job].status) then [a.job] else []
  }

  function Requests(s0: State, actions: seq<Action>): seq<nat>
    requires Execute(s0, actions).Some?
  {
    if actions == [] then []
    else
      var n := |actions| - 1;
      Requests(s0, actions[..n]) + RequestsOf(Execute(s0, actions[..n]).value, actions[n])
  }

  /** Some execution of the job ended with this verdict. */
  ghost predicate EndedWith(ends: seq<End>, j: nat, verdict: Verdict) {
    exists attempt :: End(ClaimId(j, attempt), verdict) in ends
  }

  /** Why the job is where it is. */
  ghost predicate JobTold(ends: seq<End>, requests: seq<nat>, job: Job<nat>, j: nat) {
    && job.attempts <= job.maxAttempts
    && (job.status.Succeeded? ==> EndedWith(ends, j, Verdict.Ok))
    && (job.status.DeadLetter? ==> job.attempts == job.maxAttempts || EndedWith(ends, j, Permanent))
    && (job.status.RetryWait? ==>
          EndedWith(ends, j, RetryLater) || EndedWith(ends, j, Panicked) || EndedWith(ends, j, Aborted))
    && (job.status.Cancelled? || job.cancelRequested ==> j in requests)
    && (j in requests ==> job.status.Cancelled? || (job.status.Running? && job.cancelRequested))
  }

  ghost predicate JobsTold(ends: seq<End>, requests: seq<nat>, s: State) {
    && (forall j :: 0 <= j < |s.jobs| ==> JobTold(ends, requests, s.jobs[j], j))
    && (forall j :: j in requests ==> j < |s.jobs|)
  }

  /** No two active jobs share a payload under the key that submitters use. */
  ghost predicate OneOfEach(jobs: seq<Job<nat>>) {
    forall i, j :: 0 <= i < j < |jobs| && Active(jobs[i].status) && Active(jobs[j].status) ==>
      jobs[i].key != 0 || jobs[j].key != 0 || jobs[i].payload != jobs[j].payload
  }

  // ---- every step ---------------------------------------------------------------------------------

  /** The row that a step may touch. */
  function RowOf(s: State, a: Action): Option<nat>
    requires Enabled(s, a)
  {
    match a
    case RequestCancel(j) => Some(j)
    case Reap(j) => Some(j)
    case StrayRenew(_, j, _) => Some(j)
    case Claim(_, j, _) => Some(j)
    case ClaimLost(_, j, _) => Some(j)
    case Renew(w, _, _) => Some(s.workers[w].claim.job)
    case Call(w, _, _) => Some(s.workers[w].claim.job)
    case Land(c, _) => Some(c.job)
    case _ => None
  }

  lemma OtherRowsStay(s: State, a: Action, j: nat)
    requires Enabled(s, a) && j < |s.jobs| && RowOf(s, a) != Some(j)
    ensures j < |Apply(s, a).jobs| && Apply(s, a).jobs[j] == s.jobs[j]
  {
    hide Recorded, VerdictOf, CancelRequested, Reaped, Renewed, Claimable;
  }

  lemma EndsStay(ends: seq<End>, more: seq<End>, requests: seq<nat>, job: Job<nat>, j: nat)
    requires JobTold(ends, requests, job, j) && forall e :: e in ends ==> e in more
    ensures JobTold(more, requests, job, j)
  {
    forall v | EndedWith(ends, j, v) ensures EndedWith(more, j, v) {
      var attempt :| End(ClaimId(j, attempt), v) in ends;
    }
  }

  lemma ShownIsTold(ends: seq<End>, requests: seq<nat>, job: Job<nat>, after: Job<nat>, c: ClaimId, v: Verdict,
                    now: nat, delay: nat)
    requires JobTold(ends, requests, job, c.job) && job.status.Running? && End(c, v) in ends
    requires Shows(job, after, v, now, delay)
    requires !after.status.Running? && (after.cancelRequested ==> job.cancelRequested)
    requires job.cancelRequested ==> after.status.Cancelled? && !after.cancelRequested
    ensures JobTold(ends, requests, after, c.job)
  {
    assert End(ClaimId(c.job, c.attempt), v) in ends;
    assert EndedWith(ends, c.job, v);
    hide EndedWith;
  }

  lemma CancelledIsTold(ends: seq<End>, requests: seq<nat>, job: Job<nat>, after: Job<nat>, j: nat)
    requires JobTold(ends, requests, job, j) && job.cancelRequested && after.status.Cancelled?
    requires after.attempts == job.attempts && after.maxAttempts == job.maxAttempts
    ensures JobTold(ends, requests, after, j)
  {
    hide EndedWith;
  }

  /** What a call records agrees with how the execution of its claim ended, or with a cancellation. */
  lemma RecordIsTold(s0: State, actions: seq<Action>, s: State, a: Action, requests: seq<nat>)
    requires Init(s0) && Execute(s0, actions) == Some(s) && Enabled(s, a) && Records(s, a)
    requires JobsTold(Ends(s0, actions), requests, s)
    ensures var c := ClaimOf(s, a); JobTold(Ends(s0, actions), requests, Apply(s, a).jobs[c.job], c.job)
  {
    var c := ClaimOf(s, a);
    var job, after := s.jobs[c.job], Apply(s, a).jobs[c.job];
    assert JobTold(Ends(s0, actions), requests, job, c.job);
    RecordedRow(s, a);
    hide Apply, Execute, Ends, Enabled, JobTold, JobsTold, Shows, RowOf;
    if ArmOf(s, a).Executed? {
      ResultIsRecorded(s0, actions, s, a);
      var v :| End(c, v) in Ends(s0, actions) && Shows(job, after, v, s.now, a.delay);
      ShownIsTold(Ends(s0, actions), requests, job, after, c, v, s.now, a.delay);
    } else {
      CancelArmHasRequest(s0, actions, s, a);
      CancelledIsTold(Ends(s0, actions), requests, job, after, c.job);
    }
  }

  lemma RecordedRow(s: State, a: Action)
    requires Enabled(s, a) && Records(s, a)
    ensures var job, after := s.jobs[ClaimOf(s, a).job], Apply(s, a).jobs[ClaimOf(s, a).job];
            && job.status.Running? && after.attempts == job.attempts && after.maxAttempts == job.maxAttempts
            && !after.status.Running? && (after.cancelRequested ==> job.cancelRequested)
            && (job.cancelRequested ==> after.status.Cancelled? && !after.cancelRequested)
            && (after.status.Cancelled? ==> job.cancelRequested)
  {
  }

  lemma CancelArmHasRequest(s0: State, actions: seq<Action>, s: State, a: Action)
    requires Init(s0) && Execute(s0, actions) == Some(s) && Enabled(s, a) && Records(s, a) && !ArmOf(s, a).Executed?
    ensures s.jobs[ClaimOf(s, a).job].cancelRequested
  {
    ReachableInv(s0, actions);
    hide Execute, ClaimsOk, TasksOk, LogRowsOk, LogDistinct, Recorded;
    if a.Land? {
      assert LateCallOk(s, a.claim) && a.claim in s.calls;
    } else {
      assert CancelOk(s.jobs, s.workers[a.worker]) && CallerOk(s.arms, s.calls, s.workers[a.worker]);
    }
  }

  /** The other steps that touch a row. */
  lemma TouchedRowIsTold(ends: seq<End>, requests: seq<nat>, s: State, a: Action, j: nat)
    requires JobsTold(ends, requests, s) && Enabled(s, a) && j < |s.jobs| && RowOf(s, a) == Some(j)
    requires !a.Land? && !(a.Call? && a.applied)
    ensures JobTold(ends, requests + RequestsOf(s, a), Apply(s, a).jobs[j], j)
  {
    assert JobTold(ends, requests, s.jobs[j], j);
    hide JobsTold, EndedWith, Recorded, VerdictOf;
    assert requests + [] == requests;
  }

  lemma NewRowIsTold(ends: seq<End>, requests: seq<nat>, s: State, a: Action, j: nat)
    requires JobsTold(ends, requests, s) && Enabled(s, a) && |s.jobs| <= j < |Apply(s, a).jobs|
    ensures JobTold(ends, requests + RequestsOf(s, a), Apply(s, a).jobs[j], j)
  {
    assert j !in requests;
    hide JobsTold, EndedWith, Recorded, VerdictOf, CancelRequested, Reaped, Renewed;
  }

  lemma {:induction false} RunJobsTold(s0: State, actions: seq<Action>)
    requires Init(s0) && Execute(s0, actions).Some?
    ensures JobsTold(Ends(s0, actions), Requests(s0, actions), Execute(s0, actions).value)
  {
    if actions != [] {
      var n := |actions| - 1;
      RunJobsTold(s0, actions[..n]);
      StepJobsTold(s0, actions[..n], Execute(s0, actions[..n]).value, actions[n]);
    }
  }

  lemma StepJobsTold(s0: State, actions: seq<Action>, s: State, a: Action)
    requires Init(s0) && Execute(s0, actions) == Some(s) && Enabled(s, a)
    requires JobsTold(Ends(s0, actions), Requests(s0, actions), s)
    ensures JobsTold(Ends(s0, actions) + EndsOf(s, a), Requests(s0, actions) + RequestsOf(s, a), Apply(s, a))
  {
    var ends, requests, t := Ends(s0, actions), Requests(s0, actions), Apply(s, a);
    StepEvolvesRows(s, a);
    assert |s.jobs| <= |t.jobs|;
    hide Apply, Execute, Ends, Requests, EndedWith, RowsEvolve;
    forall j | 0 <= j < |t.jobs|
      ensures JobTold(ends + EndsOf(s, a), requests + RequestsOf(s, a), t.jobs[j], j)
    {
      if j >= |s.jobs| {
        NewRowIsTold(ends, requests, s, a, j);
      } else if RowOf(s, a) != Some(j) {
        OtherRowsStay(s, a, j);
        assert JobTold(ends, requests, s.jobs[j], j);
      } else if Records(s, a) {
        RecordIsTold(s0, actions, s, a, requests);
        assert requests + [] == requests;
      } else {
        TouchedRowIsTold(ends, requests, s, a, j);
      }
      EndsStay(ends, ends + EndsOf(s, a), requests + RequestsOf(s, a), t.jobs[j], j);
    }
  }

  lemma StepKeepsOneOfEach(s: State, a: Action)
    requires Enabled(s, a) && OneOfEach(s.jobs)
    ensures OneOfEach(Apply(s, a).jobs)
  {
    if a.SubmitJob? {
      assert Apply(s, a).jobs == Submit(s.jobs, a.payload, a.maxAttempts, s.now);
      hide Apply, Enabled;
    } else {
      NoneIsWoken(s, a);
      hide Apply, Enabled;
    }
  }

  lemma NoneIsWoken(s: State, a: Action)
    requires Enabled(s, a) && !a.SubmitJob?
    ensures |Apply(s, a).jobs| == |s.jobs|
    ensures forall j :: 0 <= j < |s.jobs| ==>
              && Apply(s, a).jobs[j].payload == s.jobs[j].payload && Apply(s, a).jobs[j].key == s.jobs[j].key
              && (Active(Apply(s, a).jobs[j].status) ==> Active(s.jobs[j].status))
  {
    hide VerdictOf;
  }

  lemma {:induction false} RunKeepsOneOfEach(s0: State, actions: seq<Action>)
    requires Init(s0) && Execute(s0, actions).Some?
    ensures OneOfEach(Execute(s0, actions).value.jobs)
  {
    if actions != [] {
      RunKeepsOneOfEach(s0, actions[..|actions| - 1]);
      hide Apply, Enabled, OneOfEach;
      StepKeepsOneOfEach(Execute(s0, actions[..|actions| - 1]).value, actions[|actions| - 1]);
    }
  }

  // ---- what holds in every run --------------------------------------------------------------------

  /**
   * In every run, a job is tried no more often than it may be, and its state has its reason: it succeeded because an
   * execution of it did; it is a dead letter because one failed for good or its attempts are used up; it waits for a
   * retry because one failed otherwise; it was cancelled because that was asked for.
   */
  lemma JobsEndForAReason(s0: State, actions: seq<Action>, s: State, j: nat)
    requires Init(s0) && Execute(s0, actions) == Some(s) && j < |s.jobs|
    ensures var job, ends := s.jobs[j], Ends(s0, actions);
            && job.attempts <= job.maxAttempts
            && (job.status.Succeeded? ==> EndedWith(ends, j, Verdict.Ok))
            && (job.status.DeadLetter? ==> job.attempts == job.maxAttempts || EndedWith(ends, j, Permanent))
            && (job.status.RetryWait? ==>
                  EndedWith(ends, j, RetryLater) || EndedWith(ends, j, Panicked) || EndedWith(ends, j, Aborted))
            && (job.status.Cancelled? ==> j in Requests(s0, actions))
  {
    RunJobsTold(s0, actions);
    assert JobTold(Ends(s0, actions), Requests(s0, actions), s.jobs[j], j);
    hide Execute, Ends, Requests, EndedWith;
  }

  /** In every run, a job whose cancellation was asked for while it was active is cancelled, or about to be. */
  lemma CancellationsAreHeeded(s0: State, actions: seq<Action>, s: State, j: nat)
    requires Init(s0) && Execute(s0, actions) == Some(s) && j in Requests(s0, actions)
    ensures j < |s.jobs|
    ensures s.jobs[j].status.Cancelled? || (s.jobs[j].status.Running? && s.jobs[j].cancelRequested)
  {
    RunJobsTold(s0, actions);
    hide Execute, Ends, Requests, EndedWith;
    assert JobTold(Ends(s0, actions), Requests(s0, actions), s.jobs[j], j);
  }

  /** In every run, no two active jobs are for the same payload. */
  lemma ActiveJobsAreDistinct(s: State, i: nat, j: nat)
    requires Reachable(s) && i < j < |s.jobs| && Active(s.jobs[i].status) && Active(s.jobs[j].status)
    requires s.jobs[i].key == 0 && s.jobs[j].key == 0
    ensures s.jobs[i].payload != s.jobs[j].payload
  {
    var s0: State, actions :| Init(s0) && Execute(s0, actions) == Some(s);
    RunKeepsOneOfEach(s0, actions);
    hide Execute;
  }

  /** A submission leaves an active job for its payload, and no other row is touched. */
  lemma SubmissionsAreQueued(s: State, a: Action)
    requires Enabled(s, a) && a.SubmitJob?
    ensures var t := Apply(s, a);
            && (exists j :: 0 <= j < |t.jobs| && Active(t.jobs[j].status) && t.jobs[j].payload == a.payload)
            && |s.jobs| <= |t.jobs| <= |s.jobs| + 1 && t.jobs[..|s.jobs|] == s.jobs
            && (|t.jobs| > |s.jobs| ==> t.jobs[|s.jobs|].maxAttempts == a.maxAttempts
                                        && t.jobs[|s.jobs|].status.Queued? && t.jobs[|s.jobs|].availableAt == s.now)
  {
    var t := Apply(s, a);
    if HasActive(s.jobs, a.payload) {
      var j :| 0 <= j < |s.jobs| && Active(s.jobs[j].status) && s.jobs[j].payload == a.payload;
      assert t.jobs[j] == s.jobs[j];
    } else {
      assert t.jobs[|s.jobs|].payload == a.payload;
    }
  }

  /** A job is claimed only when its turn has come, its last lease has run out, and an attempt is left. */
  lemma ClaimsWaitTheirTurn(s: State, a: Action)
    requires Enabled(s, a) && (a.Claim? || a.ClaimLost?)
    ensures var job, claimed := s.jobs[a.job], Apply(s, a).jobs[a.job];
            && (job.status.Queued? || job.status.RetryWait? ==> job.availableAt <= s.now)
            && (job.status.Running? ==> job.leaseUntil <= s.now) && Active(job.status)
            && claimed.status.Running? && claimed.holder == a.worker && claimed.leaseUntil == s.now + a.lease
            && claimed.attempts == job.attempts + 1 <= claimed.maxAttempts == job.maxAttempts
  {
  }
}
