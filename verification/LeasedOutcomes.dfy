// What a worker's outcome call records, in every run: the result with which the execution of its claim ended. And what
// the end of a heartbeat and of a claim tell.
module LeasedOutcomes {
  import opened JobQueue
  import opened LeasedWorker

  /** The execution of a claim ended with a verdict. */
  datatype End = End(claim: ClaimId, verdict: Verdict)

  function EndsOf(s: State, a: Action): seq<End>
    requires Enabled(s, a)
  {
    if a.ExecutionEnds? then [End(s.workers[a.worker].claim, a.verdict)] else []
  }

  /** How executions ended, in the order in which they did. */
  function Ends(s0: State, actions: seq<Action>): seq<End>
    requires Execute(s0, actions).Some?
  {
    if actions == [] then []
    else
      var n := |actions| - 1;
      Ends(s0, actions[..n]) + EndsOf(Execute(s0, actions[..n]).value, actions[n])
  }

  /** The execution of the worker's claim is under way, or ended as its task says. */
  ghost predicate ExecutionTold(ends: seq<End>, tasks: seq<Task>, w: nat, k: Worker) {
    && k.execution < |tasks| && tasks[k.execution].worker == w && tasks[k.execution].kind.Execution?
    && (if tasks[k.execution].alive then forall v :: End(k.claim, v) !in ends
        else End(k.claim, tasks[k.execution].verdict) in ends)
  }

  /** The heartbeat is under way, or the worker was told why it ended, or it stopped it itself. */
  ghost predicate HeartbeatTold(tasks: seq<Task>, w: nat, k: Worker) {
    && k.heartbeat < |tasks| && tasks[k.heartbeat].worker == w && tasks[k.heartbeat].kind.Heartbeat?
    && (!tasks[k.heartbeat].alive ==> k.leaseLost || k.jobCancelled || k.phase.Joining?)
  }

  ghost predicate WorkerTold(ends: seq<End>, s: State, w: nat)
    requires w in s.workers
  {
    var k := s.workers[w];
    Engaged(k) ==>
      if k.arm.Acknowledge? then k.phase.Recording? else
      && ExecutionTold(ends, s.tasks, w, k) && HeartbeatTold(s.tasks, w, k)
      && (k.phase.Aborting? ==> !k.arm.Executed?)
      && (k.phase.Joining? && (k.arm.Executed? || k.arm.JobCancelled?) ==> k.claim in s.calls)
  }

  ghost predicate EndsDistinct(ends: seq<End>) {
    forall i, j :: 0 <= i < j < |ends| ==> ends[i].claim != ends[j].claim
  }

  ghost predicate Told(ends: seq<End>, s: State) {
    && EndsDistinct(ends)
    && (forall e :: e in ends ==> e.claim in s.claims)
    && (forall w :: w in s.workers ==> WorkerTold(ends, s, w))
    && (forall c :: c in s.late && c in s.arms && s.arms[c].Executed? ==> End(c, s.late[c]) in ends)
  }

  // ---- every step ---------------------------------------------------------------------------------

  /** The step is one of worker `w`'s own. */
  predicate Acts(a: Action, w: nat) {
    match a
    case Tick(_) => false
    case SubmitJob(_, _) => false
    case RequestCancel(_) => false
    case Reap(_) => false
    case StrayRenew(_, _, _) => false
    case Land(_, _) => false
    case _ => a.worker == w
  }

  /** A step of others leaves the worker, its tasks and its claim's history alone. */
  lemma OthersLeaveWorker(s: State, a: Action, w: nat)
    requires Enabled(s, a) && w in s.workers && !Acts(a, w)
    ensures Apply(s, a).workers[w] == s.workers[w] && forall c :: c in s.calls ==> c in Apply(s, a).calls
  {
    hide Recorded, VerdictOf, Submit, CancelRequested, Reaped, Renewed, Claimable, Holds, TaskAlive;
  }

  lemma OthersLeaveTasks(s: State, a: Action, w: nat)
    requires Enabled(s, a) && w in s.workers && !Acts(a, w)
    ensures |s.tasks| <= |Apply(s, a).tasks|
    ensures forall t :: 0 <= t < |s.tasks| && s.tasks[t].worker == w ==> Apply(s, a).tasks[t] == s.tasks[t]
  {
    hide Recorded, VerdictOf, Submit, CancelRequested, Reaped, Renewed, Claimable, Holds;
  }

  lemma OtherStaysTold(ends: seq<End>, s: State, a: Action, w: nat)
    requires Enabled(s, a) && w in s.workers && !Acts(a, w) && WorkersOk(s) && TasksOk(s) && WorkerTold(ends, s, w)
    ensures WorkerTold(ends + EndsOf(s, a), Apply(s, a), w)
  {
    OthersLeaveWorker(s, a, w);
    OthersLeaveTasks(s, a, w);
    var k := s.workers[w];
    if Engaged(k) {
      assert OwnNewest(s.claims, w, k.claim);
      if a.ExecutionEnds? { EndIsOfOwnClaim(s, a); }
    }
    hide Apply, Enabled, WorkersOk, TasksOk;
  }

  lemma EndIsOfOwnClaim(s: State, a: Action)
    requires Enabled(s, a) && a.ExecutionEnds? && WorkersOk(s)
    ensures s.workers[a.worker].claim in s.claims && s.claims[s.workers[a.worker].claim] == a.worker
  {
    assert OwnNewest(s.claims, a.worker, s.workers[a.worker].claim);
  }

  lemma ClaimIsTold(ends: seq<End>, s: State, a: Action)
    requires Enabled(s, a) && a.Claim? && ClaimsOk(s) && forall e :: e in ends ==> e.claim in s.claims
    ensures WorkerTold(ends + EndsOf(s, a), Apply(s, a), a.worker)
  {
    assert ClaimId(a.job, s.jobs[a.job].attempts + 1) !in s.claims;
    hide ClaimsOk;
  }

  lemma RenewIsTold(ends: seq<End>, s: State, a: Action)
    requires Enabled(s, a) && a.Renew? && WorkerTold(ends, s, a.worker)
    ensures WorkerTold(ends, Apply(s, a), a.worker)
  {
    hide Renewed;
  }

  lemma PollIsTold(ends: seq<End>, s: State, a: Action)
    requires Enabled(s, a) && a.Poll? && WorkerTold(ends, s, a.worker)
    ensures WorkerTold(ends, Apply(s, a), a.worker)
  {
  }

  lemma HeartbeatEndIsTold(ends: seq<End>, s: State, a: Action)
    requires Enabled(s, a) && a.HeartbeatEnds? && WorkerTold(ends, s, a.worker)
    ensures WorkerTold(ends, Apply(s, a), a.worker)
  {
  }

  lemma EndIsTold(ends: seq<End>, s: State, a: Action)
    requires Enabled(s, a) && a.ExecutionEnds? && WorkerTold(ends, s, a.worker)
    ensures WorkerTold(ends + [End(s.workers[a.worker].claim, a.verdict)], Apply(s, a), a.worker)
  {
    assert End(s.workers[a.worker].claim, a.verdict) in ends + [End(s.workers[a.worker].claim, a.verdict)];
  }

  lemma WorkerStepIsTold(ends: seq<End>, s: State, a: Action)
    requires Enabled(s, a)
    requires a.RequestShutdown? || a.Stop? || a.ClaimLost? || a.Select? || a.Awaited? || a.Call? || a.Join?
    requires WorkerTold(ends, s, a.worker)
    ensures WorkerTold(ends + EndsOf(s, a), Apply(s, a), a.worker)
  {
    assert ends + [] == ends;
    hide Recorded, VerdictOf, Claimable;
  }

  lemma WorkersTold(ends: seq<End>, s: State, a: Action)
    requires Inv(s) && Told(ends, s) && Enabled(s, a)
    ensures forall w :: w in Apply(s, a).workers ==> WorkerTold(ends + EndsOf(s, a), Apply(s, a), w)
  {
    StepKeepsWorkers(s, a);
    hide Apply, Enabled, WorkerTold, ClaimsOk, WorkersOk, TasksOk, EndsDistinct;
    assert ends + [] == ends;
    forall w | w in Apply(s, a).workers ensures WorkerTold(ends + EndsOf(s, a), Apply(s, a), w) {
      if !Acts(a, w) {
        OtherStaysTold(ends, s, a, w);
      } else if a.Claim? {
        ClaimIsTold(ends, s, a);
      } else if a.ExecutionEnds? {
        EndIsTold(ends, s, a);
      } else if a.HeartbeatEnds? {
        HeartbeatEndIsTold(ends, s, a);
      } else if a.Renew? {
        RenewIsTold(ends, s, a);
      } else if a.Poll? {
        PollIsTold(ends, s, a);
      } else {
        WorkerStepIsTold(ends, s, a);
      }
    }
  }

  lemma StepKeepsWorkers(s: State, a: Action)
    requires Enabled(s, a)
    ensures Apply(s, a).workers.Keys == s.workers.Keys
  {
    hide Recorded, VerdictOf, Submit, CancelRequested, Reaped, Renewed, Claimable, Holds, TaskAlive;
  }

  /** An execution ends once for its claim. */
  lemma EndsStayDistinct(ends: seq<End>, s: State, a: Action)
    requires Told(ends, s) && Enabled(s, a) && WorkersOk(s) && TasksOk(s)
    ensures EndsDistinct(ends + EndsOf(s, a)) && forall e :: e in ends + EndsOf(s, a) ==> e.claim in Apply(s, a).claims
  {
    assert forall c :: c in s.claims ==> c in Apply(s, a).claims by { hide Recorded; }
    if a.ExecutionEnds? {
      EndIsOfOwnClaim(s, a);
      assert WorkerTold(ends, s, a.worker) && TaskOk(s.workers, s.tasks, s.workers[a.worker].execution);
      assert forall v :: End(s.workers[a.worker].claim, v) !in ends;
      hide Apply, WorkersOk, TasksOk, Enabled;
      forall i | 0 <= i < |ends| ensures ends[i].claim != s.workers[a.worker].claim {
        assert ends[i] in ends && End(ends[i].claim, ends[i].verdict) == ends[i];
      }
    }
  }

  /** A late call carries the verdict of its claim's execution. */
  lemma LateCallsTold(ends: seq<End>, s: State, a: Action)
    requires Inv(s) && Told(ends, s) && Enabled(s, a)
    ensures var t, more := Apply(s, a), ends + EndsOf(s, a);
            forall c :: c in t.late && c in t.arms && t.arms[c].Executed? ==> End(c, t.late[c]) in more
  {
    var t, more := Apply(s, a), ends + EndsOf(s, a);
    StepLates(s, a);
    hide TasksOk, WorkersOk, ClaimsOk, EndsDistinct, LogRowsOk, LogDistinct, CancelsOk, CallHistoryOk;
    forall c | c in t.late && c in t.arms && t.arms[c].Executed? ensures End(c, t.late[c]) in more {
      if c in s.late && (a.Land? ==> a.claim != c) && !(a.Call? && c == s.workers[a.worker].claim) {
        LateStays(s, a, c);
      } else {
        NewLateIsTold(ends, s, a);
      }
    }
  }

  lemma LateStays(s: State, a: Action, c: ClaimId)
    requires ClaimsOk(s) && CallersOk(s) && LateOk(s) && Enabled(s, a) && c in s.late
    requires (a.Land? ==> a.claim != c) && !(a.Call? && c == s.workers[a.worker].claim)
    ensures c in s.arms && c in Apply(s, a).arms && Apply(s, a).arms[c] == s.arms[c]
    ensures c in Apply(s, a).late && Apply(s, a).late[c] == s.late[c]
  {
    assert LateCallOk(s, c);
    StepTouchesOne(s, a);
    if a.Claim? || a.Select? || a.Call? { LateIsNotTouched(s, a, c); }
    hide Recorded, Touched, ClaimsOk, CallersOk, LateOk, LateCallOk;
  }

  lemma EndedBeforeRecording(s: State, w: nat, t: nat)
    requires TasksOk(s) && w in s.workers && s.workers[w].phase.Recording?
    requires t < |s.tasks| && s.tasks[t].worker == w && s.tasks[t].kind.Execution?
    ensures !s.tasks[t].alive
  {
    assert s.tasks[t].alive ==> TaskOk(s.workers, s.tasks, t);
  }

  lemma NewLateIsTold(ends: seq<End>, s: State, a: Action)
    requires TasksOk(s) && CallersOk(s) && Told(ends, s) && Enabled(s, a) && a.Call? && !a.applied
    ensures var k, t := s.workers[a.worker], Apply(s, a);
            k.claim in t.late && k.claim in t.arms
            && (t.arms[k.claim].Executed? ==> End(k.claim, t.late[k.claim]) in ends)
  {
    var k := s.workers[a.worker];
    assert CallerOk(s.arms, s.calls, k) && WorkerTold(ends, s, a.worker);
    if k.arm.Executed? { EndedBeforeRecording(s, a.worker, k.execution); }
    hide TasksOk, CallersOk;
  }

  lemma {:induction false} RunIsTold(s0: State, actions: seq<Action>)
    requires Init(s0) && Execute(s0, actions).Some?
    ensures Told(Ends(s0, actions), Execute(s0, actions).value)
  {
    if actions != [] {
      var n := |actions| - 1;
      var s := Execute(s0, actions[..n]).value;
      RunIsTold(s0, actions[..n]);
      ReachableInv(s0, actions[..n]);
      hide Apply, Enabled, EndsOf, WorkerTold, EndsDistinct;
      WorkersTold(Ends(s0, actions[..n]), s, actions[n]);
      EndsStayDistinct(Ends(s0, actions[..n]), s, actions[n]);
      LateCallsTold(Ends(s0, actions[..n]), s, actions[n]);
    }
  }

  // ---- what a call records ------------------------------------------------------------------------

  /** The row after the result of an execution was recorded. */
  predicate Shows(before: Job<nat>, after: Job<nat>, verdict: Verdict, now: nat, delay: nat) {
    && after.payload == before.payload && after.attempts == before.attempts && after.maxAttempts == before.maxAttempts
    && (if before.cancelRequested then after.status.Cancelled?
        else if verdict.Ok? then after.status.Succeeded?
        else if verdict.Permanent? || before.attempts >= before.maxAttempts then after.status.DeadLetter?
        else after.status.RetryWait? && after.availableAt == now + delay)
    && (!after.status.RetryWait? ==> after.finishedAt == now)
  }

  /** The call of a worker that takes effect at this step, in time or late. */
  predicate Records(s: State, a: Action)
    requires Enabled(s, a)
  {
    a.Land? || (a.Call? && a.applied)
  }

  function ClaimOf(s: State, a: Action): ClaimId
    requires Enabled(s, a) && Records(s, a)
  {
    if a.Land? then a.claim else s.workers[a.worker].claim
  }

  function ArmOf(s: State, a: Action): Arm
    requires Enabled(s, a) && Records(s, a)
  {
    if a.Land? then s.arms[a.claim] else s.workers[a.worker].arm
  }

  /**
   * In every run, an outcome call under the arm `Executed` that takes effect records the one result with which the
   * execution of its claim ended: a success as a success, a permanent failure as a dead letter, anything else, a panic
   * included, as a retry after the given delay, or as a dead letter once the attempts are used up.
   */
  lemma ResultIsRecorded(s0: State, actions: seq<Action>, s: State, a: Action)
    requires Init(s0) && Execute(s0, actions) == Some(s) && Enabled(s, a) && Records(s, a) && ArmOf(s, a).Executed?
    ensures var c := ClaimOf(s, a);
            exists v :: End(c, v) in Ends(s0, actions)
                        && Shows(s.jobs[c.job], Apply(s, a).jobs[c.job], v, s.now, a.delay)
  {
    RunIsTold(s0, actions);
    ReachableInv(s0, actions);
    RowIsRecorded(s, a);
    hide Execute, Ends, ClaimsOk, WorkersOk, CancelsOk, LogRowsOk, LogDistinct, EndsDistinct, Apply, Shows;
    if a.Land? {
      assert End(a.claim, s.late[a.claim]) in Ends(s0, actions);
    } else {
      var k := s.workers[a.worker];
      assert WorkerTold(Ends(s0, actions), s, a.worker);
      EndedBeforeRecording(s, a.worker, k.execution);
      assert End(k.claim, VerdictOf(s, k)) in Ends(s0, actions);
    }
  }

  lemma RowIsRecorded(s: State, a: Action)
    requires Enabled(s, a) && Records(s, a) && ArmOf(s, a).Executed?
    ensures var c := ClaimOf(s, a);
            Shows(s.jobs[c.job], Apply(s, a).jobs[c.job],
                  if a.Land? then s.late[c] else VerdictOf(s, s.workers[a.worker]), s.now, a.delay)
  {
  }

  /** The execution of a claim ends at most once, so there is one result to record. */
  lemma OneResultPerClaim(s0: State, actions: seq<Action>, c: ClaimId, u: Verdict, v: Verdict)
    requires Init(s0) && Execute(s0, actions).Some?
    requires End(c, u) in Ends(s0, actions) && End(c, v) in Ends(s0, actions)
    ensures u == v
  {
    RunIsTold(s0, actions);
    hide Execute, Ends;
    var ends := Ends(s0, actions);
    var i :| 0 <= i < |ends| && ends[i] == End(c, u);
    var j :| 0 <= j < |ends| && ends[j] == End(c, v);
  }

  /** A call whose reply is an error changes no row for now. */
  lemma FailedCallsChangeNoRow(s: State, a: Action)
    requires Enabled(s, a) && a.Call? && !a.applied
    ensures Apply(s, a).jobs == s.jobs && Apply(s, a).log == s.log
    ensures s.workers[a.worker].claim in Apply(s, a).late
  {
  }

  /**
   * In every run, a worker that is about to leave a claim has called for its outcome if and only if its execution had
   * ended or its cancellation was seen; lease loss and shutdown leave the job as it is.
   */
  lemma EveryResultIsCalledFor(s: State, w: nat)
    requires Reachable(s) && w in s.workers && s.workers[w].phase.Joining?
    ensures s.workers[w].claim in s.calls <==> s.workers[w].arm.Executed? || s.workers[w].arm.JobCancelled?
  {
    var s0: State, actions :| Init(s0) && Execute(s0, actions) == Some(s);
    RunIsTold(s0, actions);
    ReachableInv(s0, actions);
    assert WorkerTold(Ends(s0, actions), s, w) && CallerOk(s.arms, s.calls, s.workers[w]);
  }

  /** In every run, a worker whose heartbeat ended while it waits for its execution can tell why, and act on it. */
  lemma EndedHeartbeatsAreTold(s: State, w: nat)
    requires Reachable(s) && w in s.workers && s.workers[w].phase.Selecting?
    requires !TaskAlive(s, s.workers[w].heartbeat)
    ensures Enabled(s, Select(w, LeaseLost)) || Enabled(s, Select(w, JobCancelled))
  {
    var s0: State, actions :| Init(s0) && Execute(s0, actions) == Some(s);
    RunIsTold(s0, actions);
    assert WorkerTold(Ends(s0, actions), s, w);
    hide Execute, Ends, Reachable, EndsDistinct, Apply, Told;
  }

  /** A heartbeat in time keeps the job with its worker for the whole of the new lease. */
  lemma HeartbeatsExtendTheLease(s: State, a: Action, now: nat)
    requires Enabled(s, a) && ((a.Renew? && a.ok) || a.StrayRenew?) && s.now <= now < s.now + a.lease
    ensures var j := if a.Renew? then s.workers[a.worker].claim.job else a.job;
            Holds(Apply(s, a).jobs[j], a.worker, now) && !Claimable(Apply(s, a).jobs[j], now)
  {
  }

  lemma {:induction false} OrdersStay(s0: State, actions: seq<Action>, w: nat)
    requires Execute(s0, actions).Some?
    ensures var s := Execute(s0, actions).value;
            && (RequestShutdown(w) in actions ==> w in s.workers && s.workers[w].shutdown)
            && (Stop(w) in actions ==> w in s.workers && s.workers[w].phase.Stopped?)
  {
    if actions != [] {
      hide Apply, Enabled;
      var n := |actions| - 1;
      var before := Execute(s0, actions[..n]).value;
      OrdersStay(s0, actions[..n], w);
      assert actions == actions[..n] + [actions[n]];
      StepKeepsOrders(before, actions[n], w);
      if actions[n] == RequestShutdown(w) || actions[n] == Stop(w) { OrdersNameWorkers(before, actions[n], w); }
    }
  }

  lemma StepKeepsOrders(s: State, a: Action, w: nat)
    requires Enabled(s, a)
    ensures var t := Apply(s, a);
            && (w in s.workers ==> w in t.workers)
            && (w in s.workers && (s.workers[w].shutdown || a == RequestShutdown(w)) ==> t.workers[w].shutdown)
            && (w in s.workers && (s.workers[w].phase.Stopped? || a == Stop(w)) ==> t.workers[w].phase.Stopped?)
  {
    hide Recorded, VerdictOf, Submit, CancelRequested, Reaped, Renewed, Claimable, Holds;
  }

  lemma OrdersNameWorkers(s: State, a: Action, w: nat)
    requires Enabled(s, a) && (a == RequestShutdown(w) || a == Stop(w))
    ensures w in s.workers
  {
  }

  /** In every run, a worker told to shut down can abort its execution for that reason from then on. */
  lemma ShutdownsAreSeen(s0: State, actions: seq<Action>, s: State, w: nat)
    requires Init(s0) && Execute(s0, actions) == Some(s) && RequestShutdown(w) in actions
    requires w in s.workers && s.workers[w].phase.Selecting?
    ensures Enabled(s, Select(w, Shutdown))
  {
    OrdersStay(s0, actions, w);
    RunIsTold(s0, actions);
    assert WorkerTold(Ends(s0, actions), s, w);
    hide Execute, Ends;
  }

  /** In every run, a worker that stopped has no task left, and claims nothing again. */
  lemma StoppedWorkersAreIdle(s0: State, actions: seq<Action>, s: State, w: nat)
    requires Init(s0) && Execute(s0, actions) == Some(s) && Stop(w) in actions
    ensures forall t: nat :: TaskAlive(s, t) ==> s.tasks[t].worker != w
    ensures forall j, lease :: !Enabled(s, Claim(w, j, lease))
  {
    OrdersStay(s0, actions, w);
    ReachableInv(s0, actions);
    hide Execute, ClaimsOk, WorkersOk, CallersOk, CallHistoryOk, LogRowsOk, LateOk, LogDistinct;
    forall t: nat | TaskAlive(s, t) ensures s.tasks[t].worker != w { assert TaskOk(s.workers, s.tasks, t); }
  }
}
