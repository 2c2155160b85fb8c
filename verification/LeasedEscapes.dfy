// A run of one worker in which the outcome of an earlier claim takes effect late, under a later claim of the same
// worker.
module LeasedEscapes {
  import opened JobQueue
  import opened LeasedWorker

  const IDLE: Worker := Worker(Idle, ClaimId(0, 0), Executed, 0, 0, false, false, false)
  const FIRST: ClaimId := ClaimId(0, 1)
  const SECOND: ClaimId := ClaimId(0, 2)

  function Busy(phase: Phase): Worker {
    Worker(phase, FIRST, Executed, 0, 1, false, false, false)
  }

  function Tasks(execution: bool, heartbeat: bool): seq<Task> {
    [Task(1, Execution, execution, false, if execution then Aborted else Verdict.Ok),
     Task(1, Heartbeat, heartbeat, false, Aborted)]
  }

  function Row(): Job<nat> {
    NewJob(0, 3, 0)
  }

  lemma Go(s: State, a: Action, t: State)
    requires Reachable(s) && Enabled(s, a)
    requires var u := Apply(s, a);
             && u.now == t.now && u.jobs == t.jobs && u.workers == t.workers && u.tasks == t.tasks
             && u.claims == t.claims && u.arms == t.arms && u.calls == t.calls && u.late == t.late && u.log == t.log
    ensures Reachable(t)
  {
    assert Apply(s, a) == t;
    hide Enabled, Apply;
    var s0: State, actions :| Init(s0) && Execute(s0, actions) == Some(s);
    var longer := actions + [a];
    assert longer[..|longer| - 1] == actions;
    assert Execute(s0, longer) == Some(t);
  }

  /** The worker claims the job for the first time. */
  lemma FirstClaim()
    ensures Reachable(State(0, [Claimed(Row(), 1, 0, 10)], map[1 := Busy(Selecting)], Tasks(true, true),
                            map[FIRST := 1], map[], [], map[], []))
  {
    var s0 := State(0, [], map[1 := IDLE], [], map[], map[], [], map[], []);
    assert Init(s0) && Execute(s0, []) == Some(s0);
    hide Reachable;
    var s1 := s0.(jobs := [Row()]);
    Go(s0, SubmitJob(0, 3), s1);
    Go(s1, Claim(1, 0, 10),
       State(0, [Claimed(Row(), 1, 0, 10)], map[1 := Busy(Selecting)], Tasks(true, true),
             map[FIRST := 1], map[], [], map[], []));
  }

  /** Its execution succeeds, and the reply to its outcome call is an error. */
  lemma FirstCallIsLate()
    ensures Reachable(State(0, [Claimed(Row(), 1, 0, 10)], map[1 := Busy(Joining)], Tasks(false, true), map[FIRST := 1],
                            map[FIRST := Executed], [FIRST], map[FIRST := Verdict.Ok], []))
  {
    hide Reachable;
    FirstClaim();
    var s0 := State(0, [Claimed(Row(), 1, 0, 10)], map[1 := Busy(Selecting)], Tasks(true, true),
                    map[FIRST := 1], map[], [], map[], []);
    var s1 := s0.(tasks := Tasks(false, true));
    Go(s0, ExecutionEnds(1, Verdict.Ok), s1);
    var s2 := s1.(workers := map[1 := Busy(Recording)], arms := map[FIRST := Executed]);
    Go(s1, Select(1, Executed), s2);
    Go(s2, Call(1, false, 0),
       s2.(workers := map[1 := Busy(Joining)], calls := [FIRST], late := map[FIRST := Verdict.Ok]));
  }

  function Again(): Job<nat> {
    Claimed(Claimed(Row(), 1, 0, 10), 1, 10, 10)
  }

  function SecondState(): State {
    State(10, [Again()], map[1 := Worker(Selecting, SECOND, Executed, 2, 3, false, false, false)],
          Tasks(false, false) + Tasks(true, true), map[FIRST := 1, SECOND := 1], map[FIRST := Executed], [FIRST],
          map[FIRST := Verdict.Ok], [])
  }

  /** The lease runs out, and the same worker claims the job again. */
  lemma SecondClaim()
    ensures Reachable(SecondState())
  {
    hide Reachable;
    FirstCallIsLate();
    var s0 := State(0, [Claimed(Row(), 1, 0, 10)], map[1 := Busy(Joining)], Tasks(false, true), map[FIRST := 1],
                    map[FIRST := Executed], [FIRST], map[FIRST := Verdict.Ok], []);
    var s1 := s0.(tasks := Tasks(false, false));
    Go(s0, HeartbeatEnds(1), s1);
    var s2 := s1.(workers := map[1 := Busy(Idle)]);
    Go(s1, Join(1), s2);
    Go(s2, Tick(10), s2.(now := 10));
    Go(s2.(now := 10), Claim(1, 0, 10), SecondState());
  }

  /** The late call ends the job as a success while its second execution is under way. */
  lemma LateOutcomeEndsLaterClaim()
    ensures exists s, delay :: Reachable(s) && Enabled(s, Land(FIRST, delay)) && s.jobs[0].attempts == 2
                               && 1 in s.workers && TaskAlive(s, s.workers[1].execution) && s.workers[1].claim == SECOND
                               && Apply(s, Land(FIRST, delay)).jobs[0].status.Succeeded?
  {
    hide Reachable;
    SecondClaim();
    var s := SecondState();
    assert Enabled(s, Land(FIRST, 0)) && Apply(s, Land(FIRST, 0)).jobs[0].status.Succeeded?;
  }
}
