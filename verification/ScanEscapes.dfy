// Four runs in which the completion gate is passed although its feed was not read to its end. Each breaks just one of
// the premises of `OrderlyGateIsSound`: that operators retry no scan and cancel no page, that executions act under a
// live lease, and that no page is submitted between the gate's two reads.
module ScanEscapes {
  import opened Catalog
  import opened CompletionGate
  import opened JobQueue
  import opened OrderlyScan
  import opened ScanQuiescence

  const FEED: Window := Window(1, 2)
  const ROOT: Payload := Start([Movie], None)
  const PAGE: Payload := Changes(Movie, 1, FEED)
  const NEXT: Payload := Changes(Movie, 2, FEED)
  const GATE: Payload := Completion([Movie], 0, FEED)

  /** A run whose executions act under live leases if `leased`, and in which no scan is retried if `unretried`. */
  ghost predicate RunBy(leased: bool, unretried: bool, actions: seq<Action>) {
    if actions == [] then true
    else
      var before, a := Execute(actions[..|actions| - 1]), actions[|actions| - 1];
      RunBy(leased, unretried, actions[..|actions| - 1]) && before.Some? && Enabled(before.value, a)
      && (leased ==> UnderLease(before.value, a)) && (unretried ==> RetriesNoScan(before.value, a))
  }

  ghost predicate ReachableBy(leased: bool, unretried: bool, s: State) {
    exists actions :: Execute(actions) == Some(s) && RunBy(leased, unretried, actions)
  }

  lemma Go(leased: bool, unretried: bool, s: State, a: Action, t: State)
    requires ReachableBy(leased, unretried, s) && Enabled(s, a)
    requires (leased ==> UnderLease(s, a)) && (unretried ==> RetriesNoScan(s, a))
    requires var u := Apply(s, a); u.now == t.now && u.jobs == t.jobs && u.runs == t.runs && u.advanced == t.advanced
    ensures ReachableBy(leased, unretried, t)
  {
    var actions :| Execute(actions) == Some(s) && RunBy(leased, unretried, actions);
    var longer := actions + [a];
    assert longer[..|longer| - 1] == actions;
    assert Apply(s, a) == t;
    hide Enabled, Apply, UnderLease, RetriesNoScan;
    assert Execute(longer) == Some(t) && RunBy(leased, unretried, longer);
  }

  /** With both restrictions the runs are the orderly ones. */
  lemma {:induction false} BothIsOrderly(actions: seq<Action>)
    ensures RunBy(true, true, actions) <==> OrderlyRun(actions)
  {
    if actions != [] { BothIsOrderly(actions[..|actions| - 1]); }
  }

  // ---- the common beginning -----------------------------------------------------------------------

  /** The rows of a scan whose `Start` has submitted page 1 and the completion. */
  function Seeded(root: Job<Payload>, page: Job<Payload>): seq<Job<Payload>> {
    [root, page, NewJob(GATE, COORDINATOR_ATTEMPTS, 0)]
  }

  function RunningRoot(): Job<Payload> {
    Claimed(NewJob(ROOT, 3, 0), 1, 0, 10)
  }

  function LostPage(now: nat): Job<Payload> {
    Failed(Claimed(NewJob(PAGE, 3, 0), 1, 0, 10), now, true, 0)
  }

  /** Once nothing is active, a root is submitted and claimed, and its execution chooses the feed's window. */
  lemma RootStarts(leased: bool, unretried: bool, jobs: seq<Job<Payload>>)
    requires ReachableBy(leased, unretried, State(0, jobs, map[], []))
    requires forall i :: 0 <= i < |jobs| ==> !Active(jobs[i].status)
    ensures ReachableBy(leased, unretried, State(0, jobs + [RunningRoot()], map[1 := Run(|jobs|, Pages(0, FEED))], []))
  {
    hide ReachableBy;
    var n := |jobs|;
    var s0 := State(0, jobs, map[], []);
    var s1 := State(0, jobs + [NewJob(ROOT, 3, 0)], map[], []);
    Go(leased, unretried, s0, SubmitRoot([Movie], None, 3), s1);
    var s2 := State(0, jobs + [RunningRoot()], map[1 := Run(n, Begin)], []);
    Go(leased, unretried, s1, Claim(1, n, 10), s2);
    Go(leased, unretried, s2, Exec(1, Some(FEED), 0), s2.(runs := map[1 := Run(n, Pages(0, FEED))]));
  }

  /** ... and has submitted page 1 and the completion. */
  lemma RootSeeds(leased: bool, unretried: bool, jobs: seq<Job<Payload>>)
    requires ReachableBy(leased, unretried, State(0, jobs, map[], []))
    requires forall i :: 0 <= i < |jobs| ==> !Active(jobs[i].status)
    ensures ReachableBy(leased, unretried,
              State(0, jobs + Seeded(RunningRoot(), NewJob(PAGE, 3, 0)), map[1 := Run(|jobs|, Done(0))], []))
  {
    hide ReachableBy;
    var n := |jobs|;
    RootStarts(leased, unretried, jobs);
    var s0 := State(0, jobs + [RunningRoot()], map[1 := Run(n, Pages(0, FEED))], []);
    var s1 := State(0, jobs + [RunningRoot(), NewJob(PAGE, 3, 0)], map[1 := Run(n, Pages(1, FEED))], []);
    Go(leased, unretried, s0, Exec(1, None, 0), s1);
    var s2 := State(0, jobs + Seeded(RunningRoot(), NewJob(PAGE, 3, 0)), map[1 := Run(n, Done(0))], []);
    Go(leased, unretried, s1, Exec(1, None, 0), s2);
  }

  function DoneRoot(): Job<Payload> {
    Completed(RunningRoot(), 0, 0)
  }

  /** The root has ended, and worker 1 holds page 1. */
  lemma PageRuns(leased: bool, unretried: bool, jobs: seq<Job<Payload>>)
    requires ReachableBy(leased, unretried, State(0, jobs, map[], []))
    requires forall i :: 0 <= i < |jobs| ==> !Active(jobs[i].status)
    ensures ReachableBy(leased, unretried,
              State(0, jobs + Seeded(DoneRoot(), Claimed(NewJob(PAGE, 3, 0), 1, 0, 10)),
                    map[1 := Run(|jobs| + 1, Begin)], []))
  {
    hide ReachableBy;
    var n := |jobs|;
    RootSeeds(leased, unretried, jobs);
    var s0 := State(0, jobs + Seeded(RunningRoot(), NewJob(PAGE, 3, 0)), map[1 := Run(n, Done(0))], []);
    var s1 := State(0, jobs + Seeded(DoneRoot(), NewJob(PAGE, 3, 0)), map[], []);
    Go(leased, unretried, s0, Finish(1), s1);
    var s2 :=
      State(0, jobs + Seeded(DoneRoot(), Claimed(NewJob(PAGE, 3, 0), 1, 0, 10)), map[1 := Run(n + 1, Begin)], []);
    Go(leased, unretried, s1, Claim(1, n + 1, 10), s2);
  }

  lemma NothingYet(leased: bool, unretried: bool)
    ensures ReachableBy(leased, unretried, INITIAL)
  {
    assert Execute([]) == Some(INITIAL) && RunBy(leased, unretried, []);
  }

  lemma NoPageNoFeed(jobs: seq<Job<Payload>>)
    requires forall i :: 0 <= i < |jobs| && jobs[i].payload.Changes? ==> !jobs[i].status.Succeeded?
    ensures !FeedComplete(jobs, Movie, FEED)
  {
    assert !PageDone(jobs, Movie, 1, FEED);
  }

  // ---- an operator retries a root -----------------------------------------------------------------

  function LostRoot(): Job<Payload> {
    Failed(RunningRoot(), 0, true, 0)
  }

  /** A first root is dead-lettered before it submits anything. */
  lemma RootIsLost()
    ensures ReachableBy(true, false, State(0, [LostRoot()], map[], []))
  {
    hide ReachableBy;
    NothingYet(true, false);
    RootStarts(true, false, []);
    var s0 := State(0, [RunningRoot()], map[1 := Run(0, Pages(0, FEED))], []);
    assert [] + [RunningRoot()] == s0.jobs;
    Go(true, false, s0, Fail(1, true, 0), State(0, [LostRoot()], map[], []));
  }

  function RetriedTable(gate: Job<Payload>): seq<Job<Payload>> {
    [LostRoot(), DoneRoot(), LostPage(1), gate, RetriedJob(LostRoot(), 4, 1)]
  }

  /** While page 1 of a second root runs, the first is retried; then the page is dead-lettered. */
  lemma RootIsRetried()
    ensures ReachableBy(true, false, State(1, RetriedTable(NewJob(GATE, COORDINATOR_ATTEMPTS, 0)), map[], []))
  {
    hide ReachableBy;
    RootIsLost();
    PageRuns(true, false, [LostRoot()]);
    var page, gate := Claimed(NewJob(PAGE, 3, 0), 1, 0, 10), NewJob(GATE, COORDINATOR_ATTEMPTS, 0);
    var s0 := State(0, [LostRoot(), DoneRoot(), page, gate], map[1 := Run(2, Begin)], []);
    assert [LostRoot()] + Seeded(DoneRoot(), page) == s0.jobs;
    Go(true, false, s0, Tick(1), s0.(now := 1));
    var s1 := State(1, s0.jobs + [RetriedJob(LostRoot(), 4, 1)], s0.runs, []);
    Go(true, false, s0.(now := 1), Retry(0), s1);
    Go(true, false, s1, Fail(1, true, 0), State(1, RetriedTable(gate), map[], []));
  }

  /** The dead-lettered page is older than the retried root, so the gate does not look at it. */
  lemma StaleDeadLetterPassesGate()
    ensures exists s :: ReachableBy(true, false, s) && Advancing(s, 1, Movie, FEED) && Untorn(s, 1, Movie, FEED)
                        && Uncancelled(s.jobs, Movie, FEED) && Holds(s.jobs[s.runs[1].job], 1, s.now)
                        && !FeedComplete(s.jobs, Movie, FEED)
  {
    hide ReachableBy, FeedComplete, LatestRoot;
    RootIsRetried();
    var gate := Claimed(NewJob(GATE, COORDINATOR_ATTEMPTS, 0), 1, 1, 10);
    var s0 := State(1, RetriedTable(NewJob(GATE, COORDINATOR_ATTEMPTS, 0)), map[], []);
    var s1 := State(1, RetriedTable(gate), map[1 := Run(3, Begin)], []);
    Go(true, false, s0, Claim(1, 3, 10), s1);
    var s2 := s1.(runs := map[1 := Run(3, Clear(5))]);
    Go(true, false, s1, Exec(1, None, 0), s2);
    LatestRootIsMaximum(s2.jobs, 4);
    var s3 := s1.(runs := map[1 := Run(3, Advance(5, 1))]);
    Go(true, false, s2, Exec(1, None, 0), s3);
    NoPageNoFeed(s3.jobs);
  }

  // ---- an execution outlives its lease ------------------------------------------------------------

  function StaleTable(gate: Job<Payload>): seq<Job<Payload>> {
    [DoneRoot(), LostPage(0), gate]
  }

  /** Worker 1 claims the completion and stalls; worker 2 claims it again once the lease has run out. */
  lemma GateIsReclaimed()
    ensures ReachableBy(false, true,
              State(10, StaleTable(Claimed(Claimed(NewJob(GATE, COORDINATOR_ATTEMPTS, 0), 1, 0, 10), 2, 10, 10)),
                    map[1 := Run(2, Begin), 2 := Run(2, Begin)], []))
  {
    hide ReachableBy;
    NothingYet(false, true);
    PageRuns(false, true, []);
    var gate := NewJob(GATE, COORDINATOR_ATTEMPTS, 0);
    var s0 := State(0, Seeded(DoneRoot(), Claimed(NewJob(PAGE, 3, 0), 1, 0, 10)), map[1 := Run(1, Begin)], []);
    assert [] + s0.jobs == s0.jobs;
    var s1 := State(0, StaleTable(gate), map[], []);
    Go(false, true, s0, Fail(1, true, 0), s1);
    var s2 := State(0, StaleTable(Claimed(gate, 1, 0, 10)), map[1 := Run(2, Begin)], []);
    Go(false, true, s1, Claim(1, 2, 10), s2);
    Go(false, true, s2, Tick(10), s2.(now := 10));
    var s3 := State(10, StaleTable(Claimed(Claimed(gate, 1, 0, 10), 2, 10, 10)),
                    map[1 := Run(2, Begin), 2 := Run(2, Begin)], []);
    Go(false, true, s2.(now := 10), Claim(2, 2, 10), s3);
  }

  function GateDone(): Job<Payload> {
    Completed(Claimed(Claimed(NewJob(GATE, COORDINATOR_ATTEMPTS, 0), 1, 0, 10), 2, 10, 10), 10, 0)
  }

  /** Worker 2 sees the dead letter and ends the scan without advancing. */
  lemma GateHolds()
    ensures ReachableBy(false, true, State(10, StaleTable(GateDone()), map[1 := Run(2, Begin)], []))
  {
    hide ReachableBy, LatestRoot;
    GateIsReclaimed();
    var s0 := State(10, StaleTable(Claimed(Claimed(NewJob(GATE, COORDINATOR_ATTEMPTS, 0), 1, 0, 10), 2, 10, 10)),
                    map[1 := Run(2, Begin), 2 := Run(2, Begin)], []);
    var s1 := s0.(runs := map[1 := Run(2, Begin), 2 := Run(2, Clear(3))]);
    Go(false, true, s0, Exec(2, None, 0), s1);
    LatestRootIsMaximum(s1.jobs, 0);
    assert UnresolvedFailures(s1.jobs, 0) by {
      assert s1.jobs[1].status.DeadLetter? && !Recovered(s1.jobs, s1.jobs[1]);
    }
    var s2 := s0.(runs := map[1 := Run(2, Begin), 2 := Run(2, Done(0))]);
    Go(false, true, s1, Exec(2, None, 0), s2);
    Go(false, true, s2, Finish(2), State(10, StaleTable(GateDone()), map[1 := Run(2, Begin)], []));
  }

  /** After the next root is submitted, the stalled execution goes on: both its reads pass. */
  lemma StaleExecutionPassesGate()
    ensures exists s :: ReachableBy(false, true, s) && Advancing(s, 1, Movie, FEED) && Untorn(s, 1, Movie, FEED)
                        && Uncancelled(s.jobs, Movie, FEED) && !FeedComplete(s.jobs, Movie, FEED)
  {
    hide ReachableBy, FeedComplete, LatestRoot;
    GateHolds();
    var s0 := State(10, StaleTable(GateDone()), map[1 := Run(2, Begin)], []);
    var s1 := State(10, StaleTable(GateDone()) + [NewJob(ROOT, 3, 10)], map[1 := Run(2, Begin)], []);
    Go(false, true, s0, SubmitRoot([Movie], None, 3), s1);
    var s2 := s1.(runs := map[1 := Run(2, Clear(4))]);
    Go(false, true, s1, Exec(1, None, 0), s2);
    LatestRootIsMaximum(s2.jobs, 3);
    var s3 := s1.(runs := map[1 := Run(2, Advance(4, 10))]);
    Go(false, true, s2, Exec(1, None, 0), s3);
    NoPageNoFeed(s3.jobs);
  }

  // ---- a page comes between the two reads ---------------------------------------------------------

  function OpenGate(): Job<Payload> {
    Claimed(NewJob(GATE, COORDINATOR_ATTEMPTS, 0), 2, 0, 100)
  }

  /** The worker of `Start` is lost before it reports; page 1 is dead-lettered; the gate's first read finds no work. */
  lemma GateReadsOnce()
    ensures ReachableBy(true, true, State(0, [RunningRoot(), LostPage(0), OpenGate()], map[2 := Run(2, Clear(3))], []))
  {
    hide ReachableBy;
    NothingYet(true, true);
    RootSeeds(true, true, []);
    var s0 := State(0, Seeded(RunningRoot(), NewJob(PAGE, 3, 0)), map[1 := Run(0, Done(0))], []);
    assert [] + s0.jobs == s0.jobs;
    Go(true, true, s0, Abandon(1), s0.(runs := map[]));
    var s1 := State(0, Seeded(RunningRoot(), Claimed(NewJob(PAGE, 3, 0), 1, 0, 10)), map[1 := Run(1, Begin)], []);
    Go(true, true, s0.(runs := map[]), Claim(1, 1, 10), s1);
    var s2 := State(0, Seeded(RunningRoot(), LostPage(0)), map[], []);
    Go(true, true, s1, Fail(1, true, 0), s2);
    var s3 := State(0, [RunningRoot(), LostPage(0), OpenGate()], map[2 := Run(2, Begin)], []);
    Go(true, true, s2, Claim(2, 2, 100), s3);
    Go(true, true, s3, Exec(2, None, 0), s3.(runs := map[2 := Run(2, Clear(3))]));
  }

  function AgainRoot(): Job<Payload> {
    Claimed(RunningRoot(), 1, 10, 10)
  }

  /** `Start` is claimed again when its lease has run out, and submits page 1 a second time. */
  lemma PageIsResubmitted()
    ensures ReachableBy(true, true, State(10, [AgainRoot(), LostPage(0), OpenGate(), NewJob(PAGE, 3, 10)],
                                          map[1 := Run(0, Pages(1, FEED)), 2 := Run(2, Clear(3))], []))
  {
    hide ReachableBy;
    GateReadsOnce();
    var s0 := State(0, [RunningRoot(), LostPage(0), OpenGate()], map[2 := Run(2, Clear(3))], []);
    Go(true, true, s0, Tick(10), s0.(now := 10));
    var s1 := State(10, [AgainRoot(), LostPage(0), OpenGate()], map[1 := Run(0, Begin), 2 := Run(2, Clear(3))], []);
    Go(true, true, s0.(now := 10), Claim(1, 0, 10), s1);
    var s2 := s1.(runs := map[1 := Run(0, Pages(0, FEED)), 2 := Run(2, Clear(3))]);
    Go(true, true, s1, Exec(1, Some(FEED), 0), s2);
    var s3 := State(10, s1.jobs + [NewJob(PAGE, 3, 10)], map[1 := Run(0, Pages(1, FEED)), 2 := Run(2, Clear(3))], []);
    Go(true, true, s2, Exec(1, None, 0), s3);
    assert s3.jobs == [AgainRoot(), LostPage(0), OpenGate(), NewJob(PAGE, 3, 10)];
  }

  function ReadPage(): Job<Payload> {
    Completed(Claimed(NewJob(PAGE, 3, 10), 3, 10, 10), 10, 2)
  }

  function OpenTable(page: Job<Payload>): seq<Job<Payload>> {
    [AgainRoot(), LostPage(0), OpenGate(), page, NewJob(NEXT, COORDINATOR_ATTEMPTS, 10)]
  }

  /** This time page 1 succeeds, reports a second page and submits it. */
  lemma NextPageIsQueued()
    ensures ReachableBy(true, true,
                        State(10, OpenTable(ReadPage()), map[1 := Run(0, Pages(1, FEED)), 2 := Run(2, Clear(3))], []))
  {
    hide ReachableBy;
    PageIsResubmitted();
    var runs := map[1 := Run(0, Pages(1, FEED)), 2 := Run(2, Clear(3))];
    var s0 := State(10, [AgainRoot(), LostPage(0), OpenGate(), NewJob(PAGE, 3, 10)], runs, []);
    var page := Claimed(NewJob(PAGE, 3, 10), 3, 10, 10);
    var s1 := State(10, [AgainRoot(), LostPage(0), OpenGate(), page], runs[3 := Run(3, Begin)], []);
    Go(true, true, s0, Claim(3, 3, 10), s1);
    var s2 := s1.(runs := runs[3 := Run(3, Fetched(2))]);
    Go(true, true, s1, Exec(3, None, 2), s2);
    var s3 := State(10, OpenTable(page), runs[3 := Run(3, Done(2))], []);
    Go(true, true, s2, Exec(3, None, 0), s3);
    Go(true, true, s3, Finish(3), State(10, OpenTable(ReadPage()), runs, []));
  }

  lemma SecondPageIsOpen()
    ensures !FeedComplete(OpenTable(ReadPage()), Movie, FEED)
  {
    var jobs := OpenTable(ReadPage());
    assert !LastPage(jobs, Movie, 1, FEED) && !PageDone(jobs, Movie, 2, FEED);
  }

  /** The gate's second read finds the failure of page 1 recovered, and never learns of page 2. */
  lemma TornGatePassesOpenFeed()
    ensures exists s :: OrderlyReachable(s) && Advancing(s, 2, Movie, FEED) && Holds(s.jobs[s.runs[2].job], 2, s.now)
                        && Uncancelled(s.jobs, Movie, FEED) && !FeedComplete(s.jobs, Movie, FEED)
  {
    hide ReachableBy, FeedComplete, LatestRoot;
    NextPageIsQueued();
    var s0 := State(10, OpenTable(ReadPage()), map[1 := Run(0, Pages(1, FEED)), 2 := Run(2, Clear(3))], []);
    LatestRootIsMaximum(s0.jobs, 0);
    assert Recovered(s0.jobs, s0.jobs[1]) by { assert s0.jobs[3].payload == PAGE; }
    var s1 := s0.(runs := map[1 := Run(0, Pages(1, FEED)), 2 := Run(2, Advance(3, 0))]);
    Go(true, true, s0, Exec(2, None, 0), s1);
    SecondPageIsOpen();
    OrderlyByBoth(s1);
  }

  lemma OrderlyByBoth(s: State)
    requires ReachableBy(true, true, s)
    ensures OrderlyReachable(s)
  {
    var actions :| Execute(actions) == Some(s) && RunBy(true, true, actions);
    BothIsOrderly(actions);
  }

  // ---- a page is cancelled ------------------------------------------------------------------------

  function CutPage(): Job<Payload> {
    CancelRequested(NewJob(PAGE, 3, 0), 0)
  }

  /** Page 1 is cancelled while it is queued, and the root ends. */
  lemma PageIsCancelled()
    ensures ReachableBy(true, true, State(0, Seeded(DoneRoot(), CutPage()), map[], []))
  {
    hide ReachableBy;
    NothingYet(true, true);
    RootSeeds(true, true, []);
    var s0 := State(0, Seeded(RunningRoot(), NewJob(PAGE, 3, 0)), map[1 := Run(0, Done(0))], []);
    assert [] + s0.jobs == s0.jobs;
    var s1 := State(0, Seeded(RunningRoot(), CutPage()), map[1 := Run(0, Done(0))], []);
    Go(true, true, s0, Cancel(1), s1);
    Go(true, true, s1, Finish(1), State(0, Seeded(DoneRoot(), CutPage()), map[], []));
  }

  /** A cancelled page is neither active nor dead-lettered, so both reads pass. */
  lemma CancelledPagePassesGate()
    ensures exists s :: OrderlyReachable(s) && Advancing(s, 1, Movie, FEED) && Untorn(s, 1, Movie, FEED)
                        && Holds(s.jobs[s.runs[1].job], 1, s.now) && !FeedComplete(s.jobs, Movie, FEED)
  {
    hide ReachableBy, FeedComplete, LatestRoot;
    PageIsCancelled();
    var gate := Claimed(NewJob(GATE, COORDINATOR_ATTEMPTS, 0), 1, 0, 10);
    var s0 := State(0, Seeded(DoneRoot(), CutPage()), map[], []);
    var s1 := State(0, [DoneRoot(), CutPage(), gate], map[1 := Run(2, Begin)], []);
    Go(true, true, s0, Claim(1, 2, 10), s1);
    var s2 := s1.(runs := map[1 := Run(2, Clear(3))]);
    Go(true, true, s1, Exec(1, None, 0), s2);
    LatestRootIsMaximum(s2.jobs, 0);
    var s3 := s1.(runs := map[1 := Run(2, Advance(3, 0))]);
    Go(true, true, s2, Exec(1, None, 0), s3);
    NoPageNoFeed(s3.jobs);
    OrderlyByBoth(s3);
  }
}
