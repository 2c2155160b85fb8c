// Runs of the `daily_sync` scan in which executions act only under a live lease and operators do not retry scans. In
// these runs the age of failures does not matter: the gate can be passed by an unfinished feed only when a page of it
// is submitted between the gate's two reads.
module OrderlyScan {
  import opened Catalog
  import opened CompletionGate
  import opened JobQueue
  import opened ScanQuiescence
  import opened Widths

  /** An execution acts only under a live lease. */
  predicate UnderLease(s: State, a: Action)
    requires Enabled(s, a)
  {
    a.Exec? ==> Holds(s.jobs[s.runs[a.worker].job], a.worker, s.now)
  }

  /** Operators retry ingest jobs but not scans. */
  predicate RetriesNoScan(s: State, a: Action)
    requires Enabled(s, a)
  {
    a.Retry? ==> !IsScan(s.jobs[a.job].payload)
  }

  predicate Orderly(s: State, a: Action)
    requires Enabled(s, a)
  {
    UnderLease(s, a) && RetriesNoScan(s, a)
  }

  ghost predicate OrderlyRun(actions: seq<Action>) {
    if actions == [] then true
    else
      var before, a := Execute(actions[..|actions| - 1]), actions[|actions| - 1];
      OrderlyRun(actions[..|actions| - 1]) && before.Some? && Enabled(before.value, a) && Orderly(before.value, a)
  }

  ghost predicate OrderlyReachable(s: State) {
    exists actions :: Execute(actions) == Some(s) && OrderlyRun(actions)
  }

  /** The position of the last submitted root, -1 when there is none. */
  function LastRoot(jobs: seq<Job<Payload>>): (r: int)
    ensures -1 <= r < |jobs| && (r >= 0 ==> jobs[r].payload.Start?)
    ensures forall i :: r < i < |jobs| ==> !jobs[i].payload.Start?
  {
    if jobs == [] then -1
    else if jobs[|jobs| - 1].payload.Start? then |jobs| - 1
    else LastRoot(jobs[..|jobs| - 1])
  }

  /** A job for this page was submitted after the last root. */
  predicate FreshPage(jobs: seq<Job<Payload>>, media: Media, page: nat, span: Window) {
    exists i :: LastRoot(jobs) < i < |jobs| && jobs[i].payload.Changes? && jobs[i].payload.media == media
                && jobs[i].payload.page == page && jobs[i].payload.span == span
  }

  /** Only jobs since the last root are active. */
  ghost predicate ActiveFresh(jobs: seq<Job<Payload>>) {
    forall i :: 0 <= i < |jobs| && Active(jobs[i].status) && (IsScan(jobs[i].payload) || IsIngest(jobs[i].payload)) ==>
      i >= LastRoot(jobs)
  }

  /** Rows are in order of creation, and ended after it. */
  ghost predicate InTime(jobs: seq<Job<Payload>>, now: nat) {
    && (forall i :: 0 <= i < |jobs| ==> jobs[i].createdAt <= now)
    && (forall i, j :: 0 <= i < j < |jobs| ==> jobs[i].createdAt <= jobs[j].createdAt)
    && (forall i :: 0 <= i < |jobs| && !Active(jobs[i].status) ==> jobs[i].createdAt <= jobs[i].finishedAt <= now)
  }

  /** Ingest jobs from before the last root had ended when it was submitted. */
  ghost predicate OldEnded(jobs: seq<Job<Payload>>) {
    forall i :: 0 <= i < LastRoot(jobs) && IsIngest(jobs[i].payload) ==>
      !Active(jobs[i].status) && jobs[i].finishedAt <= jobs[LastRoot(jobs)].createdAt
  }

  ghost predicate CompletionsFresh(jobs: seq<Job<Payload>>) {
    forall i :: 0 <= i < |jobs| && jobs[i].payload.Completion? && Active(jobs[i].status) ==>
      forall m :: m in jobs[i].payload.mediaTypes ==> FreshPage(jobs, m, 1, jobs[i].payload.span)
  }

  ghost predicate SuccessorsFresh(jobs: seq<Job<Payload>>) {
    forall i :: LastRoot(jobs) < i < |jobs| && jobs[i].payload.Changes? && jobs[i].status.Succeeded?
                && jobs[i].result > jobs[i].payload.page ==>
      FreshPage(jobs, jobs[i].payload.media, jobs[i].payload.page + 1, jobs[i].payload.span)
  }

  /** What an execution of a job that is still active has established since the last root. */
  ghost predicate RunFresh(jobs: seq<Job<Payload>>, run: Run) {
    run.job < |jobs| && Active(jobs[run.job].status) ==>
      match jobs[run.job].payload
      case Start(mediaTypes, _) =>
        run.pc.Pages? && run.pc.next <= |mediaTypes| ==>
          forall k :: 0 <= k < run.pc.next ==> FreshPage(jobs, mediaTypes[k], 1, run.pc.chosen)
      case Changes(media, page, span) => run.pc.Done? && run.pc.total > page ==> FreshPage(jobs, media, page + 1, span)
      case Completion(_, _, _) =>
        run.pc.Advance? ==> LastRoot(jobs) >= 0 && run.pc.root == jobs[LastRoot(jobs)].createdAt
      case Other(_, _) => true
  }

  ghost predicate RunsFresh(jobs: seq<Job<Payload>>, runs: map<nat, Run>) {
    forall w :: w in runs ==> RunFresh(jobs, runs[w])
  }

  ghost predicate FreshTable(jobs: seq<Job<Payload>>, now: nat) {
    ActiveFresh(jobs) && InTime(jobs, now) && OldEnded(jobs) && CompletionsFresh(jobs) && SuccessorsFresh(jobs)
  }

  ghost predicate OrderlyInv(s: State) {
    FreshTable(s.jobs, s.now) && RunsFresh(s.jobs, s.runs)
  }

  /** Later tables of the same root: rows appended that are no roots, active rows changed. */
  ghost predicate SameRoot(jobs: seq<Job<Payload>>, later: seq<Job<Payload>>) {
    Extends(jobs, later) && LastRoot(later) == LastRoot(jobs)
  }

  lemma FreshPageStays(jobs: seq<Job<Payload>>, later: seq<Job<Payload>>, media: Media, page: nat, span: Window)
    requires SameRoot(jobs, later) && FreshPage(jobs, media, page, span)
    ensures FreshPage(later, media, page, span)
  {
    var i :| LastRoot(jobs) < i < |jobs| && jobs[i].payload.Changes? && jobs[i].payload.media == media
             && jobs[i].payload.page == page && jobs[i].payload.span == span;
    assert later[i].payload == jobs[i].payload;
  }

  lemma RunFreshStays(jobs: seq<Job<Payload>>, later: seq<Job<Payload>>, run: Run)
    requires SameRoot(jobs, later) && RunFresh(jobs, run) && run.job < |jobs|
    ensures RunFresh(later, run)
  {
    hide LastRoot, FreshPage;
    if Active(later[run.job].status) {
      match jobs[run.job].payload
      case Start(mediaTypes, _) =>
        if run.pc.Pages? && run.pc.next <= |mediaTypes| {
          forall k | 0 <= k < run.pc.next ensures FreshPage(later, mediaTypes[k], 1, run.pc.chosen) {
            FreshPageStays(jobs, later, mediaTypes[k], 1, run.pc.chosen);
          }
        }
      case Changes(media, page, span) =>
        if run.pc.Done? && run.pc.total > page { FreshPageStays(jobs, later, media, page + 1, span); }
      case Completion(_, _, _) =>
      case Other(_, _) =>
    }
  }

  lemma RunsFreshStay(jobs: seq<Job<Payload>>, later: seq<Job<Payload>>, runs: map<nat, Run>)
    requires SameRoot(jobs, later) && RunsFresh(jobs, runs) && RunsOk(jobs, runs)
    ensures RunsFresh(later, runs)
  {
    forall w | w in runs ensures RunFresh(later, runs[w]) { RunFreshStays(jobs, later, runs[w]); }
  }

  /** Appending a job that is no root, seeded if it is a completion. */
  lemma AppendStaysFresh(jobs: seq<Job<Payload>>, job: Job<Payload>, now: nat)
    requires FreshTable(jobs, now) && job.status.Queued? && job.createdAt == now && !job.payload.Start?
    requires job.payload.Completion? ==> forall m :: m in job.payload.mediaTypes ==>
      FreshPage(jobs, m, 1, job.payload.span)
    ensures SameRoot(jobs, jobs + [job]) && FreshTable(jobs + [job], now)
  {
    var later := jobs + [job];
    assert LastRoot(later) == LastRoot(jobs) by { assert later[..|jobs|] == jobs; }
    hide LastRoot, FreshPage;
    TableStaysFresh(jobs, later);
    hide CompletionsFresh, SuccessorsFresh;
    TimesStayFresh(jobs, later, now);
  }

  /** The facts about pages carry over to a later table of the same root, except those of changed rows. */
  lemma TableStaysFresh(jobs: seq<Job<Payload>>, later: seq<Job<Payload>>)
    requires SameRoot(jobs, later) && CompletionsFresh(jobs) && SuccessorsFresh(jobs)
    requires forall i :: 0 <= i < |later| && later[i].payload.Completion? && Active(later[i].status)
                         && (i >= |jobs| || !Active(jobs[i].status)) ==>
               forall m :: m in later[i].payload.mediaTypes ==> FreshPage(jobs, m, 1, later[i].payload.span)
    requires forall i :: LastRoot(jobs) < i < |later| && later[i].payload.Changes? && later[i].status.Succeeded?
                         && later[i].result > later[i].payload.page && (i >= |jobs| || jobs[i] != later[i]) ==>
               FreshPage(jobs, later[i].payload.media, later[i].payload.page + 1, later[i].payload.span)
    ensures CompletionsFresh(later) && SuccessorsFresh(later)
  {
    hide LastRoot, FreshPage;
    forall i, m | 0 <= i < |later| && later[i].payload.Completion? && Active(later[i].status)
      && m in later[i].payload.mediaTypes
      ensures FreshPage(later, m, 1, later[i].payload.span)
    {
      FreshPageStays(jobs, later, m, 1, later[i].payload.span);
    }
    forall i | LastRoot(later) < i < |later| && later[i].payload.Changes? && later[i].status.Succeeded?
               && later[i].result > later[i].payload.page
      ensures FreshPage(later, later[i].payload.media, later[i].payload.page + 1, later[i].payload.span)
    {
      FreshPageStays(jobs, later, later[i].payload.media, later[i].payload.page + 1, later[i].payload.span);
    }
  }

  /** The facts about times carry over when rows are appended now and changed rows end no earlier than now. */
  lemma TimesStayFresh(jobs: seq<Job<Payload>>, later: seq<Job<Payload>>, now: nat)
    requires SameRoot(jobs, later) && ActiveFresh(jobs) && InTime(jobs, now) && OldEnded(jobs)
    requires forall i :: 0 <= i < |jobs| && Active(jobs[i].status) && !Active(later[i].status) ==>
      later[i].finishedAt == now
    requires forall i :: |jobs| <= i < |later| ==> Active(later[i].status) && later[i].createdAt == now
    ensures ActiveFresh(later) && InTime(later, now) && OldEnded(later)
  {
    var r := LastRoot(jobs);
    hide LastRoot;
    forall i | 0 <= i < r && IsIngest(later[i].payload)
      ensures !Active(later[i].status) && later[i].finishedAt <= later[r].createdAt
    {
      assert !Active(jobs[i].status);
    }
  }

  /** Changing one active row, which may end now; a success needs its fresh successor. */
  lemma UpdateStaysFresh(jobs: seq<Job<Payload>>, j: nat, job: Job<Payload>, now: nat)
    requires FreshTable(jobs, now) && j < |jobs| && Active(jobs[j].status)
    requires job.payload == jobs[j].payload && job.createdAt == jobs[j].createdAt
    requires !Active(job.status) ==> job.finishedAt == now
    requires job.status.Succeeded? && job.payload.Changes? && job.result > job.payload.page ==>
               FreshPage(jobs, job.payload.media, job.payload.page + 1, job.payload.span)
    ensures SameRoot(jobs, jobs[j := job]) && FreshTable(jobs[j := job], now)
  {
    var later := jobs[j := job];
    LastRootOfUpdate(jobs, j, job);
    hide LastRoot, FreshPage;
    TableStaysFresh(jobs, later);
    hide CompletionsFresh, SuccessorsFresh;
    TimesStayFresh(jobs, later, now);
  }

  lemma {:induction false} LastRootOfUpdate(jobs: seq<Job<Payload>>, j: nat, job: Job<Payload>)
    requires j < |jobs| && job.payload == jobs[j].payload
    ensures LastRoot(jobs[j := job]) == LastRoot(jobs)
  {
    var n := |jobs| - 1;
    if j < n {
      LastRootOfUpdate(jobs[..n], j, job);
      assert jobs[j := job][..n] == jobs[..n][j := job];
    } else {
      assert jobs[j := job][..n] == jobs[..n];
    }
  }

  lemma SubmitStaysFresh(jobs: seq<Job<Payload>>, p: Payload, max: nat, now: nat)
    requires FreshTable(jobs, now) && !p.Start?
    requires p.Completion? ==> forall m :: m in p.mediaTypes ==> FreshPage(jobs, m, 1, p.span)
    ensures SameRoot(jobs, Submit(jobs, p, max, now)) && FreshTable(Submit(jobs, p, max, now), now)
  {
    if !HasActive(jobs, p) { AppendStaysFresh(jobs, NewJob(p, max, now), now); }
  }

  /** A page that is submitted or already queued is fresh either way: what is active dates from the last root. */
  lemma SubmitGivesFreshPage(jobs: seq<Job<Payload>>, media: Media, page: u32, span: Window, max: nat, now: nat)
    requires ActiveFresh(jobs) && LastRoot(Submit(jobs, Changes(media, page, span), max, now)) == LastRoot(jobs)
    ensures FreshPage(Submit(jobs, Changes(media, page, span), max, now), media, page, span)
  {
    var p := Changes(media, page, span);
    var later := Submit(jobs, p, max, now);
    if HasActive(jobs, p) {
      var i :| 0 <= i < |jobs| && Active(jobs[i].status) && jobs[i].payload == p && jobs[i].key == 0;
      assert i > LastRoot(jobs);
    } else {
      assert later[|jobs|].payload == p;
    }
  }

  lemma {:induction false} NoRootNoTime(jobs: seq<Job<Payload>>)
    requires LastRoot(jobs) == -1
    ensures LatestRoot(jobs).None?
  {
    if jobs != [] { NoRootNoTime(jobs[..|jobs| - 1]); }
  }

  lemma GateRootIsLast(jobs: seq<Job<Payload>>, now: nat)
    requires InTime(jobs, now) && LatestRoot(jobs).Some?
    ensures LastRoot(jobs) >= 0 && LatestRoot(jobs).value == jobs[LastRoot(jobs)].createdAt
  {
    if LastRoot(jobs) == -1 { NoRootNoTime(jobs); } else { LatestRootIsMaximum(jobs, LastRoot(jobs)); }
  }

  /** What a step of an execution under a live lease keeps. */
  ghost predicate ExecFresh(jobs: seq<Job<Payload>>, now: nat, run: Run, window: Option<Window>, totalPages: u32)
    requires run.job < |jobs| && CanExec(jobs[run.job].payload, run.pc, window)
  {
    var r := ExecStep(jobs, now, jobs[run.job].payload, run.pc, window, totalPages);
    SameRoot(jobs, r.0) && FreshTable(r.0, now) && RunFresh(r.0, Run(run.job, r.1))
  }

  lemma StartStaysFresh(jobs: seq<Job<Payload>>, now: nat, run: Run, window: Option<Window>, totalPages: u32)
    requires FreshTable(jobs, now) && RunOk(jobs, run) && RunFresh(jobs, run) && Active(jobs[run.job].status)
    requires jobs[run.job].payload.Start? && CanExec(jobs[run.job].payload, run.pc, window)
    ensures ExecFresh(jobs, now, run, window, totalPages)
  {
    hide LastRoot, FreshPage, InTime, OldEnded, CompletionsFresh, SuccessorsFresh, HasActive;
    var p, pc := jobs[run.job].payload, run.pc;
    if pc.Pages? && pc.next < |p.mediaTypes| {
      var child := Changes(p.mediaTypes[pc.next], 1, pc.chosen);
      SubmitStaysFresh(jobs, child, 3, now);
      SubmitGivesFreshPage(jobs, p.mediaTypes[pc.next], 1, pc.chosen, 3, now);
      RunFreshStays(jobs, Submit(jobs, child, 3, now), run);
    } else if pc.Pages? {
      SubmitStaysFresh(jobs, Completion(p.mediaTypes, 0, pc.chosen), COORDINATOR_ATTEMPTS, now);
    } else {
      RunFreshStays(jobs, jobs, run);
    }
  }

  lemma ChangesStayFresh(jobs: seq<Job<Payload>>, now: nat, run: Run, window: Option<Window>, totalPages: u32)
    requires FreshTable(jobs, now) && RunOk(jobs, run) && RunFresh(jobs, run) && Active(jobs[run.job].status)
    requires jobs[run.job].payload.Changes? && CanExec(jobs[run.job].payload, run.pc, window)
    ensures ExecFresh(jobs, now, run, window, totalPages)
  {
    hide LastRoot, FreshPage, InTime, OldEnded, CompletionsFresh, SuccessorsFresh, HasActive, HasPage;
    var p, pc := jobs[run.job].payload, run.pc;
    if pc.Fetched? && pc.totalPages > p.page {
      SubmitStaysFresh(jobs, Changes(p.media, NextPage(p.page), p.span), COORDINATOR_ATTEMPTS, now);
      SubmitGivesFreshPage(jobs, p.media, NextPage(p.page), p.span, COORDINATOR_ATTEMPTS, now);
    }
  }

  lemma CompletionStaysFresh(jobs: seq<Job<Payload>>, now: nat, run: Run, window: Option<Window>, totalPages: u32)
    requires FreshTable(jobs, now) && RunOk(jobs, run) && RunFresh(jobs, run) && Active(jobs[run.job].status)
    requires jobs[run.job].payload.Completion? && CanExec(jobs[run.job].payload, run.pc, window)
    ensures ExecFresh(jobs, now, run, window, totalPages)
  {
    hide LastRoot, FreshPage, InTime, ActiveFresh, OldEnded, SuccessorsFresh, ActiveWork, UnresolvedFailures, HasActive;
    var p, pc := jobs[run.job].payload, run.pc;
    if pc.Waiting? {
      SubmitStaysFresh(jobs, Completion(p.mediaTypes, p.poll + 1, p.span), COORDINATOR_ATTEMPTS, now);
    } else if pc.Clear? && LatestRoot(jobs).Some? {
      GateRootIsLast(jobs, now);
    }
  }

  lemma ExecStaysFresh(jobs: seq<Job<Payload>>, now: nat, run: Run, window: Option<Window>, totalPages: u32)
    requires FreshTable(jobs, now) && RunOk(jobs, run) && RunFresh(jobs, run) && Active(jobs[run.job].status)
    requires CanExec(jobs[run.job].payload, run.pc, window)
    ensures ExecFresh(jobs, now, run, window, totalPages)
  {
    match jobs[run.job].payload
    case Start(_, _) => StartStaysFresh(jobs, now, run, window, totalPages);
    case Changes(_, _, _) => ChangesStayFresh(jobs, now, run, window, totalPages);
    case Completion(_, _, _) => CompletionStaysFresh(jobs, now, run, window, totalPages);
    case Other(_, _) =>
  }

  /** A new root is accepted only when nothing is active, so everything before it has ended. */
  lemma RootStaysFresh(s: State, a: Action)
    requires Inv(s) && OrderlyInv(s) && a.SubmitRoot? && Enabled(s, a)
    ensures OrderlyInv(Apply(s, a))
  {
    var t := Apply(s, a);
    assert LastRoot(t.jobs) == |s.jobs|;
    hide LastRoot, FreshPage;
    forall w | w in t.runs ensures RunFresh(t.jobs, t.runs[w]) { assert RunOk(s.jobs, s.runs[w]); }
  }

  lemma UpdateStepStaysFresh(s: State, j: nat, job: Job<Payload>, runs: map<nat, Run>)
    requires Inv(s) && OrderlyInv(s) && j < |s.jobs| && Active(s.jobs[j].status)
    requires job.payload == s.jobs[j].payload && job.createdAt == s.jobs[j].createdAt
    requires !Active(job.status) ==> job.finishedAt == s.now
    requires job.status.Succeeded? && job.payload.Changes? && job.result > job.payload.page ==>
               FreshPage(s.jobs, job.payload.media, job.payload.page + 1, job.payload.span)
    requires forall w :: w in runs ==> (w in s.runs && runs[w] == s.runs[w]) || runs[w].pc.Begin?
    ensures OrderlyInv(s.(jobs := s.jobs[j := job], runs := runs))
  {
    UpdateStaysFresh(s.jobs, j, job, s.now);
    RunsFreshStay(s.jobs, s.jobs[j := job], s.runs);
  }

  lemma AppendStepStaysFresh(s: State, a: Action)
    requires Inv(s) && OrderlyInv(s) && Enabled(s, a) && Orderly(s, a) && (a.SubmitOther? || a.Retry?)
    ensures OrderlyInv(Apply(s, a))
  {
    hide LastRoot, FreshPage, ActiveFresh, InTime, OldEnded, CompletionsFresh, SuccessorsFresh, HasActive;
    if a.Retry? {
      AppendStaysFresh(s.jobs, RetriedJob(s.jobs[a.job], |s.jobs|, s.now), s.now);
    } else {
      SubmitStaysFresh(s.jobs, Other(a.kind, a.ingest), a.maxAttempts, s.now);
    }
    RunsFreshStay(s.jobs, Apply(s, a).jobs, s.runs);
  }

  lemma ExecStepStaysFresh(s: State, a: Action)
    requires Inv(s) && OrderlyInv(s) && Enabled(s, a) && Orderly(s, a) && a.Exec?
    ensures OrderlyInv(Apply(s, a))
  {
    hide LastRoot, FreshPage, ActiveFresh, InTime, OldEnded, CompletionsFresh, SuccessorsFresh;
    ExecStaysFresh(s.jobs, s.now, s.runs[a.worker], a.window, a.totalPages);
    RunsFreshStay(s.jobs, Apply(s, a).jobs, s.runs);
  }

  lemma OutcomeStepStaysFresh(s: State, a: Action)
    requires Inv(s) && OrderlyInv(s) && Enabled(s, a) && (a.Finish? || a.Fail?)
    ensures OrderlyInv(Apply(s, a))
  {
    hide LastRoot, FreshPage, ActiveFresh, InTime, OldEnded, CompletionsFresh, SuccessorsFresh;
    var t, run := Apply(s, a), s.runs[a.worker];
    if Holds(s.jobs[run.job], a.worker, s.now) {
      var job := if a.Finish? then Completed(s.jobs[run.job], s.now, run.pc.total)
                 else Failed(s.jobs[run.job], s.now, a.terminal, a.delay);
      assert RunOk(s.jobs, run) && RunFresh(s.jobs, run);
      UpdateStepStaysFresh(s, run.job, job, t.runs);
    }
  }

  lemma OrderlyStepKeeps(s: State, a: Action)
    requires Inv(s) && OrderlyInv(s) && Enabled(s, a) && Orderly(s, a)
    ensures OrderlyInv(Apply(s, a))
  {
    hide LastRoot, FreshPage, ActiveFresh, OldEnded, CompletionsFresh, SuccessorsFresh;
    var t := Apply(s, a);
    match a
    case Tick(_) =>
    case SubmitRoot(_, _, _) => RootStaysFresh(s, a);
    case SubmitOther(_, _, _) => AppendStepStaysFresh(s, a);
    case Retry(_) => AppendStepStaysFresh(s, a);
    case Claim(w, j, lease) => UpdateStepStaysFresh(s, j, Claimed(s.jobs[j], w, s.now, lease), t.runs);
    case Cancel(j) => UpdateStepStaysFresh(s, j, CancelRequested(s.jobs[j], s.now), t.runs);
    case Reap(j) => UpdateStepStaysFresh(s, j, Reaped(s.jobs[j], s.now), t.runs);
    case Renew(w, lease) =>
      UpdateStepStaysFresh(s, s.runs[w].job, Renewed(s.jobs[s.runs[w].job], s.now, lease), t.runs);
    case Abandon(w) =>
    case Exec(_, _, _) => ExecStepStaysFresh(s, a);
    case Finish(_) => OutcomeStepStaysFresh(s, a);
    case Fail(_, _, _) => OutcomeStepStaysFresh(s, a);
  }

  lemma {:induction false} OrderlyReachableInv(actions: seq<Action>)
    requires Execute(actions).Some? && OrderlyRun(actions)
    ensures Inv(Execute(actions).value) && OrderlyInv(Execute(actions).value)
  {
    ReachableInv(actions);
    if actions != [] {
      var before := actions[..|actions| - 1];
      OrderlyReachableInv(before);
      OrderlyStepKeeps(Execute(before).value, actions[|actions| - 1]);
    }
  }

  // ---- the gate in orderly runs -------------------------------------------------------------------

  /** No page job of the feed since the last root was cancelled. */
  predicate UncancelledSinceRoot(jobs: seq<Job<Payload>>, media: Media, span: Window) {
    forall i :: LastRoot(jobs) < i < |jobs| && PageOf(jobs[i].payload, media, span) ==> !jobs[i].status.Cancelled?
  }

  /** Only a job since the last root can recover a failure since the last root: what came before had ended by then. */
  lemma RecoveryIsFresh(s: State, i: nat, done: nat)
    requires InTime(s.jobs, s.now) && OldEnded(s.jobs) && LastRoot(s.jobs) >= 0
    requires LastRoot(s.jobs) < i < |s.jobs| && !Active(s.jobs[i].status)
    requires done < |s.jobs| && IsIngest(s.jobs[done].payload) && s.jobs[done].finishedAt > s.jobs[i].finishedAt
    ensures done > LastRoot(s.jobs)
  {
    var r := LastRoot(s.jobs);
    assert s.jobs[r].payload.Start?;
    hide LastRoot;
    assert s.jobs[r].createdAt <= s.jobs[i].createdAt <= s.jobs[i].finishedAt;
  }

  /** In an orderly table a fresh page that is done, but is not the last, has a fresh successor. */
  lemma FreshSuccessor(s: State, media: Media, span: Window, page: nat, seen: nat)
    requires OrderlyInv(s) && UncancelledSinceRoot(s.jobs, media, span) && Settled(s.jobs, seen)
    requires LastRoot(s.jobs) >= 0
    requires Resolved(s.jobs, seen, s.jobs[LastRoot(s.jobs)].createdAt)
    requires forall i :: 0 <= i < |s.jobs| && PageOf(s.jobs[i].payload, media, span) ==> i < seen
    requires FreshPage(s.jobs, media, page, span) && !LastPage(s.jobs, media, page, span)
    ensures FreshPage(s.jobs, media, page + 1, span)
  {
    var jobs, r := s.jobs, LastRoot(s.jobs);
    hide LastRoot, ActiveFresh, OldEnded, CompletionsFresh;
    var i :| r < i < |jobs| && jobs[i].payload.Changes? && jobs[i].payload.media == media
             && jobs[i].payload.page == page && jobs[i].payload.span == span;
    hide FreshPage;
    assert PageOf(jobs[i].payload, media, span);
    var done := i;
    if !jobs[i].status.Succeeded? {
      assert jobs[i].status.DeadLetter?;
      assert Recovered(jobs, jobs[i]) by { assert jobs[r].createdAt <= jobs[i].createdAt; }
      done :| 0 <= done < |jobs| && jobs[done].payload == jobs[i].payload && jobs[done].key == jobs[i].key
              && jobs[done].status.Succeeded? && jobs[done].finishedAt > jobs[i].finishedAt;
      RecoveryIsFresh(s, i, done);
    }
    hide InTime;
    assert PageSucceeded(jobs, media, page, span, jobs[done].result);
    assert jobs[done].result > page;
  }

  lemma {:induction false} FreshUpTo(s: State, media: Media, span: Window, page: nat, seen: nat)
    requires OrderlyInv(s) && UncancelledSinceRoot(s.jobs, media, span) && Settled(s.jobs, seen)
    requires LastRoot(s.jobs) >= 0
    requires Resolved(s.jobs, seen, s.jobs[LastRoot(s.jobs)].createdAt)
    requires forall i :: 0 <= i < |s.jobs| && PageOf(s.jobs[i].payload, media, span) ==> i < seen
    requires page >= 1 && FreshPage(s.jobs, media, 1, span)
    requires forall q: nat :: 1 <= q < page ==> !LastPage(s.jobs, media, q, span)
    ensures FreshPage(s.jobs, media, page, span)
    decreases page
  {
    if page > 1 {
      FreshUpTo(s, media, span, page - 1, seen);
      FreshSuccessor(s, media, span, page - 1, seen);
    }
  }

  lemma FreshIsInSight(s: State, media: Media, page: nat, span: Window, seen: nat)
    requires InTime(s.jobs, s.now) && LastRoot(s.jobs) >= 0 && FreshPage(s.jobs, media, page, span)
    requires UncancelledSinceRoot(s.jobs, media, span)
    requires forall i :: 0 <= i < |s.jobs| && PageOf(s.jobs[i].payload, media, span) ==> i < seen
    ensures !OutOfGateSight(s.jobs, media, page, span, seen, s.jobs[LastRoot(s.jobs)].createdAt)
  {
    var i :| LastRoot(s.jobs) < i < |s.jobs| && s.jobs[i].payload.Changes? && s.jobs[i].payload.media == media
             && s.jobs[i].payload.page == page && s.jobs[i].payload.span == span;
    assert s.jobs[i].createdAt >= s.jobs[LastRoot(s.jobs)].createdAt;
    hide LastRoot;
  }

  /**
   * In an orderly run the age of failures does not matter: when a completion that holds its lease is about to advance
   * the watermark, no page of the feed was cancelled since the last root and none was submitted between the gate's two
   * reads, the feed was read to its end.
   */
  lemma OrderlyGateIsSound(s: State, worker: nat, media: Media, span: Window)
    requires OrderlyReachable(s) && Advancing(s, worker, media, span) && Untorn(s, worker, media, span)
    requires Holds(s.jobs[s.runs[worker].job], worker, s.now) && UncancelledSinceRoot(s.jobs, media, span)
    ensures FeedComplete(s.jobs, media, span)
  {
    hide LastRoot, FreshPage, Execute, OrderlyRun, FeedComplete, OutOfGateSight, LastPage, PageDone, HasPage;
    var actions :| Execute(actions) == Some(s) && OrderlyRun(actions);
    OrderlyReachableInv(actions);
    var run := s.runs[worker];
    assert RunOk(s.jobs, run) && RunFresh(s.jobs, run);
    CompleteOrBlocked(s.jobs, media, span);
    if !FeedComplete(s.jobs, media, span) {
      var p: nat :| BlockedAt(s.jobs, media, span, p);
      BlockedIsOutOfSight(s.jobs, media, span, p, run.pc.seen, run.pc.root);
      FreshUpTo(s, media, span, p, run.pc.seen);
      FreshIsInSight(s, media, p, span, run.pc.seen);
    }
  }

  /**
   * Whenever a completion advances the watermark, no page of its feeds was cancelled since the last root, and none came
   * between its two reads.
   */
  ghost predicate UntornRun(actions: seq<Action>)
    requires Execute(actions).Some?
  {
    actions == []
    || (UntornRun(actions[..|actions| - 1])
        && UntornStep(Execute(actions[..|actions| - 1]).value, actions[|actions| - 1]))
  }

  ghost predicate UntornStep(s: State, a: Action) {
    forall m, span {:trigger Advancing(s, a.worker, m, span)} ::
      a.Exec? && Advancing(s, a.worker, m, span) ==>
        Untorn(s, a.worker, m, span) && UncancelledSinceRoot(s.jobs, m, span)
  }

  lemma FeedStaysComplete(jobs: seq<Job<Payload>>, later: seq<Job<Payload>>, media: Media, span: Window)
    requires Extends(jobs, later) && FeedComplete(jobs, media, span)
    ensures FeedComplete(later, media, span)
  {
    var n: nat :| n >= 1 && LastPage(jobs, media, n, span)
                  && forall p: nat :: 1 <= p <= n ==> PageDone(jobs, media, p, span);
    forall p: nat | 1 <= p <= n ensures PageDone(later, media, p, span) { PageStaysDone(jobs, later, media, p, span); }
    PageStaysDone(jobs, later, media, n, span);
  }

  lemma PageStaysDone(jobs: seq<Job<Payload>>, later: seq<Job<Payload>>, media: Media, page: nat, span: Window)
    requires Extends(jobs, later) && PageDone(jobs, media, page, span)
    ensures PageDone(later, media, page, span)
    ensures LastPage(jobs, media, page, span) ==> LastPage(later, media, page, span)
  {
    forall total: nat | PageSucceeded(jobs, media, page, span, total)
      ensures PageSucceeded(later, media, page, span, total)
    {
      var i :| 0 <= i < |jobs| && jobs[i].payload.Changes? && jobs[i].payload.media == media
               && jobs[i].payload.page == page && jobs[i].payload.span == span
               && jobs[i].status.Succeeded? && jobs[i].result == total;
      assert later[i] == jobs[i];
    }
  }

  /**
   * Over a whole orderly run whose gates were not torn and whose pages were not cancelled: every feed for which the
   * watermark was ever advanced was read to its end, and is still so at the end of the run.
   */
  lemma {:induction false} AdvancedFeedsStayComplete(actions: seq<Action>, i: nat, media: Media)
    requires Execute(actions).Some? && OrderlyRun(actions) && UntornRun(actions)
    requires i < |Execute(actions).value.advanced| && media in Execute(actions).value.advanced[i].mediaTypes
    ensures FeedComplete(Execute(actions).value.jobs, media, Execute(actions).value.advanced[i].span)
  {
    if actions != [] {
      var before, a := Execute(actions[..|actions| - 1]).value, actions[|actions| - 1];
      ReachableInv(actions[..|actions| - 1]);
      StepKeepsInv(before, a);
      var later := Apply(before, a);
      var feeds := later.advanced[i];
      if i < |before.advanced| {
        AdvancedFeedsStayComplete(actions[..|actions| - 1], i, media);
      } else {
        assert Advancing(before, a.worker, media, feeds.span);
        assert OrderlyReachable(before);
        OrderlyGateIsSound(before, a.worker, media, feeds.span);
      }
      FeedStaysComplete(before.jobs, later.jobs, media, feeds.span);
    }
  }
}
