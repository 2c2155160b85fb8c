// The `daily_sync` scan as a diffusing computation over durable jobs: `Start` submits page 1 of each
// change feed and then `Completion`; a page submits its successor before its own success is recorded;
// `Completion` reads the queue twice and then advances the watermark. Every step of every worker is
// interleaved freely, leases expire, and lost workers leave stale executions behind. A root scan is accepted only while
// no scan or ingest job is active; an operator may cancel any active job, and retry any job that ended badly, under a
// key of its own.
module ScanQuiescence {
  import opened Catalog
  import opened JobQueue
  import opened Widths

  datatype Window = Window(start: int, end: int)

  datatype Payload =
    | Start(mediaTypes: seq<Media>, window: Option<Window>)
    | Completion(mediaTypes: seq<Media>, poll: u32, span: Window)
    | Changes(media: Media, page: u32, span: Window)
    | Other(kind: nat, ingest: bool)

  /** `job_type LIKE 'ingest.%'` */
  predicate IsIngest(p: Payload) {
    p.Changes? || (p.Other? && p.ingest)
  }

  /** Where one execution stands. `Clear` and `Advance` lie after the first and second gate read. */
  datatype Pc =
    | Begin
    | Pages(next: nat, chosen: Window)
    | Fetched(totalPages: u32)
    | Waiting
    | Clear(seen: nat)
    | Advance(seen: nat, root: nat)
    | Done(total: u32)

  datatype Run = Run(job: nat, pc: Pc)

  /** `runs` holds at most one execution per worker; it may outlive the lease it was started under. */
  datatype State = State(now: nat, jobs: seq<Job<Payload>>, runs: map<nat, Run>, advanced: seq<Advanced>)

  /** The feeds for which a completion moved the watermark. */
  datatype Advanced = Advanced(mediaTypes: seq<Media>, span: Window)

  datatype Action =
    | Tick(elapsed: nat)
    | SubmitRoot(mediaTypes: seq<Media>, window: Option<Window>, maxAttempts: nat)
    | SubmitOther(kind: nat, ingest: bool, maxAttempts: nat)
    | Cancel(job: nat)
    | Retry(job: nat)
    | Claim(worker: nat, job: nat, lease: nat)
    | Reap(job: nat)
    | Renew(worker: nat, lease: nat)
    | Abandon(worker: nat)
    | Exec(worker: nat, window: Option<Window>, totalPages: u32)
    | Finish(worker: nat)
    | Fail(worker: nat, terminal: bool, delay: nat)

  const COORDINATOR_ATTEMPTS: nat := 100

  // ---- the two gate reads -------------------------------------------------------------------------

  /** `catalog_completion_has_active_work` */
  predicate ActiveWork(jobs: seq<Job<Payload>>) {
    exists i :: 0 <= i < |jobs| && Active(jobs[i].status) && IsIngest(jobs[i].payload)
  }

  /** `max(created_at)` over the scan's roots, the `admin.scan` rows that carry no phase. */
  function LatestRoot(jobs: seq<Job<Payload>>): Option<nat> {
    if jobs == [] then None
    else
      var last := jobs[|jobs| - 1];
      match LatestRoot(jobs[..|jobs| - 1])
      case None => if last.payload.Start? then Some(last.createdAt) else None
      case Some(t) => if last.payload.Start? && last.createdAt > t then Some(last.createdAt) else Some(t)
  }

  lemma {:induction false} LatestRootIsMaximum(jobs: seq<Job<Payload>>, i: nat)
    requires i < |jobs| && jobs[i].payload.Start?
    requires forall k :: 0 <= k < |jobs| && jobs[k].payload.Start? ==> jobs[k].createdAt <= jobs[i].createdAt
    ensures LatestRoot(jobs) == Some(jobs[i].createdAt)
  {
    var before := jobs[..|jobs| - 1];
    if i < |jobs| - 1 {
      LatestRootIsMaximum(before, i);
    } else {
      LatestRootIsNoLater(before, jobs[i].createdAt);
    }
  }

  lemma {:induction false} LatestRootIsNoLater(jobs: seq<Job<Payload>>, bound: nat)
    requires forall k :: 0 <= k < |jobs| && jobs[k].payload.Start? ==> jobs[k].createdAt <= bound
    ensures LatestRoot(jobs).Some? ==> LatestRoot(jobs).value <= bound
  {
    if jobs != [] { LatestRootIsNoLater(jobs[..|jobs| - 1], bound); }
  }

  predicate Recovered(jobs: seq<Job<Payload>>, failed: Job<Payload>) {
    exists k :: 0 <= k < |jobs| && jobs[k].payload == failed.payload && jobs[k].key == failed.key
                && jobs[k].status.Succeeded? && jobs[k].finishedAt > failed.finishedAt
  }

  /** `catalog_completion_has_unresolved_failures`, given the creation time of the latest root */
  predicate UnresolvedFailures(jobs: seq<Job<Payload>>, root: nat) {
    exists i :: 0 <= i < |jobs| && jobs[i].status.DeadLetter? && IsIngest(jobs[i].payload)
                && jobs[i].createdAt >= root && !Recovered(jobs, jobs[i])
  }

  // ---- one step of an execution -------------------------------------------------------------------

  predicate CanExec(p: Payload, pc: Pc, window: Option<Window>) {
    match p
    case Start(mediaTypes, requested) =>
      (pc.Begin? && (window.Some? ==>
        && (requested.Some? ==> window == requested)
        && window.value.start <= window.value.end <= window.value.start + 13))
      || pc.Pages?
    case Changes(_, _, _) => pc.Begin? || pc.Fetched?
    case Completion(_, poll, _) => pc.Begin? || (pc.Waiting? && poll < 0xFFFF_FFFF) || pc.Clear? || pc.Advance?
    case Other(_, _) => pc.Begin?
  }

  function NextPage(page: u32): u32 {
    if page < 0xFFFF_FFFF then page + 1 else page
  }

  /** The jobs after one step, the execution's next position, and the watermark the step sets. */
  function ExecStep(jobs: seq<Job<Payload>>, now: nat, p: Payload, pc: Pc, window: Option<Window>, totalPages: u32)
    : (r: (seq<Job<Payload>>, Pc, seq<Advanced>))
    requires CanExec(p, pc, window)
  {
    match p
    case Start(mediaTypes, _) =>
      if pc.Begin? then
        (jobs, if window.Some? then Pages(0, window.value) else Done(0), [])
      else if pc.next < |mediaTypes| then
        (Submit(jobs, Changes(mediaTypes[pc.next], 1, pc.chosen), 3, now), Pages(pc.next + 1, pc.chosen), [])
      else
        (Submit(jobs, Completion(mediaTypes, 0, pc.chosen), COORDINATOR_ATTEMPTS, now), Done(0), [])
    case Changes(media, page, span) =>
      if pc.Begin? then (jobs, Fetched(totalPages), [])
      else
        (if pc.totalPages > page
         then Submit(jobs, Changes(media, NextPage(page), span), COORDINATOR_ATTEMPTS, now) else jobs,
         Done(pc.totalPages), [])
    case Completion(mediaTypes, poll, span) =>
      if pc.Begin? then (jobs, if ActiveWork(jobs) then Waiting else Clear(|jobs|), [])
      else if pc.Waiting? then
        (Submit(jobs, Completion(mediaTypes, poll + 1, span), COORDINATOR_ATTEMPTS, now), Done(0), [])
      else if pc.Clear? then
        var root := LatestRoot(jobs);
        (jobs, if root.None? || UnresolvedFailures(jobs, root.value) then Done(0)
               else Advance(pc.seen, root.value), [])
      else (jobs, Done(0), [Advanced(mediaTypes, span)])
    case Other(_, _) => (jobs, Done(0), [])
  }

  // ---- the transition system ----------------------------------------------------------------------

  predicate IsScan(p: Payload) {
    p.Start? || p.Completion?
  }

  /** The guard of `ops.submit_manual_catalog_scan` and `ops.submit_scheduled_catalog_scan` */
  predicate MaintenanceActive(jobs: seq<Job<Payload>>) {
    exists i :: 0 <= i < |jobs| && Active(jobs[i].status) && (IsScan(jobs[i].payload) || IsIngest(jobs[i].payload))
  }

  predicate Enabled(s: State, a: Action) {
    match a
    case Tick(_) => true
    case SubmitRoot(_, _, _) => !MaintenanceActive(s.jobs)
    case SubmitOther(_, _, _) => true
    case Cancel(j) => j < |s.jobs| && Active(s.jobs[j].status)
    case Retry(j) => j < |s.jobs| && (s.jobs[j].status.DeadLetter? || s.jobs[j].status.Cancelled?)
    case Claim(w, j, _) => w !in s.runs && j < |s.jobs| && Claimable(s.jobs[j], s.now)
    case Reap(j) => j < |s.jobs| && Reapable(s.jobs[j], s.now)
    case Renew(w, _) => w in s.runs && s.runs[w].job < |s.jobs| && Holds(s.jobs[s.runs[w].job], w, s.now)
    case Abandon(w) => w in s.runs
    case Exec(w, window, _) =>
      w in s.runs && s.runs[w].job < |s.jobs| && CanExec(s.jobs[s.runs[w].job].payload, s.runs[w].pc, window)
    case Finish(w) => w in s.runs && s.runs[w].job < |s.jobs| && s.runs[w].pc.Done?
    case Fail(w, _, _) => w in s.runs && s.runs[w].job < |s.jobs| && !s.runs[w].pc.Done?
  }

  function Apply(s: State, a: Action): State
    requires Enabled(s, a)
  {
    match a
    case Tick(elapsed) => s.(now := s.now + elapsed)
    case SubmitRoot(mediaTypes, window, max) => s.(jobs := s.jobs + [NewJob(Start(mediaTypes, window), max, s.now)])
    case SubmitOther(kind, ingest, max) => s.(jobs := Submit(s.jobs, Other(kind, ingest), max, s.now))
    case Cancel(j) => s.(jobs := s.jobs[j := CancelRequested(s.jobs[j], s.now)])
    case Retry(j) => s.(jobs := s.jobs + [RetriedJob(s.jobs[j], |s.jobs|, s.now)])
    case Claim(w, j, lease) =>
      s.(jobs := s.jobs[j := Claimed(s.jobs[j], w, s.now, lease)], runs := s.runs[w := Run(j, Begin)])
    case Reap(j) => s.(jobs := s.jobs[j := Reaped(s.jobs[j], s.now)])
    case Renew(w, lease) =>
      var j := s.runs[w].job;
      s.(jobs := s.jobs[j := Renewed(s.jobs[j], s.now, lease)])
    case Abandon(w) => s.(runs := s.runs - {w})
    case Exec(w, window, totalPages) =>
      var run := s.runs[w];
      var (jobs, pc, span) := ExecStep(s.jobs, s.now, s.jobs[run.job].payload, run.pc, window, totalPages);
      State(s.now, jobs, s.runs[w := Run(run.job, pc)], s.advanced + span)
    case Finish(w) =>
      var run := s.runs[w];
      s.(jobs := if Holds(s.jobs[run.job], w, s.now)
                 then s.jobs[run.job := Completed(s.jobs[run.job], s.now, run.pc.total)] else s.jobs,
         runs := s.runs - {w})
    case Fail(w, terminal, delay) =>
      var j := s.runs[w].job;
      s.(jobs := if Holds(s.jobs[j], w, s.now)
                 then s.jobs[j := Failed(s.jobs[j], s.now, terminal, delay)] else s.jobs,
         runs := s.runs - {w})
  }

  const INITIAL: State := State(0, [], map[], [])

  /** The state after a sequence of actions from the empty queue; `None` when one was not enabled. */
  function Execute(actions: seq<Action>): Option<State> {
    if actions == [] then Some(INITIAL)
    else
      var before := Execute(actions[..|actions| - 1]);
      var a := actions[|actions| - 1];
      if before.Some? && Enabled(before.value, a) then Some(Apply(before.value, a)) else None
  }

  ghost predicate Reachable(s: State) {
    exists actions :: Execute(actions) == Some(s)
  }

  // ---- what a finished feed is --------------------------------------------------------------------

  predicate HasPage(jobs: seq<Job<Payload>>, media: Media, page: nat, span: Window) {
    exists i :: 0 <= i < |jobs| && jobs[i].payload.Changes? && jobs[i].payload.media == media
                && jobs[i].payload.page == page && jobs[i].payload.span == span
  }

  /** Some job for this page succeeded, reporting `total` pages. */
  predicate PageSucceeded(jobs: seq<Job<Payload>>, media: Media, page: nat, span: Window, total: nat) {
    exists i :: 0 <= i < |jobs| && jobs[i].payload.Changes? && jobs[i].payload.media == media
                && jobs[i].payload.page == page && jobs[i].payload.span == span
                && jobs[i].status.Succeeded? && jobs[i].result == total
  }

  ghost predicate PageDone(jobs: seq<Job<Payload>>, media: Media, page: nat, span: Window) {
    exists total: nat :: PageSucceeded(jobs, media, page, span, total)
  }

  /** Some job for this page succeeded and reported that no page lies beyond it. */
  ghost predicate LastPage(jobs: seq<Job<Payload>>, media: Media, page: nat, span: Window) {
    exists total: nat :: PageSucceeded(jobs, media, page, span, total) && total <= page
  }

  /** Every page from 1 up to one whose reported `total_pages` is not above it has succeeded. */
  ghost predicate FeedComplete(jobs: seq<Job<Payload>>, media: Media, span: Window) {
    exists n: nat :: n >= 1 && LastPage(jobs, media, n, span)
                     && forall p: nat :: 1 <= p <= n ==> PageDone(jobs, media, p, span)
  }

  /** The first page of the feed that was submitted but never succeeded. */
  ghost predicate BlockedAt(jobs: seq<Job<Payload>>, media: Media, span: Window, page: nat) {
    && page >= 1
    && HasPage(jobs, media, page, span)
    && !PageDone(jobs, media, page, span)
    && forall q: nat :: 1 <= q < page ==> PageDone(jobs, media, q, span) && !LastPage(jobs, media, q, span)
  }

  /** Every job for the page predates the latest root, was submitted after the gate's first read, or was cancelled. */
  predicate OutOfGateSight(jobs: seq<Job<Payload>>, media: Media, page: nat, span: Window, seen: nat, root: nat) {
    forall i :: 0 <= i < |jobs| && jobs[i].payload.Changes? && jobs[i].payload.media == media
                && jobs[i].payload.page == page && jobs[i].payload.span == span
                ==> i >= seen || jobs[i].createdAt < root || jobs[i].status.Cancelled?
  }

  // ---- invariant ----------------------------------------------------------------------------------

  /** A completion job exists only once page 1 of each of its feeds was submitted. */
  ghost predicate CompletionsSeeded(jobs: seq<Job<Payload>>) {
    forall i :: 0 <= i < |jobs| && jobs[i].payload.Completion? ==>
      forall m :: m in jobs[i].payload.mediaTypes ==> HasPage(jobs, m, 1, jobs[i].payload.span)
  }

  /** A succeeded page that reported more pages has a submitted successor. */
  ghost predicate SuccessorsExist(jobs: seq<Job<Payload>>) {
    forall i :: 0 <= i < |jobs| && jobs[i].payload.Changes? && jobs[i].status.Succeeded?
                && jobs[i].result > jobs[i].payload.page ==>
      HasPage(jobs, jobs[i].payload.media, jobs[i].payload.page + 1, jobs[i].payload.span)
  }

  ghost predicate Settled(jobs: seq<Job<Payload>>, seen: nat) {
    seen <= |jobs| && forall i :: 0 <= i < seen && IsIngest(jobs[i].payload) ==> !Active(jobs[i].status)
  }

  ghost predicate Resolved(jobs: seq<Job<Payload>>, seen: nat, root: nat) {
    forall i :: (0 <= i < seen && i < |jobs| && jobs[i].status.DeadLetter? && IsIngest(jobs[i].payload)
                 && jobs[i].createdAt >= root) ==> Recovered(jobs, jobs[i])
  }

  ghost predicate RunOk(jobs: seq<Job<Payload>>, run: Run) {
    && run.job < |jobs|
    && match jobs[run.job].payload
       case Start(mediaTypes, _) =>
         run.pc.Begin? || run.pc.Done?
         || (run.pc.Pages? && run.pc.next <= |mediaTypes|
             && forall k :: 0 <= k < run.pc.next ==> HasPage(jobs, mediaTypes[k], 1, run.pc.chosen))
       case Changes(media, page, span) =>
         run.pc.Begin? || run.pc.Fetched?
         || (run.pc.Done? && (run.pc.total > page ==> HasPage(jobs, media, page + 1, span)))
       case Completion(_, _, _) =>
         run.pc.Begin? || run.pc.Waiting? || run.pc.Done?
         || (run.pc.Clear? && Settled(jobs, run.pc.seen))
         || (run.pc.Advance? && Settled(jobs, run.pc.seen) && Resolved(jobs, run.pc.seen, run.pc.root))
       case Other(_, _) => run.pc.Begin? || run.pc.Done?
  }

  ghost predicate RunsOk(jobs: seq<Job<Payload>>, runs: map<nat, Run>) {
    forall w :: w in runs ==> RunOk(jobs, runs[w])
  }

  ghost predicate Inv(s: State) {
    && CompletionsSeeded(s.jobs)
    && SuccessorsExist(s.jobs)
    && RunsOk(s.jobs, s.runs)
  }

  /** Rows are only appended, keep what they are for, and never change once terminal. */
  ghost predicate Extends(jobs: seq<Job<Payload>>, later: seq<Job<Payload>>) {
    && |jobs| <= |later|
    && forall i :: 0 <= i < |jobs| ==>
         && later[i].payload == jobs[i].payload && later[i].createdAt == jobs[i].createdAt
         && (!Active(jobs[i].status) ==> later[i] == jobs[i])
  }

  lemma RunOkExtends(jobs: seq<Job<Payload>>, later: seq<Job<Payload>>, run: Run)
    requires Extends(jobs, later) && RunOk(jobs, run)
    ensures RunOk(later, run)
  {
  }

  lemma RunsOkExtend(jobs: seq<Job<Payload>>, later: seq<Job<Payload>>, runs: map<nat, Run>)
    requires Extends(jobs, later) && RunsOk(jobs, runs)
    ensures RunsOk(later, runs)
  {
  }

  lemma AppendKeeps(jobs: seq<Job<Payload>>, job: Job<Payload>)
    requires TableInv(jobs) && job.status.Queued?
    requires job.payload.Completion? ==> forall m :: m in job.payload.mediaTypes ==>
      HasPage(jobs, m, 1, job.payload.span)
    ensures Extends(jobs, jobs + [job]) && TableInv(jobs + [job])
  {
  }

  /** Appending one job keeps the table invariants when the new job is itself seeded. */
  lemma SubmitKeeps(jobs: seq<Job<Payload>>, p: Payload, max: nat, now: nat)
    requires CompletionsSeeded(jobs) && SuccessorsExist(jobs)
    requires p.Completion? ==> forall m :: m in p.mediaTypes ==> HasPage(jobs, m, 1, p.span)
    ensures Extends(jobs, jobs + [NewJob(p, max, now)]) && Extends(jobs, Submit(jobs, p, max, now))
    ensures TableInv(jobs + [NewJob(p, max, now)]) && TableInv(Submit(jobs, p, max, now))
  {
  }

  ghost predicate TableInv(jobs: seq<Job<Payload>>) {
    CompletionsSeeded(jobs) && SuccessorsExist(jobs)
  }

  /** Changing the state of one active row keeps the table invariants; a success needs its successor. */
  lemma UpdateKeeps(jobs: seq<Job<Payload>>, j: nat, job: Job<Payload>)
    requires TableInv(jobs) && j < |jobs| && Active(jobs[j].status)
    requires job.payload == jobs[j].payload && job.createdAt == jobs[j].createdAt
    requires job.status.Succeeded? && job.payload.Changes? && job.result > job.payload.page ==>
               HasPage(jobs, job.payload.media, job.payload.page + 1, job.payload.span)
    ensures Extends(jobs, jobs[j := job]) && TableInv(jobs[j := job])
  {
  }

  lemma SubmitGivesPage(jobs: seq<Job<Payload>>, media: Media, page: u32, span: Window, max: nat, now: nat)
    ensures HasPage(Submit(jobs, Changes(media, page, span), max, now), media, page, span)
  {
    var p := Changes(media, page, span);
    var later := Submit(jobs, p, max, now);
    if HasActive(jobs, p) {
      var i :| 0 <= i < |jobs| && Active(jobs[i].status) && jobs[i].payload == p;
      assert later[i].payload == p;
    } else {
      assert later[|jobs|].payload == p;
    }
  }

  /** A step keeps the table and the run, for each kind of payload. */
  ghost predicate ExecOk(jobs: seq<Job<Payload>>, now: nat, run: Run, window: Option<Window>, totalPages: u32)
    requires run.job < |jobs| && CanExec(jobs[run.job].payload, run.pc, window)
  {
    var r := ExecStep(jobs, now, jobs[run.job].payload, run.pc, window, totalPages);
    Extends(jobs, r.0) && TableInv(r.0) && RunOk(r.0, Run(run.job, r.1))
  }

  lemma StartKeeps(jobs: seq<Job<Payload>>, now: nat, run: Run, window: Option<Window>, totalPages: u32)
    requires TableInv(jobs) && RunOk(jobs, run) && jobs[run.job].payload.Start?
    requires CanExec(jobs[run.job].payload, run.pc, window)
    ensures ExecOk(jobs, now, run, window, totalPages)
  {
    var p, pc := jobs[run.job].payload, run.pc;
    var r := ExecStep(jobs, now, p, pc, window, totalPages);
    if pc.Pages? && pc.next < |p.mediaTypes| {
      var child := Changes(p.mediaTypes[pc.next], 1, pc.chosen);
      SubmitKeeps(jobs, child, 3, now);
      SubmitGivesPage(jobs, p.mediaTypes[pc.next], 1, pc.chosen, 3, now);
      RunOkExtends(jobs, r.0, run);
    } else if pc.Pages? {
      SubmitKeeps(jobs, Completion(p.mediaTypes, 0, pc.chosen), COORDINATOR_ATTEMPTS, now);
      RunOkExtends(jobs, r.0, run);
    }
  }

  lemma ChangesKeeps(jobs: seq<Job<Payload>>, now: nat, run: Run, window: Option<Window>, totalPages: u32)
    requires TableInv(jobs) && RunOk(jobs, run) && jobs[run.job].payload.Changes?
    requires CanExec(jobs[run.job].payload, run.pc, window)
    ensures ExecOk(jobs, now, run, window, totalPages)
  {
    var p, pc := jobs[run.job].payload, run.pc;
    if pc.Fetched? && pc.totalPages > p.page {
      SubmitKeeps(jobs, Changes(p.media, NextPage(p.page), p.span), COORDINATOR_ATTEMPTS, now);
      SubmitGivesPage(jobs, p.media, NextPage(p.page), p.span, COORDINATOR_ATTEMPTS, now);
      RunOkExtends(jobs, ExecStep(jobs, now, p, pc, window, totalPages).0, run);
    }
  }

  lemma CompletionKeeps(jobs: seq<Job<Payload>>, now: nat, run: Run, window: Option<Window>, totalPages: u32)
    requires TableInv(jobs) && RunOk(jobs, run) && jobs[run.job].payload.Completion?
    requires CanExec(jobs[run.job].payload, run.pc, window)
    ensures ExecOk(jobs, now, run, window, totalPages)
  {
    var p, pc := jobs[run.job].payload, run.pc;
    var r := ExecStep(jobs, now, p, pc, window, totalPages);
    if pc.Waiting? {
      SubmitKeeps(jobs, Completion(p.mediaTypes, p.poll + 1, p.span), COORDINATOR_ATTEMPTS, now);
      RunOkExtends(jobs, r.0, run);
    } else if pc.Begin? && !ActiveWork(jobs) {
      assert Settled(jobs, |jobs|);
    } else if pc.Clear? && r.1.Advance? {
      assert Resolved(jobs, pc.seen, r.1.root);
    }
  }

  lemma ExecKeeps(jobs: seq<Job<Payload>>, now: nat, run: Run, window: Option<Window>, totalPages: u32)
    requires TableInv(jobs) && RunOk(jobs, run) && CanExec(jobs[run.job].payload, run.pc, window)
    ensures ExecOk(jobs, now, run, window, totalPages)
  {
    match jobs[run.job].payload
    case Start(_, _) => StartKeeps(jobs, now, run, window, totalPages);
    case Changes(_, _, _) => ChangesKeeps(jobs, now, run, window, totalPages);
    case Completion(_, _, _) => CompletionKeeps(jobs, now, run, window, totalPages);
    case Other(_, _) =>
  }

  lemma FinishKeeps(s: State, w: nat, job: Job<Payload>)
    requires Inv(s) && w in s.runs && Active(s.jobs[s.runs[w].job].status)
    requires job.payload == s.jobs[s.runs[w].job].payload && job.createdAt == s.jobs[s.runs[w].job].createdAt
    requires job.status.Succeeded? ==> s.runs[w].pc.Done? && job.result == s.runs[w].pc.total
    ensures Extends(s.jobs, s.jobs[s.runs[w].job := job])
    ensures Inv(s.(jobs := s.jobs[s.runs[w].job := job], runs := s.runs - {w}))
  {
  }

  lemma StepKeepsInv(s: State, a: Action)
    requires Inv(s) && Enabled(s, a)
    ensures Inv(Apply(s, a)) && Extends(s.jobs, Apply(s, a).jobs)
  {
    var t := Apply(s, a);
    match a
    case Tick(_) =>
    case SubmitRoot(mediaTypes, window, max) =>
      SubmitKeeps(s.jobs, Start(mediaTypes, window), max, s.now);
      RunsOkExtend(s.jobs, t.jobs, s.runs);
    case SubmitOther(kind, ingest, max) =>
      SubmitKeeps(s.jobs, Other(kind, ingest), max, s.now);
      RunsOkExtend(s.jobs, t.jobs, s.runs);
    case Cancel(j) =>
      UpdateKeeps(s.jobs, j, CancelRequested(s.jobs[j], s.now));
      RunsOkExtend(s.jobs, t.jobs, s.runs);
    case Retry(j) =>
      AppendKeeps(s.jobs, RetriedJob(s.jobs[j], |s.jobs|, s.now));
      RunsOkExtend(s.jobs, t.jobs, s.runs);
    case Claim(w, j, lease) =>
      UpdateKeeps(s.jobs, j, Claimed(s.jobs[j], w, s.now, lease));
      RunsOkExtend(s.jobs, t.jobs, s.runs);
      assert RunOk(t.jobs, Run(j, Begin));
    case Reap(j) =>
      UpdateKeeps(s.jobs, j, Reaped(s.jobs[j], s.now));
      RunsOkExtend(s.jobs, t.jobs, s.runs);
    case Renew(w, lease) =>
      UpdateKeeps(s.jobs, s.runs[w].job, Renewed(s.jobs[s.runs[w].job], s.now, lease));
      RunsOkExtend(s.jobs, t.jobs, s.runs);
    case Abandon(w) =>
    case Exec(w, window, totalPages) =>
      ExecKeeps(s.jobs, s.now, s.runs[w], window, totalPages);
      RunsOkExtend(s.jobs, t.jobs, s.runs);
    case Finish(w) =>
      var j := s.runs[w].job;
      if Holds(s.jobs[j], w, s.now) { FinishKeeps(s, w, Completed(s.jobs[j], s.now, s.runs[w].pc.total)); }
    case Fail(w, terminal, delay) =>
      var j := s.runs[w].job;
      if Holds(s.jobs[j], w, s.now) { FinishKeeps(s, w, Failed(s.jobs[j], s.now, terminal, delay)); }
  }

  lemma {:induction false} ReachableInv(actions: seq<Action>)
    requires Execute(actions).Some?
    ensures Inv(Execute(actions).value)
  {
    if actions == [] {
    } else {
      ReachableInv(actions[..|actions| - 1]);
      StepKeepsInv(Execute(actions[..|actions| - 1]).value, actions[|actions| - 1]);
    }
  }
}
