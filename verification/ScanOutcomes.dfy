// What the jobs of a `daily_sync` scan leave behind, in every run: why a completion ended, what a start began, what a
// page reported, and where each job came from. The history of a run is told by what its executions read.
module ScanOutcomes {
  import opened Catalog
  import opened JobQueue
  import opened ScanQuiescence
  import opened Widths

  /** What one execution of a job read or decided, told from the rows of that moment. */
  datatype Event =
    | ChoseWindow(job: nat, window: Window)
    | FoundNoWindow(job: nat)
    | FetchedPage(job: nat, total: nat)
    | FoundWork(job: nat)
    | FoundNone(job: nat)
    | MetFailure(job: nat)
    | Passed(job: nat)
    | Advances(job: nat)
    | Nothing

  predicate Ingest(p: Payload) {
    p.Changes? || (p.Other? && p.ingest)
  }

  predicate SomeIngestWork(jobs: seq<Job<Payload>>) {
    exists i :: 0 <= i < |jobs| && Ingest(jobs[i].payload)
                && (jobs[i].status.Queued? || jobs[i].status.Running? || jobs[i].status.RetryWait?)
  }

  /** The failure of row `i` is no older than any scan's root, and nothing with its payload and key succeeded later. */
  predicate Stands(jobs: seq<Job<Payload>>, i: nat)
    requires i < |jobs|
  {
    && jobs[i].status.DeadLetter? && Ingest(jobs[i].payload)
    && (forall r :: 0 <= r < |jobs| && jobs[r].payload.Start? ==> jobs[r].createdAt <= jobs[i].createdAt)
    && (forall k :: 0 <= k < |jobs| && jobs[k].payload == jobs[i].payload && jobs[k].key == jobs[i].key ==>
          !jobs[k].status.Succeeded? || jobs[k].finishedAt <= jobs[i].finishedAt)
  }

  predicate SomeFailureStands(jobs: seq<Job<Payload>>) {
    (forall r :: 0 <= r < |jobs| ==> !jobs[r].payload.Start?) || exists i :: 0 <= i < |jobs| && Stands(jobs, i)
  }

  function EventOf(s: State, a: Action): Event
    requires Enabled(s, a)
  {
    if !a.Exec? then Nothing
    else
      var job, pc := s.runs[a.worker].job, s.runs[a.worker].pc;
      match s.jobs[job].payload
      case Start(_, _) =>
        if !pc.Begin? then Nothing
        else if a.window.Some? then ChoseWindow(job, a.window.value)
        else FoundNoWindow(job)
      case Changes(_, _, _) => if pc.Begin? then FetchedPage(job, a.totalPages) else Nothing
      case Completion(_, _, _) =>
        if pc.Begin? then if SomeIngestWork(s.jobs) then FoundWork(job) else FoundNone(job)
        else if pc.Clear? then if SomeFailureStands(s.jobs) then MetFailure(job) else Passed(job)
        else if pc.Advance? then Advances(job)
        else Nothing
      case Other(_, _) => Nothing
  }

  function Events(actions: seq<Action>): seq<Event>
    requires Execute(actions).Some?
  {
    if actions == [] then []
    else
      var n := |actions| - 1;
      Events(actions[..n]) + [EventOf(Execute(actions[..n]).value, actions[n])]
  }

  // ---- what is claimed of each job ----------------------------------------------------------------

  predicate HasCompletion(jobs: seq<Job<Payload>>, mediaTypes: seq<Media>, poll: nat, span: Window) {
    exists k :: 0 <= k < |jobs| && jobs[k].payload.Completion? && jobs[k].payload.mediaTypes == mediaTypes
                && jobs[k].payload.poll == poll && jobs[k].payload.span == span
  }

  /** The completion waited and was followed, or it stood before a failure, or it moved the watermark. */
  predicate CompletionEnded(events: seq<Event>, s: State, i: nat)
    requires i < |s.jobs| && s.jobs[i].payload.Completion?
  {
    var p := s.jobs[i].payload;
    || (FoundWork(i) in events && HasCompletion(s.jobs, p.mediaTypes, p.poll + 1, p.span))
    || (FoundNone(i) in events && MetFailure(i) in events)
    || (FoundNone(i) in events && Passed(i) in events && Advances(i) in events
        && Advanced(p.mediaTypes, p.span) in s.advanced)
  }

  /** Every feed of the window has its first page, and a completion that has never waited follows. */
  predicate Began(jobs: seq<Job<Payload>>, mediaTypes: seq<Media>, window: Window) {
    HasCompletion(jobs, mediaTypes, 0, window) && forall m :: m in mediaTypes ==> HasPage(jobs, m, 1, window)
  }

  /** The start found no window to read, or began the one it chose. */
  ghost predicate StartEnded(events: seq<Event>, s: State, i: nat)
    requires i < |s.jobs| && s.jobs[i].payload.Start?
  {
    FoundNoWindow(i) in events
    || exists w :: ChoseWindow(i, w) in events && Began(s.jobs, s.jobs[i].payload.mediaTypes, w)
  }

  /** Some start of these media chose this window. */
  predicate ChosenFor(events: seq<Event>, jobs: seq<Job<Payload>>, r: nat, window: Window)
    requires r < |jobs|
  {
    jobs[r].payload.Start? && ChoseWindow(r, window) in events
  }

  /** A page that was fetched and reported more pages. */
  predicate Foretells(events: seq<Event>, jobs: seq<Job<Payload>>, r: nat, total: nat, p: Payload)
    requires r < |jobs| && p.Changes?
  {
    && jobs[r].payload.Changes? && jobs[r].payload.media == p.media && jobs[r].payload.span == p.span
    && jobs[r].payload.page + 1 == p.page <= total && FetchedPage(r, total) in events
  }

  /** Where a job comes from, and how often it may be tried. */
  ghost predicate IsCalledFor(events: seq<Event>, jobs: seq<Job<Payload>>, i: nat)
    requires i < |jobs|
  {
    var p := jobs[i].payload;
    match p
    case Changes(m, page, span) =>
      page >= 1
      && if page == 1 then
        && jobs[i].maxAttempts == 3
        && exists r :: 0 <= r < |jobs| && ChosenFor(events, jobs, r, span) && m in jobs[r].payload.mediaTypes
      else
        && jobs[i].maxAttempts == 100
        && exists r, total :: 0 <= r < |jobs| && Foretells(events, jobs, r, total, p)
    case Completion(mediaTypes, poll, span) =>
      && jobs[i].maxAttempts == 100
      && if poll == 0 then
           exists r :: 0 <= r < |jobs| && ChosenFor(events, jobs, r, span) && jobs[r].payload.mediaTypes == mediaTypes
         else
           exists r :: 0 <= r < |jobs| && jobs[r].payload == Completion(mediaTypes, poll - 1, span)
                       && FoundWork(r) in events
    case _ => true
  }

  ghost predicate RowTold(events: seq<Event>, s: State, i: nat)
    requires i < |s.jobs|
  {
    s.jobs[i].status.Succeeded? ==>
      match s.jobs[i].payload
      case Start(_, _) => StartEnded(events, s, i)
      case Changes(_, _, _) => FetchedPage(i, s.jobs[i].result) in events
      case Completion(_, _, _) => CompletionEnded(events, s, i)
      case Other(_, _) => true
  }

  ghost predicate RunTold(events: seq<Event>, s: State, run: Run)
    requires run.job < |s.jobs|
  {
    match s.jobs[run.job].payload
    case Start(_, _) =>
      (run.pc.Pages? ==> ChoseWindow(run.job, run.pc.chosen) in events)
      && (run.pc.Done? ==> StartEnded(events, s, run.job))
    case Changes(_, _, _) =>
      (run.pc.Fetched? ==> FetchedPage(run.job, run.pc.totalPages) in events)
      && (run.pc.Done? ==> FetchedPage(run.job, run.pc.total) in events)
    case Completion(_, _, _) =>
      (run.pc.Waiting? ==> FoundWork(run.job) in events)
      && (run.pc.Clear? ==> FoundNone(run.job) in events)
      && (run.pc.Advance? ==> FoundNone(run.job) in events && Passed(run.job) in events)
      && (run.pc.Done? ==> CompletionEnded(events, s, run.job))
    case Other(_, _) => true
  }

  /** A completion of these media and this span found no work, passed the second read and advanced. */
  predicate Earned(events: seq<Event>, jobs: seq<Job<Payload>>, x: Advanced) {
    exists i: nat :: i < |jobs| && jobs[i].payload.Completion? && jobs[i].payload.mediaTypes == x.mediaTypes
                     && jobs[i].payload.span == x.span
                     && FoundNone(i) in events && Passed(i) in events && Advances(i) in events
  }

  ghost predicate Told(events: seq<Event>, s: State) {
    && (forall i :: 0 <= i < |s.jobs| ==> RowTold(events, s, i) && IsCalledFor(events, s.jobs, i))
    && (forall w :: w in s.runs ==> s.runs[w].job < |s.jobs| && RunTold(events, s, s.runs[w]))
    && (forall x :: x in s.advanced ==> Earned(events, s.jobs, x))
  }

  // ---- what was told stays true -------------------------------------------------------------------

  ghost predicate Later(events: seq<Event>, s: State, more: seq<Event>, t: State) {
    && (forall e :: e in events ==> e in more) && Extends(s.jobs, t.jobs)
    && (forall x :: x in s.advanced ==> x in t.advanced)
    && forall i :: 0 <= i < |s.jobs| ==> t.jobs[i].maxAttempts == s.jobs[i].maxAttempts
  }

  lemma PageStays(jobs: seq<Job<Payload>>, later: seq<Job<Payload>>, m: Media, page: nat, span: Window)
    requires Extends(jobs, later) && HasPage(jobs, m, page, span)
    ensures HasPage(later, m, page, span)
  {
    var i :| 0 <= i < |jobs| && jobs[i].payload.Changes? && jobs[i].payload.media == m
             && jobs[i].payload.page == page && jobs[i].payload.span == span;
    assert later[i].payload == jobs[i].payload;
  }

  lemma CompletionStays(jobs: seq<Job<Payload>>, later: seq<Job<Payload>>, ms: seq<Media>, poll: nat, span: Window)
    requires Extends(jobs, later) && HasCompletion(jobs, ms, poll, span)
    ensures HasCompletion(later, ms, poll, span)
  {
    var k :| 0 <= k < |jobs| && jobs[k].payload.Completion? && jobs[k].payload.mediaTypes == ms
             && jobs[k].payload.poll == poll && jobs[k].payload.span == span;
    assert later[k].payload == jobs[k].payload;
  }

  lemma CompletionStaysEnded(events: seq<Event>, s: State, more: seq<Event>, t: State, i: nat)
    requires Later(events, s, more, t)
    requires i < |s.jobs| && s.jobs[i].payload.Completion? && CompletionEnded(events, s, i)
    ensures CompletionEnded(more, t, i)
  {
    var p := s.jobs[i].payload;
    if HasCompletion(s.jobs, p.mediaTypes, p.poll + 1, p.span) {
      CompletionStays(s.jobs, t.jobs, p.mediaTypes, p.poll + 1, p.span);
    }
  }

  lemma StartStaysEnded(events: seq<Event>, s: State, more: seq<Event>, t: State, i: nat)
    requires Later(events, s, more, t) && i < |s.jobs| && s.jobs[i].payload.Start? && StartEnded(events, s, i)
    ensures StartEnded(more, t, i)
  {
    if FoundNoWindow(i) !in events {
      var ms := s.jobs[i].payload.mediaTypes;
      var w :| ChoseWindow(i, w) in events && Began(s.jobs, ms, w);
      CompletionStays(s.jobs, t.jobs, ms, 0, w);
      forall m | m in ms ensures HasPage(t.jobs, m, 1, w) { PageStays(s.jobs, t.jobs, m, 1, w); }
      assert Began(t.jobs, ms, w);
    }
  }

  lemma CallStays(events: seq<Event>, s: State, more: seq<Event>, t: State, i: nat)
    requires Later(events, s, more, t) && i < |s.jobs| && IsCalledFor(events, s.jobs, i)
    ensures IsCalledFor(more, t.jobs, i)
  {
    var p := s.jobs[i].payload;
    assert t.jobs[i].payload == p && t.jobs[i].maxAttempts == s.jobs[i].maxAttempts;
    match p
    case Changes(m, page, span) =>
      if page == 1 {
        var r :| 0 <= r < |s.jobs| && ChosenFor(events, s.jobs, r, span) && m in s.jobs[r].payload.mediaTypes;
        assert ChosenFor(more, t.jobs, r, span);
      } else {
        var r, total :| 0 <= r < |s.jobs| && Foretells(events, s.jobs, r, total, p);
        assert Foretells(more, t.jobs, r, total, p);
      }
    case Completion(ms, poll, span) =>
      if poll == 0 {
        var r :| 0 <= r < |s.jobs| && ChosenFor(events, s.jobs, r, span) && s.jobs[r].payload.mediaTypes == ms;
        assert ChosenFor(more, t.jobs, r, span);
      } else {
        var r :| 0 <= r < |s.jobs| && s.jobs[r].payload == Completion(ms, poll - 1, span) && FoundWork(r) in events;
        assert t.jobs[r].payload == s.jobs[r].payload;
      }
    case _ =>
  }

  lemma RunStaysTold(events: seq<Event>, s: State, more: seq<Event>, t: State, run: Run)
    requires Later(events, s, more, t) && run.job < |s.jobs| && RunTold(events, s, run)
    ensures RunTold(more, t, run)
  {
    hide StartEnded, CompletionEnded;
    match s.jobs[run.job].payload
    case Start(_, _) => if run.pc.Done? { StartStaysEnded(events, s, more, t, run.job); }
    case Completion(_, _, _) => if run.pc.Done? { CompletionStaysEnded(events, s, more, t, run.job); }
    case _ =>
  }

  /** A row that was terminal, or that a step leaves short of success. */
  lemma RowStaysTold(events: seq<Event>, s: State, more: seq<Event>, t: State, i: nat)
    requires Later(events, s, more, t) && i < |s.jobs| && RowTold(events, s, i)
    requires t.jobs[i].status.Succeeded? ==> s.jobs[i].status.Succeeded?
    ensures RowTold(more, t, i)
  {
    hide StartEnded, CompletionEnded;
    if s.jobs[i].status.Succeeded? {
      assert t.jobs[i] == s.jobs[i];
      match s.jobs[i].payload
      case Start(_, _) => StartStaysEnded(events, s, more, t, i);
      case Completion(_, _, _) => CompletionStaysEnded(events, s, more, t, i);
      case _ =>
    }
  }

  lemma EarnedStays(events: seq<Event>, s: State, more: seq<Event>, t: State, x: Advanced)
    requires Later(events, s, more, t) && Earned(events, s.jobs, x)
    ensures Earned(more, t.jobs, x)
  {
    var i: nat :| i < |s.jobs| && s.jobs[i].payload.Completion? && s.jobs[i].payload.mediaTypes == x.mediaTypes
                  && s.jobs[i].payload.span == x.span
                  && FoundNone(i) in events && Passed(i) in events && Advances(i) in events;
    assert t.jobs[i].payload == s.jobs[i].payload;
  }

  // ---- the gate reads, in terms of the rows -------------------------------------------------------

  lemma {:induction false} RootIsNewest(jobs: seq<Job<Payload>>)
    ensures LatestRoot(jobs).None? <==> forall r :: 0 <= r < |jobs| ==> !jobs[r].payload.Start?
    ensures LatestRoot(jobs).Some? ==>
              && (exists r :: 0 <= r < |jobs| && jobs[r].payload.Start? && jobs[r].createdAt == LatestRoot(jobs).value)
              && forall r :: 0 <= r < |jobs| && jobs[r].payload.Start? ==> jobs[r].createdAt <= LatestRoot(jobs).value
  {
    if jobs != [] {
      var before := jobs[..|jobs| - 1];
      RootIsNewest(before);
      assert forall r :: 0 <= r < |before| ==> before[r] == jobs[r];
    }
  }

  lemma SecondReadSees(jobs: seq<Job<Payload>>)
    ensures SomeFailureStands(jobs) <==>
            LatestRoot(jobs).None? || UnresolvedFailures(jobs, LatestRoot(jobs).value)
  {
    RootIsNewest(jobs);
    hide LatestRoot;
    if LatestRoot(jobs).Some? {
      var root := LatestRoot(jobs).value;
      forall i | 0 <= i < |jobs|
        ensures Stands(jobs, i) <==> jobs[i].status.DeadLetter? && IsIngest(jobs[i].payload)
                                     && jobs[i].createdAt >= root && !Recovered(jobs, jobs[i])
      {
      }
    }
  }

  // ---- every step ---------------------------------------------------------------------------------

  /** A row that a step appends, or leaves as it was but for its state. */
  ghost predicate SameRows(s: State, t: State) {
    && |s.jobs| <= |t.jobs| <= |s.jobs| + 1
    && forall i :: 0 <= i < |s.jobs| ==>
         t.jobs[i].maxAttempts == s.jobs[i].maxAttempts && t.jobs[i].payload == s.jobs[i].payload
  }

  lemma ExecRows(s: State, a: Action)
    requires Inv(s) && Enabled(s, a) && a.Exec?
    ensures SameRows(s, Apply(s, a)) && forall i :: 0 <= i < |s.jobs| ==> Apply(s, a).jobs[i] == s.jobs[i]
    ensures forall x :: x in s.advanced ==> x in Apply(s, a).advanced
  {
  }

  lemma StepRows(s: State, a: Action)
    requires Inv(s) && Enabled(s, a)
    ensures SameRows(s, Apply(s, a))
    ensures forall x :: x in s.advanced ==> x in Apply(s, a).advanced
  {
    if a.Exec? { ExecRows(s, a); }
    hide ExecStep, CanExec, Inv, HasActive;
  }

  lemma StepIsLater(events: seq<Event>, s: State, a: Action)
    requires Inv(s) && Enabled(s, a)
    ensures Later(events, s, events + [EventOf(s, a)], Apply(s, a))
  {
    StepKeepsInv(s, a);
    StepRows(s, a);
    hide Inv, Enabled, Apply, EventOf, Extends;
  }

  lemma SubmitGivesCompletion(jobs: seq<Job<Payload>>, mediaTypes: seq<Media>, poll: u32, span: Window, now: nat)
    ensures HasCompletion(Submit(jobs, Completion(mediaTypes, poll, span), COORDINATOR_ATTEMPTS, now),
                          mediaTypes, poll, span)
  {
    var p := Completion(mediaTypes, poll, span);
    var later := Submit(jobs, p, COORDINATOR_ATTEMPTS, now);
    if HasActive(jobs, p) {
      var i :| 0 <= i < |jobs| && Active(jobs[i].status) && jobs[i].payload == p;
      assert later[i].payload == p;
    } else {
      assert later[|jobs|].payload == p;
    }
  }

  /** What a step of an execution owes: the story of its run, and of the row it may have appended. */
  ghost predicate ExecTold(events: seq<Event>, s: State, a: Action)
    requires Inv(s) && Enabled(s, a) && a.Exec?
  {
    var more, t := events + [EventOf(s, a)], Apply(s, a);
    && s.runs[a.worker].job < |t.jobs| && RunTold(more, t, t.runs[a.worker])
    && (|t.jobs| > |s.jobs| ==>
          IsCalledFor(more, t.jobs, |s.jobs|) && t.jobs[|s.jobs|].status.Queued?)
    && (t.advanced == s.advanced
        || (|t.advanced| == |s.advanced| + 1 && Earned(more, t.jobs, t.advanced[|s.advanced|])))
  }

  lemma StartTold(events: seq<Event>, s: State, a: Action)
    requires Inv(s) && Told(events, s) && Enabled(s, a) && a.Exec? && s.jobs[s.runs[a.worker].job].payload.Start?
    ensures ExecTold(events, s, a)
  {
    var more, t, run := events + [EventOf(s, a)], Apply(s, a), s.runs[a.worker];
    var ms := s.jobs[run.job].payload.mediaTypes;
    assert RunTold(events, s, run) && RunOk(s.jobs, run);
    if run.pc.Begin? {
      assert EventOf(s, a) in more;
    } else {
      assert ChosenFor(more, t.jobs, run.job, run.pc.chosen);
      if run.pc.next == |ms| {
        SubmitGivesCompletion(s.jobs, ms, 0, run.pc.chosen, s.now);
        StepKeepsInv(s, a);
        forall m | m in ms ensures HasPage(t.jobs, m, 1, run.pc.chosen) {
          var k :| 0 <= k < |ms| && ms[k] == m;
          PageStays(s.jobs, t.jobs, ms[k], 1, run.pc.chosen);
        }
        assert Began(t.jobs, ms, run.pc.chosen);
      }
    }
  }

  lemma ChangesTold(events: seq<Event>, s: State, a: Action)
    requires Inv(s) && Told(events, s) && Enabled(s, a) && a.Exec? && s.jobs[s.runs[a.worker].job].payload.Changes?
    ensures ExecTold(events, s, a)
  {
    var more, t, run := events + [EventOf(s, a)], Apply(s, a), s.runs[a.worker];
    var p := s.jobs[run.job].payload;
    assert RunTold(events, s, run) && IsCalledFor(events, s.jobs, run.job);
    if run.pc.Begin? {
      assert EventOf(s, a) in more;
    } else if run.pc.totalPages > p.page {
      var next := Changes(p.media, p.page + 1, p.span);
      assert Foretells(more, t.jobs, run.job, run.pc.totalPages, next);
    }
  }

  lemma CompletionTold(events: seq<Event>, s: State, a: Action)
    requires Inv(s) && Told(events, s) && Enabled(s, a) && a.Exec?
    requires s.jobs[s.runs[a.worker].job].payload.Completion?
    ensures ExecTold(events, s, a)
  {
    var more, t, run := events + [EventOf(s, a)], Apply(s, a), s.runs[a.worker];
    var p := s.jobs[run.job].payload;
    assert RunTold(events, s, run);
    assert EventOf(s, a) in more;
    if run.pc.Begin? {
    } else if run.pc.Waiting? {
      SubmitGivesCompletion(s.jobs, p.mediaTypes, p.poll + 1, p.span, s.now);
      assert t.jobs[run.job].payload == p && FoundWork(run.job) in more;
    } else if run.pc.Clear? {
      SecondReadSees(s.jobs);
    } else {
      assert Earned(more, t.jobs, Advanced(p.mediaTypes, p.span));
    }
  }

  lemma ExecIsTold(events: seq<Event>, s: State, a: Action)
    requires Inv(s) && Told(events, s) && Enabled(s, a) && a.Exec?
    ensures ExecTold(events, s, a)
  {
    match s.jobs[s.runs[a.worker].job].payload
    case Start(_, _) => StartTold(events, s, a);
    case Changes(_, _, _) => ChangesTold(events, s, a);
    case Completion(_, _, _) => CompletionTold(events, s, a);
    case Other(_, _) =>
  }

  /** An operator's retry is called for as the job that it repeats. */
  lemma RetryIsCalledFor(events: seq<Event>, jobs: seq<Job<Payload>>, i: nat, k: nat)
    requires i < |jobs| && k < |jobs| && jobs[k].payload == jobs[i].payload
    requires jobs[k].maxAttempts == jobs[i].maxAttempts && IsCalledFor(events, jobs, i)
    ensures IsCalledFor(events, jobs, k)
  {
  }

  /** The row that a step appends is new work, and called for. */
  lemma NewRowIsCalledFor(events: seq<Event>, s: State, a: Action)
    requires Inv(s) && Told(events, s) && Enabled(s, a) && |Apply(s, a).jobs| > |s.jobs|
    ensures IsCalledFor(events + [EventOf(s, a)], Apply(s, a).jobs, |s.jobs|)
    ensures Apply(s, a).jobs[|s.jobs|].status.Queued?
  {
    if a.Exec? {
      ExecIsTold(events, s, a);
    } else if a.Retry? {
      var more, t := events + [EventOf(s, a)], Apply(s, a);
      StepIsLater(events, s, a);
      CallStays(events, s, more, t, a.job);
      RetryIsCalledFor(more, t.jobs, a.job, |s.jobs|);
    }
  }

  /** A job succeeds only by the end of an execution, under the result of that execution. */
  lemma SuccessIsFinish(s: State, a: Action, i: nat)
    requires Inv(s) && Enabled(s, a) && i < |s.jobs| && i < |Apply(s, a).jobs|
    requires Apply(s, a).jobs[i].status.Succeeded? && !s.jobs[i].status.Succeeded?
    ensures a.Finish? && s.runs[a.worker].job == i && s.runs[a.worker].pc.Done?
    ensures Apply(s, a).jobs[i].result == s.runs[a.worker].pc.total
  {
    if a.Exec? { ExecRows(s, a); }
    hide ExecStep, CanExec, Inv, HasActive;
  }

  lemma FinishIsTold(events: seq<Event>, s: State, a: Action, i: nat)
    requires Inv(s) && Told(events, s) && Enabled(s, a) && i < |s.jobs| && i < |Apply(s, a).jobs|
    requires Apply(s, a).jobs[i].status.Succeeded? && !s.jobs[i].status.Succeeded?
    ensures RowTold(events + [EventOf(s, a)], Apply(s, a), i)
  {
    var more, t := events + [EventOf(s, a)], Apply(s, a);
    SuccessIsFinish(s, a, i);
    StepIsLater(events, s, a);
    assert RunTold(events, s, s.runs[a.worker]);
    hide Apply, Enabled, Inv, StartEnded, CompletionEnded;
    RunStaysTold(events, s, more, t, s.runs[a.worker]);
  }

  lemma RowsTold(events: seq<Event>, s: State, a: Action)
    requires Inv(s) && Told(events, s) && Enabled(s, a)
    ensures var more, t := events + [EventOf(s, a)], Apply(s, a);
            forall i :: 0 <= i < |t.jobs| ==> RowTold(more, t, i) && IsCalledFor(more, t.jobs, i)
  {
    var more, t := events + [EventOf(s, a)], Apply(s, a);
    StepIsLater(events, s, a);
    StepRows(s, a);
    if |t.jobs| > |s.jobs| { NewRowIsCalledFor(events, s, a); }
    hide Apply, Enabled, Inv, EventOf, Later, IsCalledFor;
    forall i | 0 <= i < |t.jobs| ensures RowTold(more, t, i) && IsCalledFor(more, t.jobs, i) {
      if i < |s.jobs| {
        CallStays(events, s, more, t, i);
        if t.jobs[i].status.Succeeded? && !s.jobs[i].status.Succeeded? {
          FinishIsTold(events, s, a, i);
        } else {
          RowStaysTold(events, s, more, t, i);
        }
      }
    }
  }

  /** The runs after a step: those before it, one that begins, or one that was moved by an execution. */
  lemma RunsAfter(s: State, a: Action, w: nat)
    requires Inv(s) && Enabled(s, a) && w in Apply(s, a).runs
    ensures var t := Apply(s, a);
            || (w in s.runs && t.runs[w] == s.runs[w])
            || (t.runs[w].job < |s.jobs| && t.runs[w].pc.Begin?)
            || (a.Exec? && w == a.worker)
  {
    hide ExecStep, CanExec, HasActive;
  }

  lemma RunsTold(events: seq<Event>, s: State, a: Action)
    requires Inv(s) && Told(events, s) && Enabled(s, a)
    ensures var more, t := events + [EventOf(s, a)], Apply(s, a);
            forall w :: w in t.runs ==> t.runs[w].job < |t.jobs| && RunTold(more, t, t.runs[w])
  {
    var more, t := events + [EventOf(s, a)], Apply(s, a);
    StepIsLater(events, s, a);
    StepRows(s, a);
    if a.Exec? { ExecIsTold(events, s, a); }
    hide Apply, Enabled, Inv, EventOf, Later, IsCalledFor, StartEnded, CompletionEnded;
    forall w | w in t.runs ensures t.runs[w].job < |t.jobs| && RunTold(more, t, t.runs[w]) {
      RunsAfter(s, a, w);
      if w in s.runs && t.runs[w] == s.runs[w] { RunStaysTold(events, s, more, t, s.runs[w]); }
    }
  }

  lemma AdvancesTold(events: seq<Event>, s: State, a: Action)
    requires Inv(s) && Told(events, s) && Enabled(s, a)
    ensures var more, t := events + [EventOf(s, a)], Apply(s, a);
            forall x :: x in t.advanced ==> Earned(more, t.jobs, x)
  {
    var more, t := events + [EventOf(s, a)], Apply(s, a);
    StepIsLater(events, s, a);
    if a.Exec? { ExecIsTold(events, s, a); }
    forall x | x in t.advanced ensures Earned(more, t.jobs, x) {
      hide Earned, EventOf, Later;
      AdvancedGrows(s, a);
      hide Apply, Enabled, Inv;
      if x in s.advanced { EarnedStays(events, s, more, t, x); }
    }
  }

  lemma AdvancedGrows(s: State, a: Action)
    requires Enabled(s, a)
    ensures var t := Apply(s, a);
            t.advanced == s.advanced || (a.Exec? && |t.advanced| == |s.advanced| + 1
                                         && t.advanced == s.advanced + [t.advanced[|s.advanced|]])
  {
    hide CanExec;
  }

  lemma {:induction false} RunIsTold(actions: seq<Action>)
    requires Execute(actions).Some?
    ensures Told(Events(actions), Execute(actions).value)
  {
    if actions != [] {
      var n := |actions| - 1;
      var s := Execute(actions[..n]).value;
      RunIsTold(actions[..n]);
      ReachableInv(actions[..n]);
      hide Apply, Enabled, EventOf, RowTold, RunTold, IsCalledFor, Earned;
      RowsTold(Events(actions[..n]), s, actions[n]);
      RunsTold(Events(actions[..n]), s, actions[n]);
      AdvancesTold(Events(actions[..n]), s, actions[n]);
    }
  }

  // ---- the whole story ----------------------------------------------------------------------------

  /**
   * In every run, a completion that succeeded found active ingest work at its first read and was followed by one with
   * the next poll; or it found none and met a standing failure, or no root, at its second; or it found neither, and
   * moved the watermark of its own feeds.
   */
  lemma CompletionsEnd(actions: seq<Action>, s: State, i: nat)
    requires Execute(actions) == Some(s)
    requires i < |s.jobs| && s.jobs[i].payload.Completion? && s.jobs[i].status.Succeeded?
    ensures CompletionEnded(Events(actions), s, i)
  {
    RunIsTold(actions);
    assert RowTold(Events(actions), s, i);
  }

  /** A completion that waits leaves one of the same feeds active, with its poll one higher. */
  lemma WaitLeavesNextPoll(s: State, a: Action)
    requires Reachable(s) && Enabled(s, a) && a.Exec?
    requires s.jobs[s.runs[a.worker].job].payload.Completion? && s.runs[a.worker].pc.Waiting?
    ensures var t, p := Apply(s, a), s.jobs[s.runs[a.worker].job].payload;
            exists k :: 0 <= k < |t.jobs| && Active(t.jobs[k].status) && t.jobs[k].payload.Completion?
                        && t.jobs[k].payload.mediaTypes == p.mediaTypes && t.jobs[k].payload.span == p.span
                        && t.jobs[k].payload.poll == p.poll + 1
  {
    var actions :| Execute(actions) == Some(s);
    ReachableInv(actions);
    assert RunOk(s.jobs, s.runs[a.worker]);
    hide Execute, RunOk;
    var t, p := Apply(s, a), s.jobs[s.runs[a.worker].job].payload;
    var next := Completion(p.mediaTypes, p.poll + 1, p.span);
    if HasActive(s.jobs, next) {
      var k :| 0 <= k < |s.jobs| && Active(s.jobs[k].status) && s.jobs[k].payload == next;
      assert t.jobs[k].payload == next;
    } else {
      assert t.jobs[|s.jobs|].payload == next;
    }
  }

  /** In every run, a start that succeeded chose no window, or began every feed of its window and a completion. */
  lemma StartsBegin(actions: seq<Action>, s: State, i: nat)
    requires Execute(actions) == Some(s)
    requires i < |s.jobs| && s.jobs[i].payload.Start? && s.jobs[i].status.Succeeded?
    ensures StartEnded(Events(actions), s, i)
  {
    RunIsTold(actions);
    assert RowTold(Events(actions), s, i);
  }

  /** In every run, the page count that a page's success records is one that an execution of it fetched. */
  lemma PagesReportWhatTheyFetched(actions: seq<Action>, s: State, i: nat)
    requires Execute(actions) == Some(s)
    requires i < |s.jobs| && s.jobs[i].payload.Changes? && s.jobs[i].status.Succeeded?
    ensures FetchedPage(i, s.jobs[i].result) in Events(actions)
  {
    RunIsTold(actions);
    assert RowTold(Events(actions), s, i);
  }

  /**
   * In every run, each page and completion is called for: a first page and an unwaited completion by a start that
   * chose their window, a later page by the page before it, which reported it, and a later poll by the one before it,
   * which found work.
   */
  lemma JobsAreCalledFor(actions: seq<Action>, s: State, i: nat)
    requires Execute(actions) == Some(s) && i < |s.jobs|
    ensures IsCalledFor(Events(actions), s.jobs, i)
  {
    RunIsTold(actions);
  }

  /** In every run, the watermark moves only for a completion that found no work and then no standing failure. */
  lemma AdvancesAreEarned(actions: seq<Action>, s: State, i: nat)
    requires Execute(actions) == Some(s) && i < |s.advanced|
    ensures Earned(Events(actions), s.jobs, s.advanced[i])
  {
    RunIsTold(actions);
    assert s.advanced[i] in s.advanced;
  }
}
