// The watermark of the daily scans over any run of starts and completions: where the next window begins, and when a day
// is skipped. A window reads its days from the first up to, but not surely all of, the last.
module SyncWindows {
  import opened Catalog
  import opened CoordinatorWork
  import opened JobQueue
  import Keyset = KeysetScan
  import opened ScanCoordinator
  import opened Widths

  datatype Window = Window(from: int, to: int)

  /**
   * The `daily_sync` row of `ops.catalog_sync_state`, and the windows whose completions were submitted. The rest is
   * history: the windows for which the watermark moved, and the day up to which the catalog was complete without them.
   */
  datatype State = State(last: Option<int>, sweepRequired: bool, open: seq<Window>, read: seq<Window>,
                         floor: Option<int>)

  datatype Action = Begin(j: ScanJob, w: World) | Complete(j: ScanJob, w: World)

  /** The window of the completion that a start submits last. */
  ghost function WindowIn(children: seq<Child>): Option<Window> {
    if children == [] || !children[|children| - 1].Scan? then None
    else
      match ParseScan(children[|children| - 1].payload)
      case Parsed(job) =>
        if job.windowStart.Some? && job.windowEnd.Some? then Some(Window(job.windowStart.value, job.windowEnd.value))
        else None
      case Refused(_) => None
  }

  function WindowOf(j: ScanJob): Window
    requires j.windowStart.Some? && j.windowEnd.Some?
  {
    Window(j.windowStart.value, j.windowEnd.value)
  }

  ghost predicate Enabled(s: State, a: Action) {
    && ValidScan(a.j) && Answers(a.w, a.j)
    && match a
       case Begin(j, w) =>
         j.phase.Start? && j.mode.DailySync? && w.lastWindowEnd == s.last && w.sweepRequired == s.sweepRequired
       case Complete(j, w) =>
         j.phase.Completion? && (j.mode.DailySync? ==> j.windowStart.Some? && WindowOf(j) in s.open)
  }

  function Later(last: Option<int>, day: int): int {
    if last.Some? && last.value > day then last.value else day
  }

  /** `ops.complete_catalog_sync`, on the row of the daily scans. */
  function CompleteSync(s: State, mode: Mode, day: int): State {
    match mode
    case DailySync => s.(last := Some(Later(s.last, day)), sweepRequired := false)
    case FullSweep => s.(last := Some(day), sweepRequired := false, floor := Some(day))
    case _ => s
  }

  ghost function Apply(s: State, a: Action): State
    requires Enabled(s, a)
  {
    match a
    case Begin(j, w) =>
      var window := WindowIn(Step(j, w).children);
      if window.Some? then s.(open := s.open + [window.value]) else s.(sweepRequired := true)
    case Complete(j, w) =>
      var r := Step(j, w);
      if r.DeadLettered? || !r.advances then s
      else
        var t := CompleteSync(s, j.mode, if j.windowEnd.Some? then j.windowEnd.value else w.today);
        if j.mode.DailySync? then t.(read := s.read + [WindowOf(j)]) else t
  }

  /** The migration asks for a full sweep when it has no day to start from. */
  predicate Init(s: State) {
    s.open == [] && s.read == [] && s.floor == s.last && (s.last.None? ==> s.sweepRequired)
  }

  /** The state after a sequence of actions; `None` when one was not enabled. */
  ghost function Execute(s: State, actions: seq<Action>): Option<State> {
    if actions == [] then Some(s)
    else
      var before, a := Execute(s, actions[..|actions| - 1]), actions[|actions| - 1];
      if before.Some? && Enabled(before.value, a) then Some(Apply(before.value, a)) else None
  }

  // ---- what each step does ------------------------------------------------------------------------

  /** A start opens its window when it may read it, and otherwise asks for a full sweep. */
  lemma BeginOpens(s: State, a: Action, window: Window)
    requires Enabled(s, a) && a.Begin? && IsWindow(a.j, a.w, window.from, window.to)
    ensures Apply(s, a) == if MayRead(a.w, window.from, window.to) then s.(open := s.open + [window])
                           else s.(sweepRequired := true)
  {
    DailyScanReadsItsWindow(a.j, a.w, window.from, window.to);
    hide Step, ParseScan, ParseChanges, IsWindow, MayRead;
  }

  lemma BeginWithoutAStart(s: State, a: Action)
    requires Enabled(s, a) && a.Begin? && a.j.windowStart.None? && s.last.None?
    ensures Apply(s, a) == s.(sweepRequired := true)
  {
    DailyScanNeedsAStart(a.j, a.w);
  }

  /** A completion that moves the watermark of the daily scans. */
  ghost predicate Advances(s: State, a: Action)
    requires Enabled(s, a)
  {
    a.Complete? && a.j.mode.DailySync? && !a.w.active && !a.w.failures
  }

  lemma CompletionMoves(s: State, a: Action)
    requires Enabled(s, a) && a.Complete? && a.j.mode.DailySync?
    ensures Apply(s, a) == if Advances(s, a) then
                             s.(last := Some(Later(s.last, a.j.windowEnd.value)), sweepRequired := false,
                                read := s.read + [WindowOf(a.j)])
                           else s
  {
    if a.w.active { BusyPhaseWaits(a.j, a.w); } else { QuietCompletionEnds(a.j, a.w); }
    hide Step, ParseScan;
  }

  /**
   * Successive scans meet: after the watermark moved with a window that reached past it, a start that asks for no
   * window of its own reads from the end of that one.
   */
  lemma NextWindowStartsAtTheLastEnd(s: State, a: Action, b: Action)
    requires Enabled(s, a) && Advances(s, a) && (s.last.Some? ==> s.last.value <= a.j.windowEnd.value)
    requires Enabled(Apply(s, a), b) && b.Begin? && b.j.windowStart.None? && b.j.windowEnd.None?
    requires a.j.windowEnd.value <= b.w.today <= a.j.windowEnd.value + 13
    ensures Apply(Apply(s, a), b).open == s.open + [Window(a.j.windowEnd.value, b.w.today)]
  {
    CompletionMoves(s, a);
    BeginOpens(Apply(s, a), b, Window(a.j.windowEnd.value, b.w.today));
    hide Apply;
  }

  // ---- which days are skipped ---------------------------------------------------------------------

  predicate Covered(read: seq<Window>, d: int) {
    exists i :: 0 <= i < |read| && read[i].from <= d < read[i].to
  }

  /** The watermark has passed the day, and no window read it to its end. */
  predicate Skipped(s: State, d: int) {
    s.floor.Some? && s.last.Some? && s.floor.value <= d < s.last.value && !Covered(s.read, d)
  }

  ghost predicate NoneSkipped(s: State) {
    forall d: int :: !Skipped(s, d)
  }

  ghost predicate StateOk(s: State) {
    && (s.last.Some? <==> s.floor.Some?) && (s.last.Some? ==> s.floor.value <= s.last.value)
    && (s.last.None? ==> s.sweepRequired && s.open == [])
  }

  lemma BeginStaysOk(s: State, a: Action)
    requires StateOk(s) && Enabled(s, a) && a.Begin?
    ensures StateOk(Apply(s, a)) && Apply(s, a).(open := s.open, sweepRequired := s.sweepRequired) == s
    ensures forall x :: x in Apply(s, a).open && x !in s.open ==>
              IsWindow(a.j, a.w, x.from, x.to) && MayRead(a.w, x.from, x.to)
  {
    var to := if a.j.windowEnd.Some? then a.j.windowEnd.value else a.w.today;
    if a.j.windowStart.Some? {
      BeginOpens(s, a, Window(a.j.windowStart.value, to));
    } else if s.last.Some? {
      BeginOpens(s, a, Window(s.last.value, to));
    } else {
      BeginWithoutAStart(s, a);
    }
    hide Apply, Enabled;
  }

  /** A full sweep that completes vouches for every day before its own. */
  lemma OthersComplete(s: State, a: Action)
    requires Enabled(s, a) && a.Complete? && !a.j.mode.DailySync?
    ensures var day := if a.j.windowEnd.Some? then a.j.windowEnd.value else a.w.today;
            Apply(s, a) == if a.j.mode.FullSweep? && !a.w.active && !a.w.failures then
                             s.(last := Some(day), sweepRequired := false, floor := Some(day))
                           else s
  {
    if a.w.active { BusyPhaseWaits(a.j, a.w); } else { QuietCompletionEnds(a.j, a.w); }
    hide Step, ParseScan;
  }

  lemma CompleteStaysOk(s: State, a: Action)
    requires StateOk(s) && Enabled(s, a) && a.Complete?
    ensures StateOk(Apply(s, a))
  {
    if a.j.mode.DailySync? { CompletionMoves(s, a); } else { OthersComplete(s, a); }
    hide Apply, Answers;
  }

  lemma {:induction false} RunStaysOk(s0: State, actions: seq<Action>)
    requires Init(s0) && Execute(s0, actions).Some?
    ensures StateOk(Execute(s0, actions).value)
  {
    if actions != [] {
      var n := |actions| - 1;
      RunStaysOk(s0, actions[..n]);
      hide Apply, Enabled, StateOk;
      var s := Execute(s0, actions[..n]).value;
      if actions[n].Begin? { BeginStaysOk(s, actions[n]); } else { CompleteStaysOk(s, actions[n]); }
    }
  }

  lemma CoverMore(read: seq<Window>, x: Window, d: int)
    ensures Covered(read + [x], d) <==> Covered(read, d) || x.from <= d < x.to
  {
    if Covered(read, d) {
      var i :| 0 <= i < |read| && read[i].from <= d < read[i].to;
      assert (read + [x])[i] == read[i];
    }
    if x.from <= d < x.to { assert (read + [x])[|read|] == x; }
  }

  /**
   * When the watermark moves, no day has been skipped so far exactly when every day between the watermark and the
   * window's first is in an earlier window: a window that begins at the watermark or before it skips nothing.
   */
  lemma AdvanceSkipsIff(s0: State, actions: seq<Action>, s: State, a: Action)
    requires Init(s0) && Execute(s0, actions) == Some(s) && NoneSkipped(s) && Enabled(s, a) && Advances(s, a)
    ensures s.last.Some?
    ensures NoneSkipped(Apply(s, a)) <==>
            forall d :: s.last.value <= d < a.j.windowStart.value ==> Covered(s.read, d)
  {
    RunStaysOk(s0, actions);
    CompletionMoves(s, a);
    hide Execute, Answers;
    var t, x := Apply(s, a), WindowOf(a.j);
    hide Apply;
    forall d ensures Covered(t.read, d) <==> Covered(s.read, d) || x.from <= d < x.to { CoverMore(s.read, x, d); }
    hide Covered;
    if NoneSkipped(t) {
      forall d | s.last.value <= d < x.from ensures Covered(s.read, d) { assert !Skipped(t, d); }
    }
    if forall d :: s.last.value <= d < x.from ==> Covered(s.read, d) {
      forall d: int ensures !Skipped(t, d) { assert !Skipped(s, d); }
    }
  }

  /** A start asks for no window past the watermark, and no sweep completes for a day before it. */
  ghost predicate Tame(s: State, a: Action)
    requires Enabled(s, a)
  {
    match a
    case Begin(j, _) => j.windowStart.Some? ==> s.last.Some? && j.windowStart.value <= s.last.value
    case Complete(j, w) =>
      j.mode.FullSweep? && s.last.Some? ==>
        s.last.value <= if j.windowEnd.Some? then j.windowEnd.value else w.today
  }

  ghost predicate TameRun(s0: State, actions: seq<Action>)
    requires Execute(s0, actions).Some?
  {
    actions == []
    || (TameRun(s0, actions[..|actions| - 1])
        && Tame(Execute(s0, actions[..|actions| - 1]).value, actions[|actions| - 1]))
  }

  ghost predicate OpenOk(s: State) {
    forall x :: x in s.open ==> s.last.Some? && x.from <= s.last.value
  }

  lemma TameStep(s: State, a: Action)
    requires StateOk(s) && OpenOk(s) && NoneSkipped(s) && Enabled(s, a) && Tame(s, a)
    ensures OpenOk(Apply(s, a)) && NoneSkipped(Apply(s, a))
  {
    var t := Apply(s, a);
    if a.Begin? {
      BeginStaysOk(s, a);
      hide Apply, Answers;
      forall d: int ensures !Skipped(t, d) { assert !Skipped(s, d); }
    } else if !a.j.mode.DailySync? {
      OthersComplete(s, a);
      hide Apply, Answers;
      forall d: int ensures !Skipped(t, d) { assert !Skipped(s, d); }
    } else {
      CompletionMoves(s, a);
      hide Apply, Answers;
      var x := WindowOf(a.j);
      forall d: int ensures !Skipped(t, d) {
        assert !Skipped(s, d);
        CoverMore(s.read, x, d);
      }
    }
  }

  /**
   * In every run whose starts ask for no window past the watermark and whose sweeps do not lower it, no day is ever
   * skipped, whatever completes in which order.
   */
  lemma {:induction false} TameRunsSkipNoDay(s0: State, actions: seq<Action>, d: int)
    requires Init(s0) && Execute(s0, actions).Some? && TameRun(s0, actions)
    ensures !Skipped(Execute(s0, actions).value, d)
  {
    TameRunIsTame(s0, actions);
  }

  lemma {:induction false} TameRunIsTame(s0: State, actions: seq<Action>)
    requires Init(s0) && Execute(s0, actions).Some? && TameRun(s0, actions)
    ensures OpenOk(Execute(s0, actions).value) && NoneSkipped(Execute(s0, actions).value)
  {
    if actions != [] {
      var n := |actions| - 1;
      TameRunIsTame(s0, actions[..n]);
      RunStaysOk(s0, actions[..n]);
      hide Apply, Enabled, StateOk, OpenOk, NoneSkipped, Tame;
      TameStep(Execute(s0, actions[..n]).value, actions[n]);
    }
  }

  // ---- a window past the watermark ----------------------------------------------------------------

  const QUIET: World := World(false, false, Some(10), false, 25, Keyset.Table(map[], map[]), Keyset.InvalidPayload)

  function Asked(phase: Phase): ScanJob {
    ScanJob(DailySync, [Movie], phase, 0, 0, Some(20), Some(25))
  }

  lemma ExecuteTwo(s: State, a: Action, b: Action)
    requires Enabled(s, a) && Enabled(Apply(s, a), b)
    ensures Execute(s, [a, b]) == Some(Apply(Apply(s, a), b))
  {
    hide Enabled, Apply;
    assert [a][..0] == [] && [a, b][..1] == [a];
    assert Execute(s, [a]) == Some(Apply(s, a));
  }

  const BEFORE: State := State(Some(10), false, [], [], Some(10))
  const OPENED: State := State(Some(10), false, [Window(20, 25)], [], Some(10))
  const PASSED: State := State(Some(25), false, [Window(20, 25)], [Window(20, 25)], Some(10))

  lemma AskedBegins()
    ensures Enabled(BEFORE, Begin(Asked(Start), QUIET)) && Apply(BEFORE, Begin(Asked(Start), QUIET)) == OPENED
  {
    hide Apply;
    BeginOpens(BEFORE, Begin(Asked(Start), QUIET), Window(20, 25));
  }

  lemma AskedCompletes()
    ensures Enabled(OPENED, Complete(Asked(Completion), QUIET))
    ensures Apply(OPENED, Complete(Asked(Completion), QUIET)) == PASSED
  {
    hide Apply;
    assert OPENED.open[0] == WindowOf(Asked(Completion));
    CompletionMoves(OPENED, Complete(Asked(Completion), QUIET));
  }

  /** An operator asks for the days from 20 to 25 when the watermark is at 10: day 15 is passed and never read. */
  lemma RequestedWindowSkipsDays()
    ensures exists s0, actions :: Init(s0) && Execute(s0, actions).Some? && Skipped(Execute(s0, actions).value, 15)
  {
    hide Enabled, Apply, Execute;
    AskedBegins();
    AskedCompletes();
    ExecuteTwo(BEFORE, Begin(Asked(Start), QUIET), Complete(Asked(Completion), QUIET));
    assert Skipped(PASSED, 15);
  }
}
