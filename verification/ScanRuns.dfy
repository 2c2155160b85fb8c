// Whole runs of the coordinator over the rows of the queue. An execution reads the world once and then submits its
// children one transaction at a time; its job's success is recorded by a separate call. It may be cut off anywhere, run
// beside later executions of the same job, and be run again; a lost job may be retried by an operator.
module ScanRuns {
  import opened Catalog
  import opened JobQueue
  import Keyset = KeysetScan
  import opened ScanCoordinator
  import opened Widths

  datatype RowStatus = Live | Finished | Lost

  /**
   * A row of the queue. `key` is 0 for the key that the submitter derives from the payload; `attempt` counts the
   * claims. `handed` is history: the media for which an execution of this row has submitted a carrier.
   */
  datatype Row = Row(child: Child, key: nat, status: RowStatus, attempt: nat, handed: set<Media>)

  /** How an execution means to end: with success, as the end of its scan, or dead-lettered. */
  datatype Ending = Plain | Closing | Failing

  /** An execution that has submitted `children[..next]`. It may outlive its claim. */
  datatype Execution = Execution(row: nat, attempt: nat, children: seq<Child>, next: nat, ending: Ending)

  /**
   * The rows and the executions; the rest is history, counted for each medium: completions that ran to their end, rows
   * lost before they handed the medium on, carriers that a live row of the same key absorbed, carriers submitted for
   * a medium that was handed on before, and retries of lost carriers.
   */
  datatype Queue = Queue(rows: seq<Row>, execs: seq<Execution>, completed: multiset<Media>, lost: multiset<Media>,
                         merged: multiset<Media>, doubled: multiset<Media>, retried: multiset<Media>)

  /** What an execution reads when it begins, by the kind of its job. */
  datatype Read =
    | ScanRead(job: ScanJob, w: World)
    | ExportRead(last: bool, nextOffset: nat, more: seq<Child>)
    | OtherRead(more: seq<Child>)

  /** A record may take effect late, under a later claim: the queue checks the worker's name and lease only. */
  datatype Action =
    | Begin(row: nat, read: Read)
    | SubmitNext(exec: nat)
    | Record(exec: nat)
    | Lose(row: nat)
    | Retry(row: nat)

  /** `catalog_completion_has_active_work`: jobs of type `ingest.*`; scans themselves are not. */
  predicate IngestActive(rows: seq<Row>) {
    exists i :: 0 <= i < |rows| && rows[i].status.Live? && !rows[i].child.Scan?
  }

  /** The scope field that `catalog_scan_phase_has_active_work` filters on. */
  predicate ScopedCatalogOnly(payload: Value) {
    payload.Object? && "scope" in payload.fields && payload.fields["scope"] == Text("catalog_only")
  }

  predicate BlocksPhase(c: Child, phase: Phase) {
    c.Export? || (c.Refresh? && ScopedCatalogOnly(c.payload))
    || (phase.Seasons? && c.SeasonRefresh? && ScopedCatalogOnly(c.payload))
  }

  /** `catalog_scan_phase_has_active_work` */
  predicate PhaseActive(rows: seq<Row>, phase: Phase) {
    exists i :: 0 <= i < |rows| && rows[i].status.Live? && BlocksPhase(rows[i].child, phase)
  }

  function ExportEnrichment(medium: Media): ScanJob {
    ScanJob(FullSweep, [medium], Enrichment, 0, 0, None, None)
  }

  predicate FullExport(c: Child) {
    c.Export? && c.refreshAll
  }

  /** The job carries a medium through its scan: a scan of the medium, or the full export that its scan follows. */
  predicate Carries(c: Child, m: Media) {
    match c
    case Scan(payload) => ParseScan(payload).Parsed? && m in ParseScan(payload).job.media
    case Export(medium, refreshAll, _) => refreshAll && medium == m
    case _ => false
  }

  function Carried(c: Child): (r: set<Media>)
    ensures forall m :: m in r <==> Carries(c, m)
  {
    (if Carries(c, Movie) then {Movie} else {}) + (if Carries(c, Tv) then {Tv} else {})
  }

  /** The media that a row still has to hand on. */
  function Open(r: Row): set<Media> {
    if r.status.Live? then Carried(r.child) - r.handed else {}
  }

  /** Jobs that other jobs leave: no scans, no full exports, and exports only after an export of the same medium. */
  predicate MayLeave(c: Child, more: seq<Child>) {
    forall k :: 0 <= k < |more| ==>
      !more[k].Scan? && !FullExport(more[k]) && (more[k].Export? ==> c.Export? && more[k].medium == c.medium)
  }

  ghost predicate Reads(rows: seq<Row>, c: Child, read: Read) {
    match read
    case ScanRead(j, w) =>
      && c.Scan? && ParseScan(c.payload) == Parsed(j) && Answers(w, j)
      && (!j.phase.Start? ==> w.active == if j.phase.Completion? then IngestActive(rows)
          else PhaseActive(rows, j.phase))
    case ExportRead(last, nextOffset, more) => FullExport(c) && nextOffset > c.offset && MayLeave(c, more)
    case OtherRead(more) => !c.Scan? && !FullExport(c) && MayLeave(c, more)
  }

  /** A full export goes on from the next offset, or hands its medium to the enrichment scan. */
  function Following(c: Child, last: bool, nextOffset: nat): Child
    requires c.Export?
  {
    if last then Scan(ScanPayload(ExportEnrichment(c.medium))) else Export(c.medium, true, nextOffset)
  }

  ghost function ChildrenOf(rows: seq<Row>, c: Child, read: Read): seq<Child>
    requires Reads(rows, c, read)
  {
    match read
    case ScanRead(j, w) => Step(j, w).children
    case ExportRead(last, nextOffset, more) => more + [Following(c, last, nextOffset)]
    case OtherRead(more) => more
  }

  /** A completion that does not wait ends its scan. */
  ghost predicate Closes(j: ScanJob, w: World)
    requires ValidScan(j) && Answers(w, j)
  {
    j.phase.Completion? && Step(j, w).Emitted? && !Step(j, w).waiting
  }

  ghost function EndingOf(rows: seq<Row>, c: Child, read: Read): Ending
    requires Reads(rows, c, read)
  {
    match read
    case ScanRead(j, w) => if Step(j, w).DeadLettered? then Failing else if Closes(j, w) then Closing else Plain
    case _ => Plain
  }

  /** Its claim is in force: the job has not ended and was not claimed again. */
  predicate Current(q: Queue, x: Execution) {
    x.row < |q.rows| && q.rows[x.row].status.Live? && q.rows[x.row].attempt == x.attempt
  }

  predicate HasLive(rows: seq<Row>, c: Child) {
    exists i :: 0 <= i < |rows| && rows[i].status.Live? && rows[i].child == c && rows[i].key == 0
  }

  ghost predicate Enabled(q: Queue, a: Action) {
    match a
    case Begin(i, read) => i < |q.rows| && q.rows[i].status.Live? && Reads(q.rows, q.rows[i].child, read)
    case SubmitNext(e) => e < |q.execs| && q.execs[e].row < |q.rows| && q.execs[e].next < |q.execs[e].children|
    case Record(e) =>
      && e < |q.execs| && q.execs[e].next == |q.execs[e].children|
      && q.execs[e].row < |q.rows| && q.rows[q.execs[e].row].status.Live?
    case Lose(i) => i < |q.rows| && q.rows[i].status.Live?
    case Retry(i) => i < |q.rows| && q.rows[i].status.Lost?
  }

  ghost function Apply(q: Queue, a: Action): Queue
    requires Enabled(q, a)
  {
    match a
    case Begin(i, read) =>
      var r := q.rows[i];
      var x := Execution(i, r.attempt + 1, ChildrenOf(q.rows, r.child, read), 0, EndingOf(q.rows, r.child, read));
      q.(rows := q.rows[i := r.(attempt := r.attempt + 1)], execs := q.execs + [x])
    case SubmitNext(e) =>
      var x := q.execs[e];
      var c, r := x.children[x.next], q.rows[x.row];
      var handing := Carried(c) * Open(r);
      var rows := q.rows[x.row := r.(handed := r.handed + Carried(c))];
      var t := q.(execs := q.execs[e := x.(next := x.next + 1)]);
      if HasLive(q.rows, c) then t.(rows := rows, merged := q.merged + multiset(handing))
      else t.(rows := rows + [Row(c, 0, Live, 0, {})], doubled := q.doubled + multiset(Carried(c) - handing))
    case Record(e) =>
      var x := q.execs[e];
      var r := q.rows[x.row];
      match x.ending {
        case Plain => q.(rows := q.rows[x.row := r.(status := Finished)])
        case Closing =>
          q.(rows := q.rows[x.row := r.(status := Finished)], completed := q.completed + multiset(Carried(r.child)),
             doubled := q.doubled + multiset(Carried(r.child) - Open(r)))
        case Failing =>
          q.(rows := q.rows[x.row := r.(status := Lost)], lost := q.lost + multiset(Open(r)))
      }
    case Lose(i) => q.(rows := q.rows[i := q.rows[i].(status := Lost)], lost := q.lost + multiset(Open(q.rows[i])))
    case Retry(i) =>
      q.(rows := q.rows + [Row(q.rows[i].child, |q.rows|, Live, 0, {})],
         retried := q.retried + multiset(Carried(q.rows[i].child)))
  }

  function Initial(root: ScanJob): Queue {
    Queue([Row(Scan(ScanPayload(root)), 0, Live, 0, {})], [], multiset{}, multiset{}, multiset{}, multiset{},
          multiset{})
  }

  /** The queue after a sequence of actions from a submitted root; `None` when one was not enabled. */
  ghost function Execute(root: ScanJob, actions: seq<Action>): Option<Queue> {
    if actions == [] then Some(Initial(root))
    else
      var before, a := Execute(root, actions[..|actions| - 1]), actions[|actions| - 1];
      if before.Some? && Enabled(before.value, a) then Some(Apply(before.value, a)) else None
  }

  predicate IsRoot(root: ScanJob) {
    ValidScan(root) && root.phase.Start?
  }

  // ---- what is ever queued ------------------------------------------------------------------------

  predicate Accepted(c: Child, root: ScanJob) {
    match c
    case Scan(payload) =>
      var j := ParseScan(payload);
      j.Parsed? && Runnable(j.job) && j.job.mode == root.mode && forall m :: m in j.job.media ==> m in root.media
    case Export(m, refreshAll, _) => m in root.media && (refreshAll ==> root.mode.FullSweep?)
    case _ => true
  }

  ghost predicate AllAccepted(children: seq<Child>, root: ScanJob) {
    forall i :: 0 <= i < |children| ==> Accepted(children[i], root)
  }

  /** The rows, and what executions are yet to submit. */
  ghost predicate QueueAccepted(q: Queue, root: ScanJob) {
    && (forall i :: 0 <= i < |q.rows| ==> Accepted(q.rows[i].child, root))
    && (forall e :: 0 <= e < |q.execs| ==> AllAccepted(q.execs[e].children, root))
  }

  lemma StepAccepted(j: ScanJob, w: World, root: ScanJob)
    requires Runnable(j) && Answers(w, j) && j.mode == root.mode && forall m :: m in j.media ==> m in root.media
    ensures AllAccepted(Step(j, w).children, root)
  {
    StepIsClosed(j, w);
    var children := Step(j, w).children;
    forall i | 0 <= i < |children| ensures Accepted(children[i], root) {
      assert children[i] in children;
      assert GoodChild(children[i], j, Waits(Step(j, w)));
    }
  }

  lemma ChildrenAccepted(rows: seq<Row>, c: Child, read: Read, root: ScanJob)
    requires Accepted(c, root) && Reads(rows, c, read)
    ensures AllAccepted(ChildrenOf(rows, c, read), root)
  {
    match read
    case ScanRead(j, w) => StepAccepted(j, w, root);
    case ExportRead(_, _, _) => ScanRoundTrip(ExportEnrichment(c.medium));
    case OtherRead(_) =>
  }

  /** Rows keep their jobs and executions their plans. */
  ghost predicate Evolves(q: Queue, t: Queue) {
    && |q.rows| <= |t.rows| && |q.execs| <= |t.execs|
    && (forall i :: 0 <= i < |q.rows| ==>
          t.rows[i].child == q.rows[i].child && t.rows[i].attempt >= q.rows[i].attempt
          && q.rows[i].handed <= t.rows[i].handed && (t.rows[i].status.Live? ==> q.rows[i].status.Live?))
    && (forall e :: 0 <= e < |q.execs| ==>
        q.execs[e].next <= t.execs[e].next && t.execs[e] == q.execs[e].(next := t.execs[e].next))
  }

  /** A row that a step adds: a submitted child or a retried job, with nothing handed on. */
  ghost predicate AddsRow(q: Queue, a: Action, t: Queue)
    requires Enabled(q, a)
  {
    |t.rows| == |q.rows| + 1
    && match a
       case SubmitNext(e) => t.rows[|q.rows|] == Row(q.execs[e].children[q.execs[e].next], 0, Live, 0, {})
       case Retry(i) => t.rows[|q.rows|] == Row(q.rows[i].child, |q.rows|, Live, 0, {})
       case _ => false
  }

  ghost predicate HasShape(q: Queue, a: Action)
    requires Enabled(q, a)
  {
    var t := Apply(q, a);
    Evolves(q, t) && (|t.rows| == |q.rows| || AddsRow(q, a, t)) && (!a.Begin? ==> |t.execs| == |q.execs|)
  }

  lemma SubmitShape(q: Queue, a: Action)
    requires Enabled(q, a) && a.SubmitNext?
    ensures HasShape(q, a)
  {
    hide HasLive, Open, Carries, Carried, Reads;
  }

  lemma RecordShape(q: Queue, a: Action)
    requires Enabled(q, a) && a.Record?
    ensures HasShape(q, a)
  {
    hide HasLive, Open, Carries, Carried, Reads;
  }

  lemma StepShape(q: Queue, a: Action)
    requires Enabled(q, a)
    ensures HasShape(q, a)
  {
    hide ChildrenOf, EndingOf, Reads, HasLive, Open, Carries;
    match a
    case SubmitNext(_) => SubmitShape(q, a);
    case Record(_) => RecordShape(q, a);
    case _ =>
  }

  lemma BeginShape(q: Queue, a: Action)
    requires Enabled(q, a) && a.Begin?
    ensures var t, r := Apply(q, a), q.rows[a.row];
            && t.rows == q.rows[a.row := r.(attempt := r.attempt + 1)]
            && t.execs == q.execs + [Execution(a.row, r.attempt + 1, ChildrenOf(q.rows, r.child, a.read), 0,
                                               EndingOf(q.rows, r.child, a.read))]
  {
    hide ChildrenOf, EndingOf, Reads;
  }

  lemma StepKeepsAccepted(q: Queue, a: Action, root: ScanJob)
    requires QueueAccepted(q, root) && Enabled(q, a)
    ensures QueueAccepted(Apply(q, a), root)
  {
    hide Accepted, ChildrenOf, EndingOf, Reads, HasLive, Apply;
    StepShape(q, a);
    if a.Begin? {
      BeginShape(q, a);
      ChildrenAccepted(q.rows, q.rows[a.row].child, a.read, root);
    }
  }

  lemma InitialAccepted(root: ScanJob)
    requires IsRoot(root)
    ensures QueueAccepted(Initial(root), root)
  {
    ScanRoundTrip(root);
  }

  /**
   * In every run from an accepted root, every scan payload that is ever queued is accepted by the parser, keeps to
   * the root's mode and media, and is one whose phase has a batch to run.
   */
  lemma {:induction false} RunsStayAccepted(root: ScanJob, actions: seq<Action>)
    requires IsRoot(root) && Execute(root, actions).Some?
    ensures QueueAccepted(Execute(root, actions).value, root)
  {
    if actions == [] {
      InitialAccepted(root);
    } else {
      RunsStayAccepted(root, actions[..|actions| - 1]);
      StepKeepsAccepted(Execute(root, actions[..|actions| - 1]).value, actions[|actions| - 1], root);
    }
  }

  lemma RunnableDeadLetters(j: ScanJob, w: World)
    requires Runnable(j) && Answers(w, j) && Step(j, w).DeadLettered?
    ensures j.poll == U32_MAX || w.batch.InvalidPayload?
  {
  }

  /**
   * In a run from an accepted root, no step is refused for its mode, phase or media: only for a count or a row out of
   * range.
   */
  lemma OnlyOverflowsDeadLetter(root: ScanJob, actions: seq<Action>, q: Queue, i: nat, j: ScanJob, w: World)
    requires IsRoot(root) && Execute(root, actions) == Some(q)
    requires Enabled(q, Begin(i, ScanRead(j, w))) && Step(j, w).DeadLettered?
    ensures j.poll == U32_MAX || w.batch.InvalidPayload?
  {
    RunsStayAccepted(root, actions);
    assert Accepted(q.rows[i].child, root);
    hide ScanPayload, ParseScan, Execute, Step, Answers;
    RunnableDeadLetters(j, w);
  }

  // ---- which children carry a medium --------------------------------------------------------------

  function Tokens(jobs: seq<Child>, m: Media): nat {
    if jobs == [] then 0 else (if Carries(jobs[0], m) then 1 else 0) + Tokens(jobs[1..], m)
  }

  lemma {:induction false} TokensConcat(a: seq<Child>, b: seq<Child>, m: Media)
    ensures Tokens(a + b, m) == Tokens(a, m) + Tokens(b, m)
  {
    hide Carries;
    if a == [] {
      assert a + b == b;
    } else {
      assert (a + b)[1..] == a[1..] + b;
      TokensConcat(a[1..], b, m);
    }
  }

  lemma {:induction false} NoTokens(jobs: seq<Child>, m: Media)
    ensures Tokens(jobs, m) == 0 <==> forall i :: 0 <= i < |jobs| ==> !Carries(jobs[i], m)
  {
    hide Carries;
    if jobs != [] {
      NoTokens(jobs[1..], m);
      if forall i :: 0 <= i < |jobs| ==> !Carries(jobs[i], m) {
        forall i | 0 <= i < |jobs[1..]| ensures !Carries(jobs[1..][i], m) { assert jobs[1..][i] == jobs[i + 1]; }
      } else {
        var i :| 0 <= i < |jobs| && Carries(jobs[i], m);
        if i > 0 { assert jobs[1..][i - 1] == jobs[i]; }
      }
    }
  }

  lemma ScanCarries(j: ScanJob, m: Media)
    requires ValidScan(j)
    ensures Carries(Scan(ScanPayload(j)), m) <==> m in j.media
    ensures Tokens([Scan(ScanPayload(j))], m) == if m in j.media then 1 else 0
  {
    ScanRoundTrip(j);
  }

  lemma MediaOnce(media: seq<Media>, m: Media)
    requires 1 <= |media| <= 2 && (|media| == 2 ==> media[0] != media[1])
    ensures multiset(media)[m] == if m in media then 1 else 0
  {
    assert media == if |media| == 1 then [media[0]] else [media[0], media[1]];
  }

  lemma {:induction false} SweepTokens(media: seq<Media>, m: Media)
    ensures Tokens(SweepChildren(media), m) == multiset(media)[m]
  {
    if media != [] {
      var first := [Trending(media[0], true), Trending(media[0], false), Export(media[0], true, 0)];
      TokensConcat(first, SweepChildren(media[1..]), m);
      assert Tokens(first[2..], m) == if media[0] == m then 1 else 0;
      assert first[1..][1..] == first[2..] && Tokens(first, m) == Tokens(first[1..], m) == Tokens(first[2..], m);
      SweepTokens(media[1..], m);
      assert media == [media[0]] + media[1..];
    }
  }

  lemma ExportCarriesNothing(medium: Media, m: Media)
    ensures Tokens([], m) == Tokens([Export(medium, false, 0)], m) == 0
  {
  }

  lemma {:induction false} EnrichmentTokens(j: ScanJob, media: seq<Media>, withExport: bool, m: Media)
    requires Phased(j.mode)
    ensures Tokens(EnrichmentChildren(j, media, withExport), m) == multiset(media)[m]
  {
    if media != [] {
      ScanCarries(Next(j, [media[0]], Enrichment, 0), m);
      hide ScanPayload, ParseScan, Carries;
      var before := if withExport then [Export(media[0], false, 0)] else [];
      var scan := [Scan(ScanPayload(Next(j, [media[0]], Enrichment, 0)))];
      var rest := EnrichmentChildren(j, media[1..], withExport);
      EnrichmentTokens(j, media[1..], withExport, m);
      ExportCarriesNothing(media[0], m);
      TokensConcat(before + scan, rest, m);
      TokensConcat(before, scan, m);
      assert media == [media[0]] + media[1..];
    }
  }

  lemma {:induction false} TitlesCarryNothing(t: Keyset.Table, rows: seq<int>, scoped: bool, m: Media)
    requires forall i :: 0 <= i < |rows| ==> rows[i] in t.titles
    ensures Tokens(TitleChildren(t, rows, scoped), m) == 0
  {
    if rows != [] {
      hide RefreshPayload;
      var title := t.titles[rows[0]];
      var first := [Refresh(title.media, scoped, RefreshPayload(title.tmdbId, scoped))];
      TokensConcat(first, TitleChildren(t, rows[1..], scoped), m);
      TitlesCarryNothing(t, rows[1..], scoped, m);
    }
  }

  lemma {:induction false} SeasonsCarryNothing(t: Keyset.Table, rows: seq<int>, m: Media)
    requires forall i :: 0 <= i < |rows| ==> rows[i] in t.seasons && t.seasons[rows[i]].title in t.titles
    ensures Tokens(SeasonChildren(t, rows), m) == 0
  {
    if rows != [] {
      hide SeasonPayload;
      var season := t.seasons[rows[0]];
      var first := [SeasonRefresh(SeasonPayload(t.titles[season.title].tmdbId, season.number))];
      TokensConcat(first, SeasonChildren(t, rows[1..]), m);
      SeasonsCarryNothing(t, rows[1..], m);
    }
  }

  /** The step hands the media of its job on: unless it dead-letters or is the end of the scan. */
  ghost predicate HandsOn(j: ScanJob, w: World)
    requires ValidScan(j) && Answers(w, j)
  {
    Step(j, w).Emitted? && (j.phase.Completion? ==> Step(j, w).waiting)
  }

  lemma StartTokens(j: ScanJob, w: World, m: Media)
    requires ValidScan(j) && j.phase.Start? && Phased(j.mode) && Answers(w, j)
    ensures Tokens(Step(j, w).children, m) == if HandsOn(j, w) && m in j.media then 1 else 0
  {
    var configuration := if j.cursor == 0 then [Configuration] else [];
    assert Tokens(configuration, m) == 0;
    hide ScanPayload, Carries, ParseScan;
    MediaOnce(j.media, m);
    match j.mode
    case FullSweep => SweepTokens(j.media, m); TokensConcat(configuration, SweepChildren(j.media), m);
    case MissingOnly => if w.batch.Ok? { MissingTokens(j, w, configuration, m); }
    case _ =>
      EnrichmentTokens(j, j.media, true, m);
      TokensConcat(configuration, EnrichmentChildren(j, j.media, true), m);
  }

  lemma MissingTokens(j: ScanJob, w: World, configuration: seq<Child>, m: Media)
    requires ValidScan(j) && j.phase.Start? && j.mode.MissingOnly? && Answers(w, j) && w.batch.Ok?
    requires configuration == (if j.cursor == 0 then [Configuration] else []) && Tokens(configuration, m) == 0
    ensures Tokens(Step(j, w).children, m) == if m in j.media then 1 else 0
  {
    hide ScanPayload, Carries, ParseScan;
    var batch := w.batch.batch;
    var titles := TitleChildren(w.table, batch.rows, false);
    var scan := Next(j, j.media, Start, batch.nextCursor);
    var next := if batch.done then EnrichmentChildren(j, j.media, false) else [Scan(ScanPayload(scan))];
    TokensConcat(configuration + titles, next, m);
    TokensConcat(configuration, titles, m);
    TitlesCarryNothing(w.table, batch.rows, false, m);
    MediaOnce(j.media, m);
    if batch.done { EnrichmentTokens(j, j.media, false, m); } else { ScanCarries(scan, m); }
  }

  lemma PhaseTokens(j: ScanJob, w: World, m: Media)
    requires Runnable(j) && !j.phase.Start? && Answers(w, j)
    ensures Tokens(Step(j, w).children, m) == if HandsOn(j, w) && m in j.media then 1 else 0
  {
    hide ScanPayload, Carries, ParseScan;
    if w.active {
      if j.poll < U32_MAX { ScanCarries(j.(poll := j.poll + 1), m); }
    } else if !j.phase.Completion? && w.batch.Ok? {
      var batch := w.batch.batch;
      var work := if j.phase.Enrichment? then TitleChildren(w.table, batch.rows, true)
        else SeasonChildren(w.table, batch.rows);
      if j.phase.Enrichment? {
        TitlesCarryNothing(w.table, batch.rows, true, m);
      } else {
        SeasonsCarryNothing(w.table, batch.rows, m);
      }
      var next := if !batch.done then j.(cursor := batch.nextCursor, poll := 0)
                  else if j.phase.Enrichment? && j.media[0].Tv? then Next(j, j.media, Seasons, 0)
                  else j.(phase := Completion, cursor := 0, poll := 0);
      ScanCarries(next, m);
      TokensConcat(work, [Scan(ScanPayload(next))], m);
    }
  }
}
