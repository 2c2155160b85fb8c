// Runs of `missing_only` scans over an empty catalog. In the first three the completion of the movies finds its gate
// open too early: beside the queued or the lost coordinator of television, and beside the very scan that submitted
// it. In the others a medium comes to be in two places: after a step that was cut off, after a lost outcome, and
// after a retry.
module ScanRunEscapes {
  import opened Catalog
  import opened CoordinatorGate
  import opened JobQueue
  import Keyset = KeysetScan
  import opened ScanCoordinator
  import opened ScanPlaces
  import opened ScanRuns

  function Root(media: seq<Media>): ScanJob {
    ScanJob(MissingOnly, media, Start, 0, 0, None, None)
  }

  function At(m: Media, phase: Phase): ScanJob {
    ScanJob(MissingOnly, [m], phase, 0, 0, None, None)
  }

  function Scanning(m: Media, phase: Phase): Child {
    Scan(ScanPayload(At(m, phase)))
  }

  /** An empty catalog, an idle queue and no failures. */
  const QUIET: World :=
    World(false, false, None, false, 0, Keyset.Table(map[], map[]), Keyset.Ok(Keyset.Batch([], 0, true)))

  // ---- runs, step by step -------------------------------------------------------------------------

  /** A run from the root, without cuts if `uncut`, leads to this queue. */
  ghost predicate Reached(uncut: bool, root: ScanJob, q: Queue) {
    exists actions :: Execute(root, actions) == Some(q) && (uncut ==> UncutRun(root, actions))
  }

  lemma Go(uncut: bool, root: ScanJob, q: Queue, a: Action, t: Queue)
    requires Reached(uncut, root, q) && Enabled(q, a) && (uncut ==> Uncut(q, a))
    requires var u := Apply(q, a);
             && u.rows == t.rows && u.execs == t.execs && u.completed == t.completed && u.lost == t.lost
             && u.merged == t.merged && u.doubled == t.doubled && u.retried == t.retried
    ensures Reached(uncut, root, t)
  {
    assert Apply(q, a) == t;
    hide Enabled, Apply, Uncut;
    var actions :| Execute(root, actions) == Some(q) && (uncut ==> UncutRun(root, actions));
    var longer := actions + [a];
    assert longer[..|longer| - 1] == actions;
    assert Execute(root, longer) == Some(t) && (uncut ==> UncutRun(root, longer));
  }

  lemma NothingYet(uncut: bool, root: ScanJob)
    ensures Reached(uncut, root, Initial(root))
  {
    assert Execute(root, []) == Some(Initial(root)) && UncutRun(root, []);
  }

  /** A scan begins in the quiet world. */
  lemma BeginScan(uncut: bool, root: ScanJob, q: Queue, i: nat, j: ScanJob, children: seq<Child>,
                  ending: Ending, t: Queue)
    requires Reached(uncut, root, q) && i < |q.rows| && q.rows[i].status.Live?
    requires q.rows[i].child == Scan(ScanPayload(j))
    requires uncut ==> forall e :: 0 <= e < |q.execs| && q.execs[e].row == i ==> q.execs[e].next == 0
    requires ValidScan(j) && Answers(QUIET, j) && Step(j, QUIET).Emitted? && Step(j, QUIET).children == children
    requires ending == (if Closes(j, QUIET) then Closing else Plain)
    requires !j.phase.Start? ==> if j.phase.Completion? then !IngestActive(q.rows) else !PhaseActive(q.rows, j.phase)
    requires t.rows == q.rows[i := q.rows[i].(attempt := q.rows[i].attempt + 1)]
    requires t.execs == q.execs + [Execution(i, q.rows[i].attempt + 1, children, 0, ending)]
    requires t == q.(rows := t.rows, execs := t.execs)
    ensures Enabled(q, Begin(i, ScanRead(j, QUIET))) && Reached(uncut, root, t)
  {
    ScanRoundTrip(j);
    hide Reached, ScanPayload, ParseScan, Step, Closes, Answers;
    Go(uncut, root, q, Begin(i, ScanRead(j, QUIET)), t);
  }

  /** An execution submits a child of which no live row is queued. */
  lemma SubmitNew(uncut: bool, root: ScanJob, q: Queue, e: nat, c: Child, media: set<Media>, t: Queue)
    requires Reached(uncut, root, q) && e < |q.execs| && q.execs[e].row < |q.rows|
    requires uncut ==> Current(q, q.execs[e])
    requires q.execs[e].next < |q.execs[e].children| && q.execs[e].children[q.execs[e].next] == c
    requires !HasLive(q.rows, c) && Carried(c) == media
    requires var r := q.rows[q.execs[e].row];
             && t.rows == q.rows[q.execs[e].row := r.(handed := r.handed + media)] + [Row(c, 0, Live, 0, {})]
             && t.doubled == q.doubled + multiset(media - media * Open(r))
    requires t.execs == q.execs[e := q.execs[e].(next := q.execs[e].next + 1)]
    requires t == q.(rows := t.rows, execs := t.execs, doubled := t.doubled)
    ensures Reached(uncut, root, t)
  {
    hide Reached, HasLive, Carried, Open;
    Go(uncut, root, q, SubmitNext(e), t);
  }

  /** ... for a medium that its row has yet to hand on. */
  lemma SubmitFirst(uncut: bool, root: ScanJob, q: Queue, e: nat, c: Child, m: Media, t: Queue)
    requires Reached(uncut, root, q) && e < |q.execs| && q.execs[e].row < |q.rows|
    requires uncut ==> Current(q, q.execs[e])
    requires q.execs[e].next < |q.execs[e].children| && q.execs[e].children[q.execs[e].next] == c
    requires !HasLive(q.rows, c) && Carried(c) == {m} && m in Open(q.rows[q.execs[e].row])
    requires var r := q.rows[q.execs[e].row];
             t.rows == q.rows[q.execs[e].row := r.(handed := r.handed + {m})] + [Row(c, 0, Live, 0, {})]
    requires t.execs == q.execs[e := q.execs[e].(next := q.execs[e].next + 1)]
    requires t == q.(rows := t.rows, execs := t.execs)
    ensures Reached(uncut, root, t)
  {
    hide Reached, HasLive, Carried, Open;
    assert {m} - {m} * Open(q.rows[q.execs[e].row]) == {};
    SubmitNew(uncut, root, q, e, c, {m}, t);
  }

  /** The success of an execution is recorded, unless it closes its scan. */
  lemma RecordPlain(uncut: bool, root: ScanJob, q: Queue, e: nat, t: Queue)
    requires Reached(uncut, root, q) && e < |q.execs| && Current(q, q.execs[e])
    requires q.execs[e].next == |q.execs[e].children| && q.execs[e].ending.Plain?
    requires t.rows == q.rows[q.execs[e].row := q.rows[q.execs[e].row].(status := Finished)]
    requires t == q.(rows := t.rows)
    ensures Reached(uncut, root, t)
  {
    hide Reached, Carried, Open;
    Go(uncut, root, q, Record(e), t);
  }

  /** What the children of these runs carry, and which phase they are in. */
  lemma Facts(m: Media, phase: Phase)
    requires phase.Enrichment? || phase.Completion?
    ensures Scanning(m, phase).Scan? && Carried(Scanning(m, phase)) == {m}
    ensures InPhase(Scanning(m, phase), phase.Completion?) && !InPhase(Scanning(m, phase), !phase.Completion?)
  {
    ScanRoundTrip(At(m, phase));
  }

  lemma RootFacts(media: seq<Media>)
    requires media == [Movie] || media == [Movie, Tv]
    ensures forall m :: m in Carried(Scan(ScanPayload(Root(media)))) <==> m in media
  {
    ScanRoundTrip(Root(media));
  }

  // ---- what the steps emit ------------------------------------------------------------------------

  lemma RootPlan(media: seq<Media>)
    requires media == [Movie] || media == [Movie, Tv]
    ensures ValidScan(Root(media)) && Answers(QUIET, Root(media)) && Step(Root(media), QUIET).Emitted?
    ensures !Closes(Root(media), QUIET)
    ensures Step(Root(media), QUIET).children ==
            if |media| == 1 then [Configuration, Scanning(Movie, Enrichment)]
            else [Configuration, Scanning(Movie, Enrichment), Scanning(Tv, Enrichment)]
  {
    hide ScanPayload;
    var j := Root(media);
    assert EnrichmentChildren(j, [Tv], false) == [Scanning(Tv, Enrichment)];
    assert Step(j, QUIET).children == [Configuration] + [] + EnrichmentChildren(j, media, false);
    if |media| == 2 { assert media[1..] == [Tv]; }
  }

  lemma EnrichmentPlan()
    ensures var j := At(Movie, Enrichment);
            && ValidScan(j) && Answers(QUIET, j) && Step(j, QUIET).Emitted? && !Closes(j, QUIET)
            && Step(j, QUIET).children == [Scanning(Movie, Completion)]
  {
    hide ScanPayload;
    var j := At(Movie, Enrichment);
    assert j.(phase := Completion, cursor := 0, poll := 0) == At(Movie, Completion);
    assert Step(j, QUIET).children == [] + [Scanning(Movie, Completion)];
  }

  lemma CompletionPlan()
    ensures var j := At(Movie, Completion);
            && ValidScan(j) && Answers(QUIET, j) && Step(j, QUIET).Emitted? && Closes(j, QUIET)
            && Step(j, QUIET).children == [] && Step(j, QUIET).advances
  {
    hide ScanPayload;
  }

  // ---- the common beginning -----------------------------------------------------------------------

  const ONE: seq<Media> := [Movie]
  const BOTH: seq<Media> := [Movie, Tv]

  function Entry(media: seq<Media>, status: RowStatus, attempt: nat, handed: set<Media>): Row {
    Row(Scan(ScanPayload(Root(media))), 0, status, attempt, handed)
  }

  function New(c: Child): Row {
    Row(c, 0, Live, 0, {})
  }

  /** The history of a run in which nothing has completed, been lost, merged, doubled or retried. */
  function Plainly(rows: seq<Row>, execs: seq<Execution>): Queue {
    Queue(rows, execs, multiset{}, multiset{}, multiset{}, multiset{}, multiset{})
  }

  function RootChildren(media: seq<Media>): seq<Child> {
    if |media| == 1 then [Configuration, Scanning(Movie, Enrichment)]
    else [Configuration, Scanning(Movie, Enrichment), Scanning(Tv, Enrichment)]
  }

  function RootExec(media: seq<Media>, attempt: nat, next: nat): Execution {
    Execution(0, attempt, RootChildren(media), next, Plain)
  }

  lemma RootBegins(uncut: bool, media: seq<Media>)
    requires media == ONE || media == BOTH
    ensures Reached(uncut, Root(media), Plainly([Entry(media, Live, 1, {})], [RootExec(media, 1, 0)]))
  {
    NothingYet(uncut, Root(media));
    RootPlan(media);
    hide Reached, ScanPayload, ParseScan, Step, Closes, Answers, Scanning, RootChildren;
    BeginScan(uncut, Root(media), Initial(Root(media)), 0, Root(media), RootChildren(media), Plain,
              Plainly([Entry(media, Live, 1, {})], [RootExec(media, 1, 0)]));
  }

  lemma ConfigurationIsSubmitted(uncut: bool, media: seq<Media>)
    requires media == ONE || media == BOTH
    ensures Reached(uncut, Root(media),
                    Plainly([Entry(media, Live, 1, {}), New(Configuration)], [RootExec(media, 1, 1)]))
  {
    hide Reached, ScanPayload, ParseScan, Scanning;
    RootBegins(uncut, media);
    SubmitNew(uncut, Root(media), Plainly([Entry(media, Live, 1, {})], [RootExec(media, 1, 0)]), 0, Configuration, {},
              Plainly([Entry(media, Live, 1, {}), New(Configuration)], [RootExec(media, 1, 1)]));
  }

  /** The movie coordinator is submitted. */
  lemma MoviesAreSubmitted(uncut: bool, media: seq<Media>)
    requires media == ONE || media == BOTH
    ensures Reached(uncut, Root(media),
              Plainly([Entry(media, Live, 1, {Movie}), New(Configuration), New(Scanning(Movie, Enrichment))],
                      [RootExec(media, 1, 2)]))
  {
    hide Reached, ScanPayload, ParseScan, Scanning, Carries, Carried;
    ConfigurationIsSubmitted(uncut, media);
    RootFacts(media);
    Facts(Movie, Enrichment);
    RootIsNoChild(media, Movie);
    var q := Plainly([Entry(media, Live, 1, {}), New(Configuration)], [RootExec(media, 1, 1)]);
    assert Movie in Open(q.rows[0]) && !HasLive(q.rows, Scanning(Movie, Enrichment));
    hide Open, HasLive, InPhase;
    assert {} + {Movie} == {Movie};
    SubmitFirst(uncut, Root(media), q, 0, Scanning(Movie, Enrichment), Movie,
                Plainly([Entry(media, Live, 1, {Movie}), New(Configuration), New(Scanning(Movie, Enrichment))],
                        [RootExec(media, 1, 2)]));
  }

  /** The root's payload is none of its children's. */
  lemma RootIsNoChild(media: seq<Media>, m: Media)
    requires media == ONE || media == BOTH
    ensures Scan(ScanPayload(Root(media))) != Scanning(m, Enrichment)
  {
    ScanRoundTrip(Root(media));
    ScanRoundTrip(At(m, Enrichment));
  }

  /** The configuration job runs and ends. */
  lemma ConfigurationEnds(uncut: bool, root: ScanJob, q: Queue, t: Queue)
    requires Reached(uncut, root, q) && |q.rows| > 1 && q.rows[1] == New(Configuration)
    requires forall e :: 0 <= e < |q.execs| ==> q.execs[e].row != 1
    requires t.rows == q.rows[1 := Row(Configuration, 0, Finished, 1, {})]
    requires t.execs == q.execs + [Execution(1, 1, [], 0, Plain)] && t == q.(rows := t.rows, execs := t.execs)
    ensures Reached(uncut, root, t)
  {
    hide Reached;
    var u := t.(rows := q.rows[1 := Row(Configuration, 0, Live, 1, {})]);
    Go(uncut, root, q, Begin(1, OtherRead([])), u);
    RecordPlain(uncut, root, u, |q.execs|, t);
  }

  function MovieExec(attempt: nat, next: nat): Execution {
    Execution(2, attempt, [Scanning(Movie, Completion)], next, Plain)
  }

  /** The movie enrichment, row 2, runs and submits its completion. */
  lemma MoviesComplete(uncut: bool, root: ScanJob, q: Queue, t: Queue)
    requires Reached(uncut, root, q) && |q.rows| > 2 && q.rows[2] == New(Scanning(Movie, Enrichment))
    requires forall e :: 0 <= e < |q.execs| ==> q.execs[e].row != 2
    requires !PhaseActive(q.rows, Enrichment) && !HasLive(q.rows, Scanning(Movie, Completion))
    requires t.rows
      == q.rows[2 := Row(Scanning(Movie, Enrichment), 0, Live, 1, {Movie})] + [New(Scanning(Movie, Completion))]
    requires t.execs == q.execs + [MovieExec(1, 1)] && t == q.(rows := t.rows, execs := t.execs)
    ensures Reached(uncut, root, t)
  {
    hide Reached, ScanPayload, ParseScan, Step, Closes, Answers, Carries, Carried, InPhase, PhaseActive;
    EnrichmentPlan();
    MoviePhasesDiffer();
    var u :=
      q.(rows := q.rows[2 := Row(Scanning(Movie, Enrichment), 0, Live, 1, {})], execs := q.execs + [MovieExec(1, 0)]);
    BeginScan(uncut, root, q, 2, At(Movie, Enrichment), [Scanning(Movie, Completion)], Plain, u);
    SubmitCompletion(uncut, root, u, |q.execs|, t);
  }

  lemma SubmitCompletion(uncut: bool, root: ScanJob, q: Queue, e: nat, t: Queue)
    requires Reached(uncut, root, q) && |q.rows| > 2 && q.rows[2] == Row(Scanning(Movie, Enrichment), 0, Live, 1, {})
    requires e < |q.execs| && q.execs[e] == MovieExec(1, 0) && !HasLive(q.rows, Scanning(Movie, Completion))
    requires t.rows
      == q.rows[2 := Row(Scanning(Movie, Enrichment), 0, Live, 1, {Movie})] + [New(Scanning(Movie, Completion))]
    requires t.execs == q.execs[e := MovieExec(1, 1)] && t == q.(rows := t.rows, execs := t.execs)
    ensures Reached(uncut, root, t)
  {
    hide Reached, Scanning, Carries, Carried, InPhase, HasLive, ScanPayload, ParseScan;
    Facts(Movie, Enrichment);
    Facts(Movie, Completion);
    assert {} + {Movie} == {Movie};
    assert Movie in Open(q.rows[2]);
    hide Open;
    SubmitFirst(uncut, root, q, e, Scanning(Movie, Completion), Movie, t);
  }

  lemma MoviePhasesDiffer()
    ensures Scanning(Movie, Enrichment) != Scanning(Movie, Completion)
  {
    Facts(Movie, Enrichment);
    Facts(Movie, Completion);
    hide Scanning;
  }

  function EndedConfiguration(): Row {
    Row(Configuration, 0, Finished, 1, {})
  }

  /** The gate of the movie completion in row `i` is open, and the completion advances the watermark. */
  ghost predicate GateOpens(q: Queue, i: nat) {
    Enabled(q, Begin(i, ScanRead(At(Movie, Completion), QUIET))) && Step(At(Movie, Completion), QUIET).advances
  }

  lemma GateIsOpen(q: Queue, i: nat)
    requires i < |q.rows| && q.rows[i] == New(Scanning(Movie, Completion)) && !IngestActive(q.rows)
    ensures GateOpens(q, i)
  {
    ScanRoundTrip(At(Movie, Completion));
    CompletionPlan();
    hide ScanPayload, ParseScan, Step, Answers;
  }

  // ---- scans of one medium ------------------------------------------------------------------------

  function Beside(): Queue {
    Plainly([Entry(ONE, Finished, 1, {Movie}), EndedConfiguration(),
             Row(Scanning(Movie, Enrichment), 0, Live, 1, {Movie}),
             New(Scanning(Movie, Completion))],
            [RootExec(ONE, 1, 2), Execution(1, 1, [], 0, Plain), MovieExec(1, 1)])
  }

  /** Only the names of the children matter to the gates. */
  lemma ScansBlockNothing(m: Media, phase: Phase)
    ensures !BlocksPhase(Scanning(m, phase), Enrichment) && !BlocksPhase(Configuration, Enrichment)
    ensures Scanning(m, phase).Scan? && !BlocksPhase(Scan(ScanPayload(Root(ONE))), Enrichment)
    ensures !BlocksPhase(Scan(ScanPayload(Root(BOTH))), Enrichment)
  {
    hide ScanPayload;
  }

  lemma BesideIsReached(uncut: bool)
    ensures Reached(uncut, Root(ONE), Beside())
  {
    hide Reached, ScanPayload, ParseScan, Scanning, Carries, Carried, InPhase;
    MoviesAreSubmitted(uncut, ONE);
    var movie := New(Scanning(Movie, Enrichment));
    var q := Plainly([Entry(ONE, Live, 1, {Movie}), New(Configuration), movie], [RootExec(ONE, 1, 2)]);
    var u := Plainly([Entry(ONE, Finished, 1, {Movie}), New(Configuration), movie], [RootExec(ONE, 1, 2)]);
    RecordPlain(uncut, Root(ONE), q, 0, u);
    var t := Plainly([Entry(ONE, Finished, 1, {Movie}), EndedConfiguration(), movie],
                     [RootExec(ONE, 1, 2), Execution(1, 1, [], 0, Plain)]);
    ConfigurationEnds(uncut, Root(ONE), u, t);
    ScansBlockNothing(Movie, Enrichment);
    MoviePhasesDiffer();
    MoviesComplete(uncut, Root(ONE), t, Beside());
  }

  /**
   * Even in an uncut run of a scan of one medium, the completion can begin, and advance the watermark, while the scan
   * that submitted it is still active: its success is yet to be recorded.
   */
  lemma CompletionBeginsBesideItsParent()
    ensures exists q, i, k :: Reached(true, Root(ONE), q) && GateOpens(q, i) && 0 <= k < |q.rows|
                              && q.rows[k].status.Live? && InPhase(q.rows[k].child, false)
  {
    hide Reached, ScanPayload, ParseScan, Scanning, Carries, Carried, InPhase, GateOpens;
    BesideIsReached(true);
    ScansBlockNothing(Movie, Completion);
    ScansBlockNothing(Movie, Enrichment);
    GateIsOpen(Beside(), 3);
    Facts(Movie, Enrichment);
    var parent := Beside().rows[2];
    assert parent.status.Live? && InPhase(parent.child, false);
  }

  function Completed(execs: seq<Execution>, parent: Row): Queue {
    Queue([Entry(ONE, Finished, 1, {Movie}), EndedConfiguration(), parent,
           Row(Scanning(Movie, Completion), 0, Finished, 1, {})], execs,
          multiset{Movie}, multiset{}, multiset{}, multiset{}, multiset{})
  }

  function ClosingExecs(): seq<Execution> {
    [RootExec(ONE, 1, 2), Execution(1, 1, [], 0, Plain), MovieExec(1, 1), Execution(3, 1, [], 0, Closing)]
  }

  lemma CompletionEnds()
    ensures Reached(false, Root(ONE), Completed(ClosingExecs(), Row(Scanning(Movie, Enrichment), 0, Live, 1, {Movie})))
  {
    hide Reached, ScanPayload, ParseScan, Scanning, Carries, Carried, InPhase, Step, Closes, Answers;
    BesideIsReached(false);
    ScansBlockNothing(Movie, Completion);
    ScansBlockNothing(Movie, Enrichment);
    CompletionPlan();
    Facts(Movie, Completion);
    var u := Plainly([Entry(ONE, Finished, 1, {Movie}), EndedConfiguration(),
                      Row(Scanning(Movie, Enrichment), 0, Live, 1, {Movie}),
                      Row(Scanning(Movie, Completion), 0, Live, 1, {})], ClosingExecs());
    assert Scanning(Movie, Completion) == Scan(ScanPayload(At(Movie, Completion))) by { CompletionIsScan(); }
    BeginScan(false, Root(ONE), Beside(), 3, At(Movie, Completion), [], Closing, u);
    Go(false, Root(ONE), u, Record(3),
       Completed(ClosingExecs(), Row(Scanning(Movie, Enrichment), 0, Live, 1, {Movie})));
  }

  lemma CompletionIsScan()
    ensures Scanning(Movie, Completion) == Scan(ScanPayload(At(Movie, Completion)))
    ensures Scanning(Movie, Enrichment) == Scan(ScanPayload(At(Movie, Enrichment)))
  {
  }

  /**
   * When the success of the enrichment is never recorded, it runs again after the medium has completed, and submits a
   * second completion.
   */
  lemma LostOutcomeCompletesTwice()
    ensures exists q :: Reached(false, Root(ONE), q) && q.completed[Movie] == 1 && q.doubled[Movie] == 1
                        && OpenRows(q.rows, Movie) >= 1
  {
    hide Reached, ScanPayload, ParseScan, Scanning, Carries, Carried, InPhase, Step, Closes, Answers;
    CompletionEnds();
    ScansBlockNothing(Movie, Completion);
    ScansBlockNothing(Movie, Enrichment);
    EnrichmentPlan();
    CompletionIsScan();
    MoviePhasesDiffer();
    Facts(Movie, Completion);
    var q := Completed(ClosingExecs(), Row(Scanning(Movie, Enrichment), 0, Live, 1, {Movie}));
    var parent := Row(Scanning(Movie, Enrichment), 0, Live, 2, {Movie});
    var u := Completed(ClosingExecs() + [MovieExec(2, 0)], parent);
    BeginScan(false, Root(ONE), q, 2, At(Movie, Enrichment), [Scanning(Movie, Completion)], Plain, u);
    var t := u.(rows := u.rows + [New(Scanning(Movie, Completion))], execs := ClosingExecs() + [MovieExec(2, 1)],
                doubled := multiset{Movie});
    assert {Movie} - {Movie} * Open(parent) == {Movie} && {Movie} + {Movie} == {Movie};
    SubmitNew(false, Root(ONE), u, 4, Scanning(Movie, Completion), {Movie}, t);
    NoneOpen(t.rows, Movie);
    assert Movie in Open(t.rows[4]);
  }

  // ---- scans of both media ------------------------------------------------------------------------

  /** The root is cut off after the movies; their enrichment ends, and only the completion is left of them. */
  lemma MoviesRunAhead()
    ensures Reached(false, Root(BOTH),
              Plainly([Entry(BOTH, Live, 1, {Movie}), New(Configuration),
                       Row(Scanning(Movie, Enrichment), 0, Finished, 1, {Movie}),
                       New(Scanning(Movie, Completion))], [RootExec(BOTH, 1, 2), MovieExec(1, 1)]))
  {
    hide Reached, ScanPayload, ParseScan, Scanning, Carries, Carried, InPhase;
    MoviesAreSubmitted(false, BOTH);
    ScansBlockNothing(Movie, Enrichment);
    MoviePhasesDiffer();
    RootIsNoCompletion();
    Facts(Movie, Completion);
    var movie := Scanning(Movie, Enrichment);
    var q := Plainly([Entry(BOTH, Live, 1, {Movie}), New(Configuration), New(movie)], [RootExec(BOTH, 1, 2)]);
    var u := Plainly([Entry(BOTH, Live, 1, {Movie}), New(Configuration), Row(movie, 0, Live, 1, {Movie}),
                      New(Scanning(Movie, Completion))], [RootExec(BOTH, 1, 2), MovieExec(1, 1)]);
    CompletionIsNew(q.rows);
    MoviesComplete(false, Root(BOTH), q, u);
    RecordPlain(false, Root(BOTH), u, 1,
                Plainly([Entry(BOTH, Live, 1, {Movie}), New(Configuration), Row(movie, 0, Finished, 1, {Movie}),
                         New(Scanning(Movie, Completion))], [RootExec(BOTH, 1, 2), MovieExec(1, 1)]));
  }

  lemma RootIsNoCompletion()
    ensures Scan(ScanPayload(Root(BOTH))) != Scanning(Movie, Completion)
  {
    ScanRoundTrip(Root(BOTH));
    ScanRoundTrip(At(Movie, Completion));
  }

  lemma CompletionIsNew(rows: seq<Row>)
    requires forall i :: 0 <= i < |rows| ==> rows[i].child != Scanning(Movie, Completion)
    ensures !HasLive(rows, Scanning(Movie, Completion))
  {
  }

  function CutExecs(next: nat): seq<Execution> {
    [RootExec(BOTH, 1, 2), MovieExec(1, 1), RootExec(BOTH, 2, next)]
  }

  function CutRows(): seq<Row> {
    [Entry(BOTH, Live, 2, {Movie}), New(Configuration), Row(Scanning(Movie, Enrichment), 0, Finished, 1, {Movie}),
     New(Scanning(Movie, Completion))]
  }

  lemma ConfigurationIsAbsorbed()
    ensures CutRows()[1] == New(Configuration) && HasLive(CutRows(), Configuration) && Carried(Configuration) == {}
  {
    hide ScanPayload, ParseScan, Scanning;
    assert CutRows()[1] == New(Configuration);
  }

  /** The root runs again; the configuration job is still queued and absorbs its second submission. */
  lemma RootRunsAgain()
    ensures Reached(false, Root(BOTH), Plainly(CutRows(), CutExecs(1)))
  {
    hide Reached, ScanPayload, ParseScan, Scanning, InPhase, Step, Closes, Answers, HasLive, Carries, Carried;
    MoviesRunAhead();
    RootPlan(BOTH);
    var q := Plainly(CutRows()[0 := Entry(BOTH, Live, 1, {Movie})], [RootExec(BOTH, 1, 2), MovieExec(1, 1)]);
    assert q.rows == [Entry(BOTH, Live, 1, {Movie}), New(Configuration),
                      Row(Scanning(Movie, Enrichment), 0, Finished, 1, {Movie}), New(Scanning(Movie, Completion))];
    BeginScan(false, Root(BOTH), q, 0, Root(BOTH), RootChildren(BOTH), Plain, Plainly(CutRows(), CutExecs(0)));
    ConfigurationIsAbsorbed();
    assert {} * Open(CutRows()[0]) == {} && {Movie} + {} == {Movie};
    hide Open;
    Go(false, Root(BOTH), Plainly(CutRows(), CutExecs(0)), SubmitNext(2), Plainly(CutRows(), CutExecs(1)));
  }

  /**
   * A root that is cut off between the submissions of its media, and runs again after the first has gone on, starts
   * that medium twice: two rows have yet to hand it on.
   */
  lemma CutStepStartsTwice()
    ensures exists q :: Reached(false, Root(BOTH), q) && q.doubled[Movie] == 1 && OpenRows(q.rows, Movie) >= 2
  {
    hide Reached, ScanPayload, ParseScan, Scanning, Carries, Carried, InPhase;
    RootRunsAgain();
    Facts(Movie, Enrichment);
    Facts(Movie, Completion);
    MoviePhasesDiffer();
    RootIsNoChild(BOTH, Movie);
    var movie := Scanning(Movie, Enrichment);
    var q := Plainly(CutRows(), CutExecs(1));
    var t := q.(rows := CutRows() + [New(movie)], execs := CutExecs(2), doubled := multiset{Movie});
    assert !HasLive(q.rows, movie);
    assert {Movie} - {Movie} * Open(q.rows[0]) == {Movie} && {Movie} + {Movie} == {Movie};
    SubmitNew(false, Root(BOTH), q, 2, movie, {Movie}, t);
    TwoOpen(t.rows, 3, 4, Movie);
  }

  function BothExecs(next: nat): seq<Execution> {
    [RootExec(BOTH, 1, next)]
  }

  /** Both coordinators are queued and the root has ended. */
  lemma BothAreSubmitted()
    ensures Reached(true, Root(BOTH),
              Plainly([Entry(BOTH, Finished, 1, {Movie, Tv}), New(Configuration), New(Scanning(Movie, Enrichment)),
                       New(Scanning(Tv, Enrichment))], BothExecs(3)))
  {
    hide Reached, ScanPayload, ParseScan, Scanning, Carries, Carried, InPhase;
    MoviesAreSubmitted(true, BOTH);
    RootFacts(BOTH);
    Facts(Movie, Enrichment);
    Facts(Tv, Enrichment);
    RootIsNoChild(BOTH, Tv);
    var movie, tv := Scanning(Movie, Enrichment), Scanning(Tv, Enrichment);
    var q := Plainly([Entry(BOTH, Live, 1, {Movie}), New(Configuration), New(movie)], BothExecs(2));
    assert Tv !in Carried(movie);
    assert !HasLive(q.rows, tv) && Tv in Open(q.rows[0]);
    hide HasLive, Open;
    assert {Movie} + {Tv} == {Movie, Tv};
    var u := Plainly([Entry(BOTH, Live, 1, {Movie, Tv}), New(Configuration), New(movie), New(tv)], BothExecs(3));
    SubmitFirst(true, Root(BOTH), q, 0, tv, Tv, u);
    RecordPlain(true, Root(BOTH), u, 0,
                Plainly([Entry(BOTH, Finished, 1, {Movie, Tv}), New(Configuration), New(movie), New(tv)],
                        BothExecs(3)));
  }

  function Overlooked(tv: Row): Queue {
    Plainly([Entry(BOTH, Finished, 1, {Movie, Tv}), EndedConfiguration(),
             Row(Scanning(Movie, Enrichment), 0, Finished, 1, {Movie}), tv, New(Scanning(Movie, Completion))],
            [RootExec(BOTH, 1, 3), Execution(1, 1, [], 0, Plain), MovieExec(1, 1)])
  }

  /** The movies come to their gate while the television coordinator waits. */
  lemma OverlookedIsReached()
    ensures Reached(true, Root(BOTH), Overlooked(New(Scanning(Tv, Enrichment))))
  {
    hide Reached, ScanPayload, ParseScan, Scanning, Carries, Carried, InPhase;
    BothAreSubmitted();
    ScansBlockNothing(Movie, Enrichment);
    ScansBlockNothing(Tv, Enrichment);
    MoviePhasesDiffer();
    Facts(Tv, Enrichment);
    Facts(Movie, Completion);
    var movie, tv, root := Scanning(Movie, Enrichment), Scanning(Tv, Enrichment), Entry(BOTH, Finished, 1, {Movie, Tv});
    assert Tv !in Carried(Scanning(Movie, Completion));
    var q := Plainly([root, New(Configuration), New(movie), New(tv)], BothExecs(3));
    var u := Plainly([root, EndedConfiguration(), New(movie), New(tv)],
                     [RootExec(BOTH, 1, 3), Execution(1, 1, [], 0, Plain)]);
    ConfigurationEnds(true, Root(BOTH), q, u);
    var t := Plainly([root, EndedConfiguration(), Row(movie, 0, Live, 1, {Movie}), New(tv),
                      New(Scanning(Movie, Completion))],
                     [RootExec(BOTH, 1, 3), Execution(1, 1, [], 0, Plain), MovieExec(1, 1)]);
    MoviesComplete(true, Root(BOTH), u, t);
    RecordPlain(true, Root(BOTH), t, 2, Overlooked(New(tv)));
  }

  /**
   * A scan of both media can complete the movies, and advance its watermark, while the enrichment of television has
   * not begun: the gate counts `ingest.*` jobs, and the waiting coordinator is an `admin.scan`.
   */
  lemma CompletionOverlooksCoordinators()
    ensures exists q :: Reached(true, Root(BOTH), q) && GateOpens(q, 4) && EarlierPhasePending(q, Tv)
                        && !PhasesOver(q, Tv)
  {
    hide Reached, ScanPayload, ParseScan, Scanning, Carries, Carried, InPhase, GateOpens;
    OverlookedIsReached();
    Facts(Movie, Enrichment);
    Facts(Tv, Enrichment);
    Facts(Movie, Completion);
    var q := Overlooked(New(Scanning(Tv, Enrichment)));
    assert Scan(ScanPayload(Root(BOTH))).Scan?;
    GateIsOpen(q, 4);
    assert Tv in Open(q.rows[3]);
    assert EarlierPhasePending(q, Tv);
    assert !PhasesOver(q, Tv);
  }

  function LostQueue(): Queue {
    Overlooked(Row(Scanning(Tv, Enrichment), 0, Lost, 0, {})).(lost := multiset{Tv})
  }

  lemma LostIsReached()
    ensures Reached(true, Root(BOTH), LostQueue())
  {
    hide Reached, ScanPayload, ParseScan, Scanning, Carries, Carried, InPhase;
    OverlookedIsReached();
    Facts(Tv, Enrichment);
    var q := Overlooked(New(Scanning(Tv, Enrichment)));
    assert Open(q.rows[3]) == {Tv};
    Go(true, Root(BOTH), q, Lose(3), LostQueue());
  }

  /** ... and likewise when the television coordinator has been dead-lettered or cancelled. */
  lemma CompletionOverlooksLostScans()
    ensures exists q :: Reached(true, Root(BOTH), q) && GateOpens(q, 4) && !EarlierPhasePending(q, Tv)
                        && q.lost[Tv] == 1 && !PhasesOver(q, Tv)
  {
    hide Reached, ScanPayload, ParseScan, Scanning, Carries, Carried, InPhase, GateOpens;
    LostIsReached();
    Facts(Movie, Enrichment);
    Facts(Tv, Enrichment);
    Facts(Movie, Completion);
    var q := LostQueue();
    assert Scan(ScanPayload(Root(BOTH))).Scan?;
    GateIsOpen(q, 4);
    assert !EarlierPhasePending(q, Tv) && !PhasesOver(q, Tv);
  }

  /**
   * An operator's retry of the lost coordinator puts the medium in two places: it was lost, and it is carried again.
   */
  lemma RetryCountsTwice()
    ensures exists q :: Reached(false, Root(BOTH), q) && q.retried[Tv] == 1 && q.lost[Tv] == 1 && Places(q, Tv) >= 2
  {
    hide Reached, ScanPayload, ParseScan, Scanning, Carries, Carried, InPhase;
    LostIsReached();
    CutsAreAllowed(Root(BOTH), LostQueue());
    Facts(Tv, Enrichment);
    var q := LostQueue();
    var again := Row(Scanning(Tv, Enrichment), 5, Live, 0, {});
    var t := q.(rows := q.rows + [again], retried := multiset{Tv});
    Go(false, Root(BOTH), q, Retry(3), t);
    assert Tv in Open(t.rows[5]);
    NoneOpen(t.rows, Tv);
  }

  lemma CutsAreAllowed(root: ScanJob, q: Queue)
    requires Reached(true, root, q)
    ensures Reached(false, root, q)
  {
  }
}
