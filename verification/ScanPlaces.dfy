// Where each medium of a scan stands, over every run: how many rows have yet to hand it on, how often it completed or
// was lost, and that it is never silently dropped.
module ScanPlaces {
  import opened Catalog
  import opened JobQueue
  import opened ScanCoordinator
  import opened ScanRuns
  import opened Widths

  // ---- carriers only move ahead -------------------------------------------------------------------

  /** How far along a carrier is: its phase, its cursor or offset, and its polls. */
  datatype Spot = Spot(rank: nat, at: nat, poll: nat)

  function SpotOf(c: Child): Spot {
    match c
    case Scan(payload) =>
      if ParseScan(payload).Parsed? then
        var j := ParseScan(payload).job;
        Spot(if j.phase.Start? then 0 else PhaseRank(j.phase) + 1, j.cursor, j.poll)
      else Spot(0, 0, 0)
    case Export(_, _, offset) => Spot(1, offset, 0)
    case _ => Spot(0, 0, 0)
  }

  predicate Ahead(a: Spot, b: Spot) {
    a.rank > b.rank || (a.rank == b.rank && (a.at > b.at || (a.at == b.at && a.poll > b.poll)))
  }

  lemma ScanMovesAhead(next: ScanJob, j: ScanJob, waiting: bool)
    requires Succeeds(next, j, waiting)
    ensures Ahead(SpotOf(Scan(ScanPayload(next))), SpotOf(Scan(ScanPayload(j))))
  {
    ScanRoundTrip(next);
    ScanRoundTrip(j);
  }

  /**
   * What an execution is about to submit: carriers of its own media, each once and ahead of it, and all if it
   * succeeds.
   */
  ghost predicate PlanOk(c: Child, children: seq<Child>, ending: Ending) {
    && (forall k, m: Media :: 0 <= k < |children| && Carries(children[k], m) ==>
          Carries(c, m) && Ahead(SpotOf(children[k]), SpotOf(c)))
    && (ending.Plain? ==> forall m: Media :: Carries(c, m) ==> Tokens(children, m) == 1)
    && (ending.Closing? ==> children == [])
    && (forall m: Media :: Tokens(children, m) <= 1)
  }

  /** A scan that a step emits is ahead of the step's own. */
  lemma EmittedIsAhead(j: ScanJob, w: World, k: nat)
    requires Runnable(j) && Answers(w, j) && k < |Step(j, w).children| && Step(j, w).children[k].Scan?
    ensures Ahead(SpotOf(Step(j, w).children[k]), SpotOf(Scan(ScanPayload(j))))
  {
    StepIsClosed(j, w);
    var c := Step(j, w).children[k];
    assert c in Step(j, w).children;
    hide Step, Answers, ScanPayload, ParseScan, SpotOf;
    assert GoodChild(c, j, Waits(Step(j, w)));
    var next :| c.payload == ScanPayload(next) && ParseScan(c.payload) == Parsed(next)
      && Succeeds(next, j, Waits(Step(j, w)));
    ScanMovesAhead(next, j, Waits(Step(j, w)));
  }

  lemma NoTokensNoExports(children: seq<Child>)
    requires forall m: Media :: Tokens(children, m) == 0
    ensures forall i :: 0 <= i < |children| ==> !FullExport(children[i])
  {
    hide Tokens, ParseScan;
    assert forall c: Child :: FullExport(c) ==> c.Export? && Carries(c, c.medium);
    hide Carries, FullExport;
    forall i | 0 <= i < |children| ensures !FullExport(children[i]) {
      if FullExport(children[i]) { NoTokens(children, children[i].medium); }
    }
  }

  /** Only a start leaves full exports. */
  lemma PhasesLeaveNoExports(j: ScanJob, w: World)
    requires Runnable(j) && Answers(w, j) && !j.phase.Start?
    ensures forall k :: 0 <= k < |Step(j, w).children| ==> !FullExport(Step(j, w).children[k])
  {
    hide ScanPayload, ParseScan, TitleChildren, SeasonChildren;
    if !w.active && !j.phase.Completion? && w.batch.Ok? {
      var rows := w.batch.batch.rows;
      if j.phase.Enrichment? {
        forall m: Media
          ensures Tokens(TitleChildren(w.table, rows, true), m) == 0
        {
          TitlesCarryNothing(w.table, rows, true, m);
        }
        NoTokensNoExports(TitleChildren(w.table, rows, true));
      } else {
        forall m: Media ensures Tokens(SeasonChildren(w.table, rows), m) == 0 { SeasonsCarryNothing(w.table, rows, m); }
        NoTokensNoExports(SeasonChildren(w.table, rows));
      }
    }
  }

  lemma StepTokens(j: ScanJob, w: World, m: Media)
    requires Runnable(j) && Phased(j.mode) && Answers(w, j)
    ensures Tokens(Step(j, w).children, m) == if HandsOn(j, w) && m in j.media then 1 else 0
  {
    if j.phase.Start? { StartTokens(j, w, m); } else { PhaseTokens(j, w, m); }
  }

  lemma StepCarrierIsAhead(j: ScanJob, w: World, k: nat, m: Media)
    requires Runnable(j) && Phased(j.mode) && Answers(w, j)
    requires k < |Step(j, w).children| && Carries(Step(j, w).children[k], m)
    ensures m in j.media && Ahead(SpotOf(Step(j, w).children[k]), SpotOf(Scan(ScanPayload(j))))
  {
    StepTokens(j, w, m);
    NoTokens(Step(j, w).children, m);
    if Step(j, w).children[k].Scan? {
      EmittedIsAhead(j, w, k);
    } else {
      if !j.phase.Start? { PhasesLeaveNoExports(j, w); }
      ScanRoundTrip(j);
      hide Step, ScanPayload, ParseScan, Answers;
    }
  }

  lemma EndingFacts(j: ScanJob, w: World)
    requires Runnable(j) && Answers(w, j)
    ensures Closes(j, w) ==> Step(j, w).children == []
    ensures HandsOn(j, w) <==> !Step(j, w).DeadLettered? && !Closes(j, w)
  {
    hide ScanPayload, ParseScan, Answers, StartStep;
  }

  lemma PayloadFacts(j: ScanJob, payload: Value)
    requires ValidScan(j) && ParseScan(payload) == Parsed(j)
    ensures SpotOf(Scan(payload)) == SpotOf(Scan(ScanPayload(j)))
    ensures forall m: Media :: Carries(Scan(payload), m) <==> m in j.media
  {
    ScanRoundTrip(j);
  }

  lemma ScanPlan(j: ScanJob, w: World, payload: Value)
    requires Runnable(j) && Phased(j.mode) && Answers(w, j) && ParseScan(payload) == Parsed(j)
    ensures PlanOk(Scan(payload), Step(j, w).children,
                   if Step(j, w).DeadLettered? then Failing else if Closes(j, w) then Closing else Plain)
  {
    hide Step, Closes, HandsOn, ScanPayload, ParseScan, Carries, Answers, SpotOf, Tokens;
    var c, children := Scan(payload), Step(j, w).children;
    PayloadFacts(j, payload);
    EndingFacts(j, w);
    forall m: Media
      ensures Tokens(children, m) == if HandsOn(j, w) && m in j.media then 1 else 0
    {
      StepTokens(j, w, m);
    }
    forall k, m: Media | 0 <= k < |children| && Carries(children[k], m)
      ensures Carries(c, m) && Ahead(SpotOf(children[k]), SpotOf(c))
    {
      StepCarrierIsAhead(j, w, k, m);
    }
  }

  lemma LeftCarryNothing(c: Child, more: seq<Child>, m: Media)
    requires MayLeave(c, more)
    ensures Tokens(more, m) == 0
  {
    NoTokens(more, m);
  }

  lemma ExportPlan(c: Child, last: bool, nextOffset: nat, more: seq<Child>)
    requires FullExport(c) && nextOffset > c.offset && MayLeave(c, more)
    ensures PlanOk(c, more + [Following(c, last, nextOffset)], Plain)
  {
    var next, children := Following(c, last, nextOffset), more + [Following(c, last, nextOffset)];
    ScanRoundTrip(ExportEnrichment(c.medium));
    assert Ahead(SpotOf(next), SpotOf(c)) && forall m: Media :: Carries(next, m) <==> m == c.medium;
    assert forall m: Media :: Carries(c, m) <==> m == c.medium;
    assert forall k, m: Media :: 0 <= k < |more| ==> !Carries(more[k], m);
    hide ScanPayload, ParseScan, SpotOf, Carries, MayLeave, Following;
    forall m: Media ensures Tokens(children, m) == (if m == c.medium then 1 else 0) {
      LeftCarryNothing(c, more, m);
      TokensConcat(more, [next], m);
    }
    assert forall k :: 0 <= k < |more| ==> children[k] == more[k];
  }

  lemma OtherPlan(c: Child, more: seq<Child>)
    requires !c.Scan? && !FullExport(c) && MayLeave(c, more)
    ensures PlanOk(c, more, Plain)
  {
    forall m: Media ensures Tokens(more, m) == 0 { LeftCarryNothing(c, more, m); }
  }

  lemma ReadGivesPlan(rows: seq<Row>, c: Child, read: Read, root: ScanJob)
    requires Accepted(c, root) && Phased(root.mode) && Reads(rows, c, read)
    ensures PlanOk(c, ChildrenOf(rows, c, read), EndingOf(rows, c, read))
  {
    match read
    case ScanRead(j, w) => ScanPlan(j, w, c.payload);
    case ExportRead(last, nextOffset, more) => ExportPlan(c, last, nextOffset, more);
    case OtherRead(more) => OtherPlan(c, more);
  }

  // ---- executions keep to their plans -------------------------------------------------------------

  ghost predicate ExecutionOk(rows: seq<Row>, x: Execution) {
    && x.row < |rows| && x.next <= |x.children| && 1 <= x.attempt <= rows[x.row].attempt
    && PlanOk(rows[x.row].child, x.children, x.ending)
    && (forall k :: 0 <= k < x.next ==> Carried(x.children[k]) <= rows[x.row].handed)
  }

  ghost predicate PlansHold(q: Queue) {
    && (forall e :: 0 <= e < |q.execs| ==> ExecutionOk(q.rows, q.execs[e]))
    && (forall i :: 0 <= i < |q.rows| ==> q.rows[i].handed <= Carried(q.rows[i].child))
  }

  lemma ExecutionStaysOk(q: Queue, t: Queue, e: nat)
    requires Evolves(q, t) && e < |q.execs| && ExecutionOk(q.rows, q.execs[e]) && t.execs[e] == q.execs[e]
    ensures ExecutionOk(t.rows, t.execs[e])
  {
    hide PlanOk, Carries;
  }

  lemma BeginKeepsPlans(q: Queue, a: Action, root: ScanJob)
    requires PlansHold(q) && QueueAccepted(q, root) && Phased(root.mode) && Enabled(q, a) && a.Begin?
    ensures PlansHold(Apply(q, a))
  {
    hide PlanOk, Accepted, Reads, ChildrenOf, EndingOf, Apply, Carries;
    var t := Apply(q, a);
    StepShape(q, a);
    BeginShape(q, a);
    ReadGivesPlan(q.rows, q.rows[a.row].child, a.read, root);
    forall e | 0 <= e < |t.execs| ensures ExecutionOk(t.rows, t.execs[e]) {
      if e < |q.execs| { ExecutionStaysOk(q, t, e); }
    }
  }

  /** What a submission does to the row it is made for, to the others, and to the execution. */
  lemma SubmitEffect(q: Queue, a: Action)
    requires Enabled(q, a) && a.SubmitNext?
    ensures var t, x := Apply(q, a), q.execs[a.exec];
            var c, r := x.children[x.next], q.rows[x.row];
            && t.execs == q.execs[a.exec := x.(next := x.next + 1)]
            && t.rows[..|q.rows|] == q.rows[x.row := r.(handed := r.handed + Carried(c))]
            && t.completed == q.completed && t.lost == q.lost && t.retried == q.retried
            && (if HasLive(q.rows, c) then
                  |t.rows| == |q.rows| && t.merged == q.merged + multiset(Carried(c) * Open(r))
                    && t.doubled == q.doubled
                else
                  && t.rows == t.rows[..|q.rows|] + [Row(c, 0, Live, 0, {})]
                  && t.doubled == q.doubled + multiset(Carried(c) - Carried(c) * Open(r)) && t.merged == q.merged)
  {
    hide HasLive, Carried, Open;
  }

  /** The rows after a submission, one by one. */
  lemma SubmitRows(q: Queue, a: Action)
    requires Enabled(q, a) && a.SubmitNext?
    ensures var t, x := Apply(q, a), q.execs[a.exec];
            var c, r := x.children[x.next], q.rows[x.row];
            && |t.rows| >= |q.rows| && t.rows[x.row] == r.(handed := r.handed + Carried(c))
            && (forall k :: 0 <= k < |q.rows| && k != x.row ==> t.rows[k] == q.rows[k])
            && (forall k :: |q.rows| <= k < |t.rows| ==> t.rows[k] == Row(c, 0, Live, 0, {}))
  {
    hide HasLive, Carried, Open;
  }

  lemma SubmittedStaysOk(rows: seq<Row>, later: seq<Row>, x: Execution)
    requires ExecutionOk(rows, x) && x.next < |x.children| && |rows| <= |later|
    requires later[x.row].child == rows[x.row].child && later[x.row].attempt >= rows[x.row].attempt
    requires rows[x.row].handed + Carried(x.children[x.next]) <= later[x.row].handed
    ensures ExecutionOk(later, x.(next := x.next + 1))
  {
    hide PlanOk, Carried;
  }

  lemma SubmitKeepsPlans(q: Queue, a: Action)
    requires PlansHold(q) && Enabled(q, a) && a.SubmitNext?
    ensures PlansHold(Apply(q, a))
  {
    var t, x := Apply(q, a), q.execs[a.exec];
    var c, r := x.children[x.next], q.rows[x.row];
    assert ExecutionOk(q.rows, x) && Carried(c) <= Carried(r.child);
    hide PlanOk, ExecutionOk, HasLive, Apply, Carried, Enabled, Open, AddsRow;
    StepShape(q, a);
    SubmitEffect(q, a);
    forall i | 0 <= i < |t.rows| ensures t.rows[i].handed <= Carried(t.rows[i].child) {
      if i < |q.rows| { assert t.rows[i] == t.rows[..|q.rows|][i]; }
    }
    forall e | 0 <= e < |t.execs| ensures ExecutionOk(t.rows, t.execs[e]) {
      if e == a.exec {
        assert t.rows[x.row] == t.rows[..|q.rows|][x.row];
        SubmittedStaysOk(q.rows, t.rows, x);
      } else {
        ExecutionStaysOk(q, t, e);
      }
    }
  }

  lemma StepKeepsPlans(q: Queue, a: Action, root: ScanJob)
    requires PlansHold(q) && QueueAccepted(q, root) && Phased(root.mode) && Enabled(q, a)
    ensures PlansHold(Apply(q, a))
  {
    if a.Begin? {
      BeginKeepsPlans(q, a, root);
    } else if a.SubmitNext? {
      SubmitKeepsPlans(q, a);
    } else {
      OtherKeepsPlans(q, a);
    }
  }

  predicate HandsNothing(q: Queue, t: Queue) {
    && t.execs == q.execs && |q.rows| <= |t.rows| <= |q.rows| + 1
    && (forall i :: 0 <= i < |q.rows| ==> t.rows[i].handed == q.rows[i].handed)
    && (|t.rows| > |q.rows| ==> t.rows[|q.rows|].handed == {})
  }

  lemma OtherEffect(q: Queue, a: Action)
    requires Enabled(q, a) && (a.Record? || a.Lose? || a.Retry?)
    ensures HandsNothing(q, Apply(q, a))
  {
    hide Carried, Open;
  }

  lemma OtherKeepsPlans(q: Queue, a: Action)
    requires PlansHold(q) && Enabled(q, a) && (a.Record? || a.Lose? || a.Retry?)
    ensures PlansHold(Apply(q, a))
  {
    StepShape(q, a);
    OtherEffect(q, a);
    hide PlanOk, Apply, Carries, Enabled;
    forall e | 0 <= e < |q.execs|
      ensures ExecutionOk(Apply(q, a).rows, q.execs[e])
    {
      ExecutionStaysOk(q, Apply(q, a), e);
    }
  }

  // ---- the balance of places ----------------------------------------------------------------------

  function Count(b: bool): nat {
    if b then 1 else 0
  }

  /** How many rows have yet to hand the medium on. */
  function OpenRows(rows: seq<Row>, m: Media): nat {
    if rows == [] then 0 else OpenRows(rows[..|rows| - 1], m) + Count(m in Open(rows[|rows| - 1]))
  }

  lemma OpenAppend(rows: seq<Row>, r: Row, m: Media)
    ensures OpenRows(rows + [r], m) == OpenRows(rows, m) + Count(m in Open(r))
  {
    assert (rows + [r])[..|rows|] == rows;
  }

  lemma {:induction false} OpenUpdate(rows: seq<Row>, i: nat, r: Row, m: Media)
    requires i < |rows|
    ensures OpenRows(rows[i := r], m) + Count(m in Open(rows[i])) == OpenRows(rows, m) + Count(m in Open(r))
  {
    hide Open;
    var n := |rows| - 1;
    if i < n {
      OpenUpdate(rows[..n], i, r, m);
      assert rows[i := r][..n] == rows[..n][i := r];
    } else {
      assert rows[i := r][..n] == rows[..n];
    }
  }

  lemma {:induction false} NoneOpen(rows: seq<Row>, m: Media)
    ensures OpenRows(rows, m) == 0 <==> forall i :: 0 <= i < |rows| ==> m !in Open(rows[i])
  {
    hide Open;
    if rows != [] { NoneOpen(rows[..|rows| - 1], m); }
  }

  /** Two open rows count as two. */
  lemma TwoOpen(rows: seq<Row>, i: nat, k: nat, m: Media)
    requires i < |rows| && k < |rows| && i != k && m in Open(rows[i]) && m in Open(rows[k])
    ensures OpenRows(rows, m) >= 2
  {
    var closed := rows[i].(status := Finished);
    OpenUpdate(rows, i, closed, m);
    assert m !in Open(closed);
    NoneOpen(rows[i := closed], m);
    hide Open;
    assert m in Open(rows[i := closed][k]);
  }

  /** Where a medium stands: rows that carry it, completions and losses. */
  function Places(q: Queue, m: Media): nat {
    OpenRows(q.rows, m) + q.completed[m] + q.lost[m]
  }

  predicate Balanced(q: Queue, m: Media) {
    Places(q, m) + q.merged[m] == 1 + q.doubled[m] + q.retried[m]
  }

  lemma BeginBalances(q: Queue, a: Action, m: Media)
    requires Enabled(q, a) && a.Begin? && Balanced(q, m)
    ensures Balanced(Apply(q, a), m)
  {
    hide ChildrenOf, EndingOf, Reads;
    OpenUpdate(q.rows, a.row, q.rows[a.row].(attempt := q.rows[a.row].attempt + 1), m);
  }

  lemma SubmitBalances(q: Queue, a: Action, m: Media)
    requires PlansHold(q) && Enabled(q, a) && a.SubmitNext? && Balanced(q, m)
    ensures Balanced(Apply(q, a), m)
  {
    var x := q.execs[a.exec];
    var c, r := x.children[x.next], q.rows[x.row];
    assert ExecutionOk(q.rows, x) && Carried(c) <= Carried(r.child);
    hide PlansHold, ExecutionOk, HasLive, Carries;
    SubmitEffect(q, a);
    hide Apply, Enabled, OpenRows;
    var handed := r.(handed := r.handed + Carried(c));
    OpenUpdate(q.rows, x.row, handed, m);
    OpenAppend(q.rows[x.row := handed], Row(c, 0, Live, 0, {}), m);
  }

  /** An execution that has submitted everything and is to succeed has handed on all its media. */
  lemma PlainHandedAll(q: Queue, e: nat)
    requires PlansHold(q) && e < |q.execs| && q.execs[e].next == |q.execs[e].children| && q.execs[e].ending.Plain?
    ensures Open(q.rows[q.execs[e].row]) == {}
  {
    var x := q.execs[e];
    assert ExecutionOk(q.rows, x);
    hide PlansHold, Carries;
    var r := q.rows[x.row];
    forall m: Media | m in Carried(r.child) ensures m in r.handed {
      NoTokens(x.children, m);
      var k :| 0 <= k < |x.children| && Carries(x.children[k], m);
      assert m in Carried(x.children[k]);
    }
  }

  /** What the record of an outcome does to its row and the tallies of a medium. */
  lemma RecordEffect(q: Queue, a: Action, m: Media)
    requires Enabled(q, a) && a.Record?
    ensures var t, x := Apply(q, a), q.execs[a.exec];
            var r := q.rows[x.row];
            && t.rows == q.rows[x.row := r.(status := if x.ending.Failing? then Lost else Finished)]
            && t.merged == q.merged && t.retried == q.retried
            && t.completed[m] == q.completed[m] + Count(x.ending.Closing? && m in Carried(r.child))
            && t.doubled[m] == q.doubled[m] + Count(x.ending.Closing? && m in Carried(r.child) && m !in Open(r))
            && t.lost[m] == q.lost[m] + Count(x.ending.Failing? && m in Open(r))
  {
    hide Carried, Open;
  }

  lemma RecordBalances(q: Queue, a: Action, m: Media)
    requires PlansHold(q) && Enabled(q, a) && a.Record? && Balanced(q, m)
    ensures Balanced(Apply(q, a), m)
  {
    hide PlansHold, Carries, OpenRows, Apply;
    var x := q.execs[a.exec];
    var r := q.rows[x.row];
    var ended := r.(status := if x.ending.Failing? then Lost else Finished);
    assert m !in Open(ended) && (m in Open(r) ==> m in Carried(r.child));
    assert x.ending.Plain? ==> m !in Open(r) by {
      if x.ending.Plain? { PlainHandedAll(q, a.exec); }
    }
    RecordEffect(q, a, m);
    hide Carried, Open, Enabled;
    OpenUpdate(q.rows, x.row, ended, m);
  }

  lemma StepBalances(q: Queue, a: Action, m: Media)
    requires PlansHold(q) && Enabled(q, a) && Balanced(q, m)
    ensures Balanced(Apply(q, a), m)
  {
    match a
    case Begin(_, _) => BeginBalances(q, a, m);
    case SubmitNext(_) => SubmitBalances(q, a, m);
    case Record(_) => RecordBalances(q, a, m);
    case Lose(i) => hide Carries; OpenUpdate(q.rows, i, q.rows[i].(status := Lost), m);
    case Retry(i) => hide Carries; OpenAppend(q.rows, Row(q.rows[i].child, |q.rows|, Live, 0, {}), m);
  }

  // ---- no medium is dropped -----------------------------------------------------------------------

  /** A row further along than row `i` has yet to hand the medium on. */
  predicate HasFollower(rows: seq<Row>, i: nat, m: Media)
    requires i < |rows|
  {
    exists k :: 0 <= k < |rows| && m in Open(rows[k]) && Ahead(SpotOf(rows[k].child), SpotOf(rows[i].child))
  }

  /** A live row that has handed the medium on. */
  predicate HandedOn(r: Row, m: Media) {
    r.status.Live? && Carries(r.child, m) && m in r.handed
  }

  predicate Watched(rows: seq<Row>, m: Media) {
    && (exists i :: 0 <= i < |rows| && m in Open(rows[i]))
    && (forall i :: 0 <= i < |rows| && HandedOn(rows[i], m) ==> HasFollower(rows, i, m))
  }

  /** The medium is carried on, or its completion has run, or it was lost. */
  predicate Kept(q: Queue, m: Media) {
    q.completed[m] > 0 || q.lost[m] > 0 || Watched(q.rows, m)
  }

  /** Later rows in which the medium is handed on by no further row, and no open row has closed. */
  predicate SameForMedium(rows: seq<Row>, later: seq<Row>, m: Media) {
    && |rows| <= |later|
    && (forall i :: 0 <= i < |rows| ==>
          later[i].child == rows[i].child && (m in Open(rows[i]) ==> m in Open(later[i]))
          && (HandedOn(later[i], m) ==> HandedOn(rows[i], m)))
    && (forall i :: |rows| <= i < |later| ==> m !in later[i].handed)
  }

  lemma WatchedStays(rows: seq<Row>, later: seq<Row>, m: Media)
    requires Watched(rows, m) && SameForMedium(rows, later, m)
    ensures Watched(later, m)
  {
    hide Open, SpotOf, Ahead, Carries;
    var o :| 0 <= o < |rows| && m in Open(rows[o]);
    assert m in Open(later[o]);
    forall i | 0 <= i < |later| && HandedOn(later[i], m) ensures HasFollower(later, i, m) {
      assert HasFollower(rows, i, m);
      var k :| 0 <= k < |rows| && m in Open(rows[k]) && Ahead(SpotOf(rows[k].child), SpotOf(rows[i].child));
      assert m in Open(later[k]);
    }
  }

  /** Row `i` hands the medium on, and row `f` is further along and has not. */
  lemma HandOver(rows: seq<Row>, later: seq<Row>, i: nat, f: nat, m: Media)
    requires Watched(rows, m) && i < |rows| <= |later| && f < |later| && m in Open(later[f])
    requires Ahead(SpotOf(later[f].child), SpotOf(rows[i].child)) && later[i].child == rows[i].child
    requires forall k :: 0 <= k < |rows| && k != i ==> later[k] == rows[k]
    requires forall k :: |rows| <= k < |later| ==> m !in later[k].handed
    ensures Watched(later, m)
  {
    hide Open, SpotOf, Carries;
    forall j | 0 <= j < |later| && HandedOn(later[j], m) ensures HasFollower(later, j, m) {
      if j != i {
        assert HasFollower(rows, j, m);
        var k :| 0 <= k < |rows| && m in Open(rows[k]) && Ahead(SpotOf(rows[k].child), SpotOf(rows[j].child));
        assert m in Open(later[if k == i then f else k]);
      }
    }
  }

  /** A live row of the same child is open for the medium, or is followed by one that is. */
  lemma AbsorberOrFollower(rows: seq<Row>, i: nat, c: Child, m: Media) returns (f: nat)
    requires Watched(rows, m) && i < |rows| && HasLive(rows, c) && Carries(c, m)
    requires Ahead(SpotOf(c), SpotOf(rows[i].child))
    ensures f < |rows| && f != i && m in Open(rows[f]) && Ahead(SpotOf(rows[f].child), SpotOf(rows[i].child))
  {
    hide SpotOf;
    var j :| 0 <= j < |rows| && rows[j].status.Live? && rows[j].child == c && rows[j].key == 0;
    if m in Open(rows[j]) {
      f := j;
    } else {
      assert HandedOn(rows[j], m) && HasFollower(rows, j, m);
      f :| 0 <= f < |rows| && m in Open(rows[f]) && Ahead(SpotOf(rows[f].child), SpotOf(rows[j].child));
    }
  }

  lemma SubmitHandsOver(q: Queue, a: Action, m: Media)
    requires PlansHold(q) && Enabled(q, a) && a.SubmitNext? && Watched(q.rows, m)
    requires var x := q.execs[a.exec]; m in Carried(x.children[x.next]) && m in Open(q.rows[x.row])
    ensures Watched(Apply(q, a).rows, m)
  {
    var t, x := Apply(q, a), q.execs[a.exec];
    var c, r := x.children[x.next], q.rows[x.row];
    SubmitEffect(q, a);
    SubmitRows(q, a);
    assert ExecutionOk(q.rows, x) && Ahead(SpotOf(c), SpotOf(r.child)) && Carries(c, m);
    hide PlansHold, ExecutionOk, Apply, Enabled, SpotOf, HasLive, Watched, Carried;
    if HasLive(q.rows, c) {
      var f := AbsorberOrFollower(q.rows, x.row, c, m);
      HandOver(q.rows, t.rows, x.row, f, m);
    } else {
      NewRowIsOpen(c, m);
      HandOver(q.rows, t.rows, x.row, |q.rows|, m);
    }
  }

  lemma NewRowIsOpen(c: Child, m: Media)
    requires Carries(c, m)
    ensures m in Open(Row(c, 0, Live, 0, {}))
  {
  }

  /** One row changes without closing for the medium or newly handing it on; others may be appended. */
  lemma ChangeElsewhere(rows: seq<Row>, later: seq<Row>, i: nat, m: Media)
    requires i < |rows| <= |later| && later[i].child == rows[i].child
    requires m in Open(rows[i]) ==> m in Open(later[i])
    requires HandedOn(later[i], m) ==> HandedOn(rows[i], m)
    requires forall k :: 0 <= k < |rows| && k != i ==> later[k] == rows[k]
    requires forall k :: |rows| <= k < |later| ==> m !in later[k].handed
    ensures SameForMedium(rows, later, m)
  {
    hide Open, HandedOn;
  }

  lemma HandingElsewhere(r: Row, media: set<Media>, m: Media)
    requires media <= Carried(r.child) && (m !in media || m !in Open(r))
    ensures var t := r.(handed := r.handed + media);
            (m in Open(r) ==> m in Open(t)) && (HandedOn(t, m) ==> HandedOn(r, m))
  {
    hide Carries;
  }

  lemma SubmitElsewhere(q: Queue, a: Action, m: Media)
    requires PlansHold(q) && Enabled(q, a) && a.SubmitNext?
    requires var x := q.execs[a.exec]; m !in Carried(x.children[x.next]) || m !in Open(q.rows[x.row])
    ensures SameForMedium(q.rows, Apply(q, a).rows, m)
  {
    var t, x := Apply(q, a), q.execs[a.exec];
    var c, r := x.children[x.next], q.rows[x.row];
    SubmitRows(q, a);
    assert ExecutionOk(q.rows, x) && Carried(c) <= Carried(r.child);
    hide PlansHold, ExecutionOk, Apply, Enabled, HasLive, Carries, Carried, Open, HandedOn, SameForMedium;
    HandingElsewhere(r, Carried(c), m);
    ChangeElsewhere(q.rows, t.rows, x.row, m);
  }

  /** A row that ends with nothing open for the medium. */
  lemma EndElsewhere(rows: seq<Row>, i: nat, r: Row, m: Media)
    requires i < |rows| && r == rows[i].(status := r.status) && !r.status.Live? && m !in Open(rows[i])
    ensures SameForMedium(rows, rows[i := r], m)
  {
    ChangeElsewhere(rows, rows[i := r], i, m);
  }

  lemma RecordKeeps(q: Queue, a: Action, m: Media)
    requires PlansHold(q) && Enabled(q, a) && a.Record? && Kept(q, m)
    ensures Kept(Apply(q, a), m)
  {
    var x := q.execs[a.exec];
    var r := q.rows[x.row];
    if x.ending.Plain? { PlainHandedAll(q, a.exec); }
    hide PlansHold, Watched, Carries, SameForMedium;
    if m !in Open(r) {
      EndElsewhere(q.rows, x.row, r.(status := Finished), m);
      EndElsewhere(q.rows, x.row, r.(status := Lost), m);
      if Watched(q.rows, m) {
        WatchedStays(q.rows, q.rows[x.row := r.(status := Finished)], m);
        WatchedStays(q.rows, q.rows[x.row := r.(status := Lost)], m);
      }
    }
  }

  lemma LossKeeps(q: Queue, a: Action, m: Media)
    requires Enabled(q, a) && a.Lose? && Kept(q, m)
    ensures Kept(Apply(q, a), m)
  {
    hide Watched, Carries, SameForMedium;
    if m !in Open(q.rows[a.row]) && Watched(q.rows, m) {
      EndElsewhere(q.rows, a.row, q.rows[a.row].(status := Lost), m);
      WatchedStays(q.rows, Apply(q, a).rows, m);
    }
  }

  lemma RetryKeeps(q: Queue, a: Action, m: Media)
    requires Enabled(q, a) && a.Retry? && Kept(q, m)
    ensures Kept(Apply(q, a), m)
  {
    hide Watched, Carries;
    if Watched(q.rows, m) { WatchedStays(q.rows, Apply(q, a).rows, m); }
  }

  lemma StepKeeps(q: Queue, a: Action, m: Media)
    requires PlansHold(q) && Enabled(q, a) && Kept(q, m)
    ensures Kept(Apply(q, a), m)
  {
    match a
    case Begin(_, _) =>
      BeginShape(q, a);
      hide Apply, Enabled, PlansHold, Watched, Carries;
      BeginCounts(q, a);
      if Watched(q.rows, m) { WatchedStays(q.rows, Apply(q, a).rows, m); }
    case SubmitNext(e) =>
      SubmitEffect(q, a);
      hide Apply, Watched;
      if Watched(q.rows, m) {
        if m in Carried(q.execs[e].children[q.execs[e].next]) && m in Open(q.rows[q.execs[e].row]) {
          SubmitHandsOver(q, a, m);
        } else {
          SubmitElsewhere(q, a, m);
          WatchedStays(q.rows, Apply(q, a).rows, m);
        }
      }
    case Record(_) => RecordKeeps(q, a, m);
    case Lose(_) => LossKeeps(q, a, m);
    case Retry(_) => RetryKeeps(q, a, m);
  }

  lemma BeginCounts(q: Queue, a: Action)
    requires Enabled(q, a) && a.Begin?
    ensures Apply(q, a).completed == q.completed && Apply(q, a).lost == q.lost
  {
    hide ChildrenOf, EndingOf, Reads;
  }
}
