// What holds of a scan with phases in every run: each medium stays accounted for, when it is in exactly one place, and
// what an open completion gate proves about the phases.
module CoordinatorGate {
  import opened Catalog
  import opened JobQueue
  import opened ScanCoordinator
  import opened ScanPlaces
  import opened ScanRuns
  import opened Widths

  ghost predicate Inv(q: Queue, root: ScanJob) {
    && QueueAccepted(q, root) && PlansHold(q)
    && forall m :: m in root.media ==> Balanced(q, m) && Kept(q, m)
  }

  lemma InitialInv(root: ScanJob)
    requires IsRoot(root)
    ensures Inv(Initial(root), root)
  {
    InitialAccepted(root);
    ScanRoundTrip(root);
    var first := Initial(root).rows;
    forall m | m in root.media ensures Balanced(Initial(root), m) && Kept(Initial(root), m) {
      assert first == [] + [first[0]];
      OpenAppend([], first[0], m);
      assert m in Open(first[0]);
    }
  }

  lemma StepKeepsInv(q: Queue, a: Action, root: ScanJob)
    requires Inv(q, root) && Phased(root.mode) && Enabled(q, a)
    ensures Inv(Apply(q, a), root)
  {
    hide QueueAccepted, PlansHold, Balanced, Kept, Apply, Enabled;
    StepKeepsAccepted(q, a, root);
    StepKeepsPlans(q, a, root);
    forall m | m in root.media ensures Balanced(Apply(q, a), m) && Kept(Apply(q, a), m) {
      StepBalances(q, a, m);
      StepKeeps(q, a, m);
    }
  }

  lemma {:induction false} RunKeepsInv(root: ScanJob, actions: seq<Action>)
    requires IsRoot(root) && Phased(root.mode) && Execute(root, actions).Some?
    ensures Inv(Execute(root, actions).value, root)
  {
    if actions == [] {
      InitialInv(root);
    } else {
      hide Inv, Apply, Enabled;
      RunKeepsInv(root, actions[..|actions| - 1]);
      StepKeepsInv(Execute(root, actions[..|actions| - 1]).value, actions[|actions| - 1], root);
    }
  }

  // ---- each medium is accounted for ---------------------------------------------------------------

  /**
   * No medium is dropped: in every run of a scan with phases, whatever is cut off, run again, lost or retried, some
   * live scan or full export has yet to hand a requested medium on, unless its completion has run or it was lost.
   */
  lemma NoMediumIsDropped(root: ScanJob, actions: seq<Action>, q: Queue, m: Media)
    requires IsRoot(root) && Phased(root.mode) && Execute(root, actions) == Some(q) && m in root.media
    ensures q.completed[m] > 0 || q.lost[m] > 0
            || exists i :: 0 <= i < |q.rows| && q.rows[i].status.Live? && Carries(q.rows[i].child, m)
                           && m !in q.rows[i].handed
  {
    RunKeepsInv(root, actions);
    assert Kept(q, m);
    hide Execute, Carries;
    if Watched(q.rows, m) {
      var i :| 0 <= i < |q.rows| && m in Open(q.rows[i]);
    }
  }

  /**
   * Conservation: the rows that have yet to hand the medium on, its completions, its losses and the carriers absorbed
   * by a live row of the same key are together one more than the carriers submitted twice and the retries.
   */
  lemma PlacesBalance(root: ScanJob, actions: seq<Action>, q: Queue, m: Media)
    requires IsRoot(root) && Phased(root.mode) && Execute(root, actions) == Some(q) && m in root.media
    ensures OpenRows(q.rows, m) + q.completed[m] + q.lost[m] + q.merged[m] == 1 + q.doubled[m] + q.retried[m]
  {
    RunKeepsInv(root, actions);
    assert Balanced(q, m);
  }

  lemma KeptHasAPlace(q: Queue, m: Media)
    requires Kept(q, m)
    ensures Places(q, m) >= 1
  {
    NoneOpen(q.rows, m);
    hide Open;
  }

  /** A step doubles or retries a carrier of the medium at most once, and then none is absorbed. */
  ghost predicate SmallChange(q: Queue, t: Queue, m: Media) {
    && t.doubled[m] >= q.doubled[m] && t.retried[m] >= q.retried[m]
    && (t.doubled[m] + t.retried[m] == q.doubled[m] + q.retried[m]
        || (t.doubled[m] + t.retried[m] == q.doubled[m] + q.retried[m] + 1 && t.merged[m] == q.merged[m]))
  }

  lemma StepIsSmall(q: Queue, a: Action, m: Media)
    requires Enabled(q, a)
    ensures SmallChange(q, Apply(q, a), m)
  {
    hide ChildrenOf, EndingOf, Reads, HasLive, Open, Carries;
    if a.SubmitNext? {
      SubmitEffect(q, a);
      hide Apply;
    }
  }

  /**
   * A step starts a medium again: it submits or completes a carrier of it for a row that has already handed it on or
   * is over, and no live row absorbs the carrier; or an operator retries a lost carrier.
   */
  ghost predicate StartsAgain(q: Queue, a: Action, m: Media)
    requires Enabled(q, a)
  {
    match a
    case SubmitNext(e) =>
      var x := q.execs[e];
      var c := x.children[x.next];
      Carries(c, m) && m !in Open(q.rows[x.row]) && !HasLive(q.rows, c)
    case Record(e) =>
      var r := q.rows[q.execs[e].row];
      q.execs[e].ending.Closing? && Carries(r.child, m) && m in r.handed
    case Retry(i) => Carries(q.rows[i].child, m)
    case _ => false
  }

  lemma StepTallies(q: Queue, a: Action, m: Media)
    requires Enabled(q, a)
    ensures var t := Apply(q, a);
            t.doubled[m] + t.retried[m] == q.doubled[m] + q.retried[m] + Count(StartsAgain(q, a, m))
  {
    hide ChildrenOf, EndingOf, Reads, HasLive, Carries;
    if a.SubmitNext? {
      SubmitEffect(q, a);
      hide Apply, Open;
    }
  }

  /** No action of the run starts the medium again. */
  ghost predicate NeverStartsAgain(root: ScanJob, actions: seq<Action>, m: Media)
    requires Execute(root, actions).Some?
  {
    actions == []
    || (NeverStartsAgain(root, actions[..|actions| - 1], m)
        && !StartsAgain(Execute(root, actions[..|actions| - 1]).value, actions[|actions| - 1], m))
  }

  /** The queue after the first `k` actions. */
  ghost function After(root: ScanJob, actions: seq<Action>, k: nat): Queue
    requires k <= |actions| && Execute(root, actions).Some?
    decreases |actions|
  {
    if k == |actions| then Execute(root, actions).value
    else After(root, actions[..|actions| - 1], k)
  }

  lemma {:induction false} AfterIsPrefix(root: ScanJob, actions: seq<Action>, k: nat)
    requires k <= |actions| && Execute(root, actions).Some?
    ensures Execute(root, actions[..k]) == Some(After(root, actions, k))
    decreases |actions|
  {
    hide Apply, Enabled;
    if k < |actions| {
      AfterIsPrefix(root, actions[..|actions| - 1], k);
      assert actions[..|actions| - 1][..k] == actions[..k];
    } else {
      assert actions[..k] == actions;
    }
  }

  /** After each action of the run the medium is in one place. */
  ghost predicate AlwaysInOnePlace(root: ScanJob, actions: seq<Action>, m: Media)
    requires Execute(root, actions).Some?
  {
    forall k: nat :: k <= |actions| ==> Places(After(root, actions, k), m) == 1
  }

  ghost predicate NeverDoubled(root: ScanJob, actions: seq<Action>, m: Media)
    requires Execute(root, actions).Some?
  {
    Execute(root, actions).value.doubled[m] == 0 && Execute(root, actions).value.retried[m] == 0
  }

  lemma {:induction false} RestartsAreTallied(root: ScanJob, actions: seq<Action>, m: Media)
    requires Execute(root, actions).Some?
    ensures NeverStartsAgain(root, actions, m) <==> NeverDoubled(root, actions, m)
  {
    hide Apply, Enabled, StartsAgain;
    if actions != [] {
      var n := |actions| - 1;
      RestartsAreTallied(root, actions[..n], m);
      StepTallies(Execute(root, actions[..n]).value, actions[n], m);
    }
  }

  lemma {:induction false} OnePlaceMeansClean(root: ScanJob, actions: seq<Action>, m: Media)
    requires IsRoot(root) && Phased(root.mode) && Execute(root, actions).Some? && m in root.media
    requires AlwaysInOnePlace(root, actions, m)
    ensures NeverDoubled(root, actions, m)
  {
    hide Apply, Enabled, Places, QueueAccepted, PlansHold, Kept;
    if actions != [] {
      var n := |actions| - 1;
      forall k: nat | k <= n ensures Places(After(root, actions[..n], k), m) == 1 {
        assert After(root, actions, k) == After(root, actions[..n], k);
      }
      OnePlaceMeansClean(root, actions[..n], m);
      RunKeepsInv(root, actions[..n]);
      RunKeepsInv(root, actions);
      StepIsSmall(Execute(root, actions[..n]).value, actions[n], m);
      assert Places(After(root, actions, n), m) == 1 && Places(After(root, actions, n + 1), m) == 1;
    }
  }

  lemma {:induction false} CleanMeansOnePlace(root: ScanJob, actions: seq<Action>, m: Media, k: nat)
    requires IsRoot(root) && Phased(root.mode) && Execute(root, actions).Some? && m in root.media && k <= |actions|
    requires NeverDoubled(root, actions, m)
    ensures Places(After(root, actions, k), m) == 1
    decreases |actions|
  {
    hide Apply, Enabled, Places, QueueAccepted, PlansHold;
    var n := |actions| - 1;
    if k == |actions| {
      RunKeepsInv(root, actions);
      KeptHasAPlace(Execute(root, actions).value, m);
    } else {
      StepIsSmall(Execute(root, actions[..n]).value, actions[n], m);
      CleanMeansOnePlace(root, actions[..n], m, k);
    }
  }

  /**
   * When a medium is in one place: it is carried by exactly one row that has yet to hand it on, or has completed
   * once, or was lost once, throughout a run, if and only if no step of the run starts it again.
   */
  lemma EachMediumIsInOnePlaceIff(root: ScanJob, actions: seq<Action>, m: Media)
    requires IsRoot(root) && Phased(root.mode) && Execute(root, actions).Some? && m in root.media
    ensures AlwaysInOnePlace(root, actions, m) <==> NeverStartsAgain(root, actions, m)
  {
    hide Execute, Places, NeverDoubled, NeverStartsAgain;
    RestartsAreTallied(root, actions, m);
    if AlwaysInOnePlace(root, actions, m) { OnePlaceMeansClean(root, actions, m); }
    if NeverDoubled(root, actions, m) {
      forall k: nat | k <= |actions| ensures Places(After(root, actions, k), m) == 1 {
        CleanMeansOnePlace(root, actions, m, k);
      }
    }
  }

  // ---- runs that are not cut off ------------------------------------------------------------------

  /**
   * No job begins again once an execution of it has submitted anything, none goes on or is recorded after its claim,
   * and no carrier is retried.
   */
  ghost predicate Uncut(q: Queue, a: Action)
    requires Enabled(q, a)
  {
    match a
    case Begin(i, _) => forall e :: 0 <= e < |q.execs| && q.execs[e].row == i ==> q.execs[e].next == 0
    case SubmitNext(e) => Current(q, q.execs[e])
    case Record(e) => Current(q, q.execs[e])
    case Retry(i) => Carried(q.rows[i].child) == {}
    case _ => true
  }

  ghost predicate UncutRun(root: ScanJob, actions: seq<Action>)
    requires Execute(root, actions).Some?
  {
    actions == []
    || (UncutRun(root, actions[..|actions| - 1])
        && Uncut(Execute(root, actions[..|actions| - 1]).value, actions[|actions| - 1]))
  }

  /** Some execution of row `i` has submitted a carrier of the medium. */
  predicate SubmittedFor(q: Queue, i: nat, m: Media) {
    exists e, k :: 0 <= e < |q.execs| && q.execs[e].row == i && 0 <= k < q.execs[e].next <= |q.execs[e].children|
                   && Carries(q.execs[e].children[k], m)
  }

  /** Later executions of a row have later claims, and one that has submitted anything has the newest. */
  ghost predicate OneExecutionSubmits(q: Queue) {
    && (forall e, f :: 0 <= e < f < |q.execs| && q.execs[e].row == q.execs[f].row ==>
        q.execs[e].attempt < q.execs[f].attempt)
    && (forall e :: 0 <= e < |q.execs| && q.execs[e].next > 0 ==>
          q.execs[e].row < |q.rows| && q.execs[e].attempt == q.rows[q.execs[e].row].attempt)
  }

  ghost predicate HandedIsSubmitted(q: Queue) {
    forall i, m: Media :: 0 <= i < |q.rows| && m in q.rows[i].handed ==> SubmittedFor(q, i, m)
  }

  ghost predicate UncutInv(q: Queue) {
    OneExecutionSubmits(q) && HandedIsSubmitted(q) && q.doubled == multiset{} && q.retried == multiset{}
  }

  lemma TwoTokens(children: seq<Child>, k: nat, l: nat, m: Media)
    requires k < l < |children| && Carries(children[k], m) && Carries(children[l], m)
    ensures Tokens(children, m) >= 2
  {
    hide Carries;
    assert children == children[..l] + children[l..];
    TokensConcat(children[..l], children[l..], m);
    NoTokens(children[..l], m);
    NoTokens(children[l..], m);
    assert children[..l][k] == children[k] && children[l..][0] == children[l];
  }

  /** In an uncut run an execution never submits for a medium that its row has handed on. */
  lemma NothingIsDoubled(q: Queue, e: nat, m: Media)
    requires PlansHold(q) && OneExecutionSubmits(q) && HandedIsSubmitted(q)
    requires e < |q.execs| && Current(q, q.execs[e]) && m in q.rows[q.execs[e].row].handed
    ensures q.execs[e].next > 0
    ensures q.execs[e].next < |q.execs[e].children| ==> !Carries(q.execs[e].children[q.execs[e].next], m)
  {
    var x := q.execs[e];
    assert SubmittedFor(q, x.row, m) && ExecutionOk(q.rows, x);
    hide Carries, PlansHold, HandedIsSubmitted;
    var f, k :| 0 <= f < |q.execs| && q.execs[f].row == x.row && 0 <= k < q.execs[f].next <= |q.execs[f].children|
                && Carries(q.execs[f].children[k], m);
    assert f == e;
    if x.next < |x.children| && Carries(x.children[x.next], m) { TwoTokens(x.children, k, x.next, m); }
  }

  lemma BeginStaysUncut(q: Queue, a: Action)
    requires PlansHold(q) && UncutInv(q) && Enabled(q, a) && a.Begin? && Uncut(q, a)
    ensures UncutInv(Apply(q, a))
  {
    var t := Apply(q, a);
    BeginShape(q, a);
    BeginLeavesTallies(q, a);
    assert forall e :: 0 <= e < |q.execs| ==> ExecutionOk(q.rows, q.execs[e]);
    hide Apply, PlansHold, ChildrenOf, EndingOf, Reads, PlanOk, Carries;
    forall i, m: Media | 0 <= i < |t.rows| && m in t.rows[i].handed ensures SubmittedFor(t, i, m) {
      SubmissionsStay(q, t, i, m);
    }
  }

  lemma BeginLeavesTallies(q: Queue, a: Action)
    requires Enabled(q, a) && a.Begin?
    ensures Apply(q, a).doubled == q.doubled && Apply(q, a).retried == q.retried
  {
    hide ChildrenOf, EndingOf, Reads;
  }

  lemma SubmissionsStay(q: Queue, t: Queue, i: nat, m: Media)
    requires SubmittedFor(q, i, m) && |q.execs| <= |t.execs|
    requires forall e :: 0 <= e < |q.execs| ==>
               t.execs[e] == q.execs[e].(next := t.execs[e].next)
                 && q.execs[e].next <= t.execs[e].next <= |t.execs[e].children|
    ensures SubmittedFor(t, i, m)
  {
    hide Carries;
    var e, k :| 0 <= e < |q.execs| && q.execs[e].row == i && 0 <= k < q.execs[e].next <= |q.execs[e].children|
                && Carries(q.execs[e].children[k], m);
    assert Carries(t.execs[e].children[k], m);
  }

  lemma SubmitKeepsOne(q: Queue, t: Queue, e: nat)
    requires OneExecutionSubmits(q) && e < |q.execs| && Current(q, q.execs[e])
    requires t.execs == q.execs[e := q.execs[e].(next := q.execs[e].next + 1)] && |q.rows| <= |t.rows|
    requires forall i :: 0 <= i < |q.rows| ==> t.rows[i].attempt == q.rows[i].attempt
    ensures OneExecutionSubmits(t)
  {
  }

  /** A row's media are newly handed on only by the submission that the row's execution makes. */
  lemma SubmitKeepsHanded(q: Queue, t: Queue, e: nat)
    requires HandedIsSubmitted(q) && e < |q.execs| && q.execs[e].row < |q.rows| <= |t.rows|
    requires q.execs[e].next < |q.execs[e].children|
    requires forall f :: 0 <= f < |q.execs| ==> q.execs[f].next <= |q.execs[f].children|
    requires t.execs == q.execs[e := q.execs[e].(next := q.execs[e].next + 1)]
    requires forall i, m: Media :: 0 <= i < |q.rows| && m in t.rows[i].handed ==>
               m in q.rows[i].handed || (i == q.execs[e].row && Carries(q.execs[e].children[q.execs[e].next], m))
    requires forall i :: |q.rows| <= i < |t.rows| ==> t.rows[i].handed == {}
    ensures HandedIsSubmitted(t)
  {
    hide Carries;
    forall i, m: Media | 0 <= i < |t.rows| && m in t.rows[i].handed ensures SubmittedFor(t, i, m) {
      if m in q.rows[i].handed {
        hide SubmittedFor;
        SubmissionsStay(q, t, i, m);
      } else {
        assert Carries(t.execs[e].children[q.execs[e].next], m);
      }
    }
  }

  lemma ExecutionsStandInRows(q: Queue)
    requires PlansHold(q)
    ensures forall f :: 0 <= f < |q.execs| ==> q.execs[f].row < |q.rows| && q.execs[f].next <= |q.execs[f].children|
  {
    assert forall f :: 0 <= f < |q.execs| ==> ExecutionOk(q.rows, q.execs[f]);
    hide PlanOk;
  }

  lemma SubmitStaysUncut(q: Queue, a: Action)
    requires PlansHold(q) && UncutInv(q) && Enabled(q, a) && a.SubmitNext? && Uncut(q, a)
    ensures UncutInv(Apply(q, a))
  {
    hide Apply, PlansHold, Carries, HasLive, Open, OneExecutionSubmits, HandedIsSubmitted;
    var t, x := Apply(q, a), q.execs[a.exec];
    SubmitEffect(q, a);
    SubmitRows(q, a);
    SubmitDoublesNothing(q, a);
    ExecutionsStandInRows(q);
    hide Enabled;
    SubmitKeepsOne(q, t, a.exec);
    SubmitKeepsHanded(q, t, a.exec);
  }

  lemma SubmitDoublesNothing(q: Queue, a: Action)
    requires PlansHold(q) && UncutInv(q) && Enabled(q, a) && a.SubmitNext? && Uncut(q, a)
    ensures Apply(q, a).doubled == multiset{} && Apply(q, a).retried == multiset{}
  {
    var x := q.execs[a.exec];
    var c, r := x.children[x.next], q.rows[x.row];
    SubmitEffect(q, a);
    assert ExecutionOk(q.rows, x) && Carried(c) <= Carried(r.child);
    hide Apply, PlansHold, PlanOk, HasLive, Carries;
    forall m: Media | m in Carried(c) ensures m in Open(r) {
      if m in r.handed { NothingIsDoubled(q, a.exec, m); }
    }
    assert Carried(c) - Carried(c) * Open(r) == {};
  }

  lemma OutcomeStaysUncut(q: Queue, a: Action)
    requires PlansHold(q) && UncutInv(q) && Enabled(q, a) && Uncut(q, a) && (a.Record? || a.Lose? || a.Retry?)
    ensures UncutInv(Apply(q, a))
  {
    var t := Apply(q, a);
    OtherEffect(q, a);
    StepShape(q, a);
    OutcomeDoublesNothing(q, a);
    OutcomeKeepsAttempts(q, a);
    assert forall e :: 0 <= e < |q.execs| ==> ExecutionOk(q.rows, q.execs[e]);
    hide Apply, Enabled, PlansHold, PlanOk, Carries, AddsRow;
    forall i, m: Media | 0 <= i < |t.rows| && m in t.rows[i].handed ensures SubmittedFor(t, i, m) {
      SubmissionsStay(q, t, i, m);
    }
  }

  lemma OutcomeKeepsAttempts(q: Queue, a: Action)
    requires Enabled(q, a) && (a.Record? || a.Lose? || a.Retry?)
    ensures HandsNothing(q, Apply(q, a))
    ensures forall i :: 0 <= i < |q.rows| ==> Apply(q, a).rows[i].attempt == q.rows[i].attempt
  {
    OtherEffect(q, a);
    hide Carried, Open, HandsNothing;
  }

  lemma OutcomeDoublesNothing(q: Queue, a: Action)
    requires PlansHold(q) && UncutInv(q) && Enabled(q, a) && Uncut(q, a) && (a.Record? || a.Lose? || a.Retry?)
    ensures Apply(q, a).doubled == multiset{} && Apply(q, a).retried == multiset{}
  {
    if a.Record? && q.execs[a.exec].ending.Closing? {
      var r := q.rows[q.execs[a.exec].row];
      assert ExecutionOk(q.rows, q.execs[a.exec]);
      hide Carries;
      forall m: Media | m in Carried(r.child) ensures m in Open(r) {
        if m in r.handed { NothingIsDoubled(q, a.exec, m); }
      }
      assert Carried(r.child) - Open(r) == {};
    }
    hide PlansHold, Carried, Open, HandedIsSubmitted, OneExecutionSubmits;
  }

  lemma {:induction false} UncutRunKeeps(root: ScanJob, actions: seq<Action>)
    requires IsRoot(root) && Phased(root.mode) && Execute(root, actions).Some? && UncutRun(root, actions)
    ensures UncutInv(Execute(root, actions).value)
  {
    if actions != [] {
      var q, a := Execute(root, actions[..|actions| - 1]).value, actions[|actions| - 1];
      UncutRunKeeps(root, actions[..|actions| - 1]);
      RunKeepsInv(root, actions[..|actions| - 1]);
      hide UncutInv, PlansHold, Apply, Enabled, Uncut;
      match a
      case Begin(_, _) => BeginStaysUncut(q, a);
      case SubmitNext(_) => SubmitStaysUncut(q, a);
      case _ => OutcomeStaysUncut(q, a);
    }
  }

  /**
   * When no step is cut off after a submission and run again, none goes on or is recorded after its claim, and no
   * carrier is retried, each medium is in one place throughout.
   */
  lemma UncutRunsKeepOnePlace(root: ScanJob, actions: seq<Action>, m: Media)
    requires IsRoot(root) && Phased(root.mode) && Execute(root, actions).Some? && UncutRun(root, actions)
    requires m in root.media
    ensures AlwaysInOnePlace(root, actions, m)
  {
    UncutRunKeeps(root, actions);
    assert NeverDoubled(root, actions, m);
    hide Execute, UncutRun, NeverDoubled, NeverStartsAgain;
    RestartsAreTallied(root, actions, m);
    EachMediumIsInOnePlaceIff(root, actions, m);
  }

  // ---- what an open completion gate proves --------------------------------------------------------

  predicate InPhase(c: Child, completion: bool) {
    c.Scan? && ParseScan(c.payload).Parsed? && (ParseScan(c.payload).job.phase.Completion? <==> completion)
  }

  /** The phases of the medium have come to their completion, which has run or has yet to. */
  predicate PhasesOver(q: Queue, m: Media) {
    q.completed[m] > 0 || exists k :: 0 <= k < |q.rows| && m in Open(q.rows[k]) && InPhase(q.rows[k].child, true)
  }

  /** A scan of an earlier phase has yet to hand the medium on. */
  predicate EarlierPhasePending(q: Queue, m: Media) {
    exists k :: 0 <= k < |q.rows| && m in Open(q.rows[k]) && InPhase(q.rows[k].child, false)
  }

  /** Without active `ingest.*` jobs, what has yet to hand a medium on is a scan. */
  lemma OpenRowsAreScans(q: Queue, root: ScanJob, m: Media)
    requires QueueAccepted(q, root) && !IngestActive(q.rows)
    ensures forall k :: 0 <= k < |q.rows| && m in Open(q.rows[k]) ==>
              InPhase(q.rows[k].child, true) || InPhase(q.rows[k].child, false)
  {
    forall k | 0 <= k < |q.rows| && m in Open(q.rows[k])
      ensures InPhase(q.rows[k].child, true) || InPhase(q.rows[k].child, false)
    {
      assert Accepted(q.rows[k].child, root);
    }
  }

  lemma NotBothPhases(q: Queue, m: Media)
    requires Places(q, m) == 1 && Kept(q, m)
    ensures !(PhasesOver(q, m) && EarlierPhasePending(q, m)) && !(PhasesOver(q, m) && q.lost[m] > 0)
  {
    hide Open, Kept;
    NoneOpen(q.rows, m);
    if PhasesOver(q, m) && EarlierPhasePending(q, m) && q.completed[m] == 0 {
      var k :| 0 <= k < |q.rows| && m in Open(q.rows[k]) && InPhase(q.rows[k].child, true);
      var l :| 0 <= l < |q.rows| && m in Open(q.rows[l]) && InPhase(q.rows[l].child, false);
      TwoOpen(q.rows, k, l, m);
    }
  }

  lemma SomePhase(q: Queue, root: ScanJob, m: Media)
    requires QueueAccepted(q, root) && !IngestActive(q.rows) && Kept(q, m)
    ensures PhasesOver(q, m) || EarlierPhasePending(q, m) || q.lost[m] > 0
  {
    OpenRowsAreScans(q, root, m);
    hide Open, InPhase;
    if q.completed[m] == 0 && q.lost[m] == 0 {
      var k :| 0 <= k < |q.rows| && m in Open(q.rows[k]);
    }
  }

  /**
   * What an open completion gate proves. In every run of a scan with phases, when a completion finds no active work:
   * the phases of each medium are over, or a scan of an earlier phase has yet to hand it on, or it was lost. And for
   * a medium in one place they are over if and only if neither of the others holds.
   */
  lemma CompletionProvesPhasesOverIff(root: ScanJob, actions: seq<Action>, q: Queue, i: nat,
                                      j: ScanJob, w: World, m: Media)
    requires IsRoot(root) && Phased(root.mode) && Execute(root, actions) == Some(q) && m in root.media
    requires Enabled(q, Begin(i, ScanRead(j, w))) && j.phase.Completion? && !w.active
    ensures PhasesOver(q, m) || EarlierPhasePending(q, m) || q.lost[m] > 0
    ensures Places(q, m) == 1 ==> (PhasesOver(q, m) <==> !EarlierPhasePending(q, m) && q.lost[m] == 0)
  {
    RunKeepsInv(root, actions);
    assert Kept(q, m);
    assert !IngestActive(q.rows);
    hide Execute, Enabled, PhasesOver, EarlierPhasePending, IngestActive, Kept, Places;
    SomePhase(q, root, m);
    if Places(q, m) == 1 { NotBothPhases(q, m); }
  }

  lemma BalanceIsOnePlace(q: Queue, m: Media)
    requires Balanced(q, m)
    ensures Places(q, m) == 1 <==> q.merged[m] == q.doubled[m] + q.retried[m]
  {
    hide OpenRows;
  }

  // ---- scans of one medium ------------------------------------------------------------------------

  /** Every other live scan or full export has handed the medium on, and it neither completed nor was lost before. */
  predicate LastToHandOn(q: Queue, i: nat, m: Media) {
    q.completed[m] == 0 && q.lost[m] == 0 && forall k :: 0 <= k < |q.rows| && k != i ==> m !in Open(q.rows[k])
  }

  lemma {:induction false} OneOpen(rows: seq<Row>, i: nat, m: Media)
    requires i < |rows| && m in Open(rows[i]) && forall k :: 0 <= k < |rows| && k != i ==> m !in Open(rows[k])
    ensures OpenRows(rows, m) == 1
  {
    hide Open;
    var n := |rows| - 1;
    if i < n {
      OneOpen(rows[..n], i, m);
    } else {
      NoneOpen(rows[..n], m);
    }
  }

  lemma LastToHandOnIff(q: Queue, i: nat, m: Media)
    requires i < |q.rows| && m in Open(q.rows[i])
    ensures LastToHandOn(q, i, m) <==> Places(q, m) == 1
  {
    hide Open;
    NoneOpen(q.rows, m);
    if LastToHandOn(q, i, m) { OneOpen(q.rows, i, m); }
    if k :| 0 <= k < |q.rows| && k != i && m in Open(q.rows[k]) { TwoOpen(q.rows, i, k, m); }
  }

  lemma OnlyMediumIsOpen(q: Queue, root: ScanJob, i: nat, j: ScanJob)
    requires QueueAccepted(q, root) && |root.media| == 1 && i < |q.rows| && q.rows[i].status.Live?
    requires q.rows[i].child.Scan? && ParseScan(q.rows[i].child.payload) == Parsed(j)
    requires root.media[0] !in q.rows[i].handed
    ensures root.media[0] in Open(q.rows[i])
  {
    assert Accepted(q.rows[i].child, root);
    assert j.media[0] in j.media;
    hide ParseScan;
  }

  /**
   * A scan of one medium: when its completion begins and has not handed the medium on, it is the last to do so if and
   * only if the carriers doubled and retried were all absorbed.
   */
  lemma SingleMediumCompletionIsLastIff(root: ScanJob, actions: seq<Action>, q: Queue, i: nat, j: ScanJob, w: World)
    requires IsRoot(root) && Phased(root.mode) && |root.media| == 1 && Execute(root, actions) == Some(q)
    requires Enabled(q, Begin(i, ScanRead(j, w))) && j.phase.Completion? && root.media[0] !in q.rows[i].handed
    ensures var m := root.media[0];
            LastToHandOn(q, i, m) <==> q.merged[m] == q.doubled[m] + q.retried[m]
  {
    var m := root.media[0];
    RunKeepsInv(root, actions);
    assert q.rows[i].status.Live? && ParseScan(q.rows[i].child.payload) == Parsed(j);
    hide Execute, Enabled, Places, Answers, Balanced, Kept, PlansHold, ParseScan, ScanPayload, LastToHandOn;
    OnlyMediumIsOpen(q, root, i, j);
    BalanceIsOnePlace(q, m);
    LastToHandOnIff(q, i, m);
  }

  /**
   * In an uncut run of a scan of one medium, every other scan has handed the medium on when the completion begins; all
   * that may be left of them is the record of their success.
   */
  lemma SingleMediumCompletionIsSound(root: ScanJob, actions: seq<Action>, q: Queue, i: nat, j: ScanJob, w: World)
    requires IsRoot(root) && Phased(root.mode) && |root.media| == 1 && Execute(root, actions) == Some(q)
    requires UncutRun(root, actions) && Enabled(q, Begin(i, ScanRead(j, w))) && j.phase.Completion?
    requires Uncut(q, Begin(i, ScanRead(j, w)))
    ensures LastToHandOn(q, i, root.media[0])
  {
    var m := root.media[0];
    UncutRunKeeps(root, actions);
    NothingHanded(q, i, m);
    hide Execute, UncutRun, Enabled, LastToHandOn;
    SingleMediumCompletionIsLastIff(root, actions, q, i, j, w);
    RunKeepsInv(root, actions);
    KeptAndBalanced(q, root, m);
  }

  lemma NothingHanded(q: Queue, i: nat, m: Media)
    requires HandedIsSubmitted(q) && i < |q.rows|
    requires forall e :: 0 <= e < |q.execs| && q.execs[e].row == i ==> q.execs[e].next == 0
    ensures m !in q.rows[i].handed
  {
    assert !SubmittedFor(q, i, m);
  }

  lemma KeptAndBalanced(q: Queue, root: ScanJob, m: Media)
    requires Inv(q, root) && m in root.media && q.doubled[m] == 0 && q.retried[m] == 0
    ensures q.merged[m] == 0
  {
    assert Balanced(q, m) && Kept(q, m);
    KeptHasAPlace(q, m);
    hide Kept, OpenRows;
  }
}
