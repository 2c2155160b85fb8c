// Any number of movie, television and change-page writers at once: their plans, as the transactions make them, never
// leave a state in which no writer can go on.
module CatalogWriters {
  import opened CatalogWrite
  import opened JobQueue
  import opened LockOrder
  import opened Widths

  datatype Write = MovieWrite(movie: Movie) | TvWrite(tv: Tv) | ChangesWrite(mediaType: string, changed: seq<u64>)

  /** Validation passes, so the transaction begins. */
  predicate Begins(w: Write) {
    match w
    case MovieWrite(m) => ValidId(m.id) && m.fieldsOk && MovieValid(m)
    case TvWrite(t) => ValidId(t.id) && t.fieldsOk && TvValid(t)
    case ChangesWrite(_, changed) => ValidIds(changed)
  }

  /** And no conversion inside the transaction fails. */
  predicate Succeeds(w: Write) {
    Begins(w) && (w.TvWrite? ==> forall i :: 0 <= i < |w.tv.seasons| ==> Writable(w.tv.seasons[i]))
  }

  predicate Touches(w: Write, l: Lock) {
    match w
    case MovieWrite(m) => MovieTouches(m, l)
    case TvWrite(t) => TvTouches(t, l)
    case ChangesWrite(mediaType, changed) =>
      exists i :: 0 <= i < |changed| && (l == Advisory(TitleName(mediaType, changed[i]))
                                         || l == Row(Titles, Text(TitleName(mediaType, changed[i]))))
  }

  /** The writes whose transactions begin. */
  function Begun(writes: seq<Write>): seq<Write> {
    if writes == [] then []
    else Begun(writes[..|writes| - 1]) + if Begins(writes[|writes| - 1]) then [writes[|writes| - 1]] else []
  }

  /** Some writer can take its next lock or commit, and all can finish without a rollback. */
  ghost predicate CanGoOn(s: State) {
    && !Stuck(s)
    && exists actions: seq<Action> :: Execute(s, actions).Some? && AllEnded(Execute(s, actions).value)
                         && forall a :: a in actions ==> !a.Rollback?
  }

  lemma {:induction false} ExecuteKeepsPlans(s: State, actions: seq<Action>)
    requires Exclusive(s) && AllDisciplined(s) && Execute(s, actions).Some?
    ensures Exclusive(Execute(s, actions).value) && AllDisciplined(Execute(s, actions).value)
    decreases |actions|
  {
    if actions != [] {
      StepKeepsExclusive(s, actions[0]);
      ExecuteKeepsPlans(Apply(s, actions[0]), actions[1..]);
    }
  }

  lemma DisciplinedCanGoOn(s: State)
    requires Exclusive(s) && AllDisciplined(s)
    ensures CanGoOn(s)
  {
    if i :| 0 <= i < |s| && !s[i].ended { SomeoneCanStep(s, i); }
    var actions := AllCanFinish(s);
  }

  // ---- plans in part ------------------------------------------------------------------------------

  /**
   * The positions `at` of a plan, in order; a lock is left out only if it is a row, or if everything after it is too.
   */
  ghost predicate Selects(at: seq<nat>, plan: seq<Lock>) {
    && (forall k :: 0 <= k < |at| ==> at[k] < |plan|)
    && (forall k, l :: 0 <= k < l < |at| ==> at[k] < at[l])
    && (forall i, k :: 0 <= k < |at| && 0 <= i < at[k] && plan[i].Advisory? ==> exists j :: 0 <= j < k && at[j] == i)
  }

  /** A plan cut short, or without rows that it has no need to touch. */
  ghost predicate PartOf(part: seq<Lock>, plan: seq<Lock>) {
    exists at :: Selects(at, plan) && |at| == |part| && forall k :: 0 <= k < |part| ==> part[k] == plan[at[k]]
  }

  lemma PartKeepsOrder(part: seq<Lock>, plan: seq<Lock>, at: seq<nat>)
    requires Disciplined(plan) && Selects(at, plan) && |at| == |part|
    requires forall k :: 0 <= k < |part| ==> part[k] == plan[at[k]]
    ensures forall i, j :: 0 <= i < j < |part| && !Owned(part[i]) && !Owned(part[j]) ==> Leq(part[i], part[j])
  {
    hide Leq, Owned;
    forall i, j | 0 <= i < j < |part| && !Owned(part[i]) && !Owned(part[j]) ensures Leq(part[i], part[j]) {
      assert Leq(plan[at[i]], plan[at[j]]);
    }
  }

  lemma PartKeepsNames(part: seq<Lock>, plan: seq<Lock>, at: seq<nat>, k: nat)
    requires Disciplined(plan) && Selects(at, plan) && |at| == |part| && k < |part| && Owned(part[k])
    requires forall k :: 0 <= k < |part| ==> part[k] == plan[at[k]]
    ensures Advisory(part[k].key.s) in part[..k]
  {
    hide Leq;
    assert Owned(plan[at[k]]);
    var i :| 0 <= i < at[k] && plan[..at[k]][i] == Advisory(part[k].key.s);
    assert plan[i].Advisory?;
    var j :| 0 <= j < k && at[j] == i;
    assert part[..k][j] == Advisory(part[k].key.s);
  }

  lemma PartIsDisciplined(part: seq<Lock>, plan: seq<Lock>)
    requires Disciplined(plan) && PartOf(part, plan)
    ensures Disciplined(part)
  {
    hide Leq;
    var at :| Selects(at, plan) && |at| == |part| && forall k :: 0 <= k < |part| ==> part[k] == plan[at[k]];
    hide Selects;
    PartKeepsOrder(part, plan, at);
    forall k | 0 <= k < |part| && Owned(part[k]) ensures Advisory(part[k].key.s) in part[..k] {
      PartKeepsNames(part, plan, at, k);
    }
  }

  lemma PlanIsPartOfItself(plan: seq<Lock>)
    ensures PartOf(plan, plan)
  {
    var at: seq<nat> := seq(|plan|, i requires 0 <= i < |plan| => i);
    forall i, k | 0 <= k < |at| && 0 <= i < at[k] && plan[i].Advisory? ensures exists j :: 0 <= j < k && at[j] == i {
      assert at[i] == i;
    }
    assert Selects(at, plan);
  }

  /** The same writers at their start, each with part of its plan. */
  ghost predicate InPart(t: State, s: State) {
    Init(t) && |t| == |s| && forall i :: 0 <= i < |s| ==> PartOf(t[i].plan, s[i].plan)
  }

  lemma PartsCanGoOn(t: State, s: State, actions: seq<Action>)
    requires AllDisciplined(s) && InPart(t, s) && Execute(t, actions).Some?
    ensures CanGoOn(Execute(t, actions).value)
  {
    forall i | 0 <= i < |t| ensures Disciplined(t[i].plan) { PartIsDisciplined(t[i].plan, s[i].plan); }
    ExecuteKeepsPlans(t, actions);
    DisciplinedCanGoOn(Execute(t, actions).value);
  }

  // ---- the writers --------------------------------------------------------------------------------

  /** The locks of a transaction that begins: all that its fields name, unless it fails. */
  method Plan(w: Write) returns (begun: bool, plan: seq<Lock>)
    ensures begun <==> Begins(w)
    ensures begun ==> Disciplined(plan) && forall l :: l in plan ==> Touches(w, l)
    ensures Succeeds(w) ==> forall l :: Touches(w, l) ==> l in plan
  {
    match w
    case MovieWrite(m) =>
      var r := PersistMovie(m);
      return r.Ok?, if r.Ok? then r.value else [];
    case TvWrite(t) =>
      var r, taken := PersistTv(t);
      return r.Ok? || r == Invalid(true), taken;
    case ChangesWrite(mediaType, changed) =>
      var r := PersistChanges(mediaType, changed);
      return r.Ok?, if r.Ok? then r.value else [];
  }

  /**
   * The writers of all writes that begin, each with the locks of its fields, or with those up to its failure. From
   * their start, whatever the interleaving, whoever rolls back and whichever rows need no touch, the writers that are
   * left can always go on and finish.
   */
  method BeginWriters(writes: seq<Write>) returns (s: State)
    ensures |s| == |Begun(writes)| && Init(s)
    ensures forall i, l :: 0 <= i < |s| && l in s[i].plan ==> Touches(Begun(writes)[i], l)
    ensures forall i, l :: 0 <= i < |s| && Succeeds(Begun(writes)[i]) && Touches(Begun(writes)[i], l) ==> l in s[i].plan
    ensures forall actions :: Execute(s, actions).Some? ==> CanGoOn(Execute(s, actions).value)
    ensures forall t: State, actions :: InPart(t, s) && Execute(t, actions).Some? ==> CanGoOn(Execute(t, actions).value)
  {
    s := [];
    for k := 0 to |writes|
      invariant |s| == |Begun(writes[..k])| && Init(s) && AllDisciplined(s)
      invariant forall i, l :: 0 <= i < |s| && l in s[i].plan ==> Touches(Begun(writes[..k])[i], l)
      invariant forall i, l :: 0 <= i < |s| && Succeeds(Begun(writes[..k])[i]) && Touches(Begun(writes[..k])[i], l) ==>
                  l in s[i].plan
    {
      assert writes[..k + 1][..k] == writes[..k];
      var begun, plan := Plan(writes[k]);
      if begun { s := s + [Writer(plan, 0, false)]; }
    }
    assert writes[..|writes|] == writes;
    forall t: State, actions | InPart(t, s) && Execute(t, actions).Some? ensures CanGoOn(Execute(t, actions).value) {
      PartsCanGoOn(t, s, actions);
    }
    forall i | 0 <= i < |s| ensures PartOf(s[i].plan, s[i].plan) { PlanIsPartOfItself(s[i].plan); }
    assert InPart(s, s);
  }
}
