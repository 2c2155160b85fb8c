// Two runs of a media request with one worker and three sources: a source that is admitted but lost, because its number
// was given out before, and a complete request that an error opens again.
module MediaEscapes {
  import opened JobQueue
  import opened MediaCompletion
  import opened MediaExpansion

  const A: Source := Source(0, 1)
  const B: Source := Source(0, 2)
  const C: Source := Source(0, 3)
  const ALL: set<Source> := {A, B, C}

  /** One worker; what changes is the cursor, the lease, the links, the admissions and the worker's position. */
  function At(cursor: nat, complete: bool, held: bool, links: map<Place, Source>, admitted: set<Source>,
              pc: Pc): State {
    State(cursor, complete, Open, if held then Some(1) else None, held, ALL, links, admitted, map[1 := pc])
  }

  lemma Start(s: State)
    requires Init(s, ALL)
    ensures Reachable(s, ALL)
  {
    assert Run(s, [], s, ALL);
  }

  lemma {:induction false} RunThen(s: State, actions: seq<Action>, middle: State, a: Action, end: State)
    requires Run(s, actions, middle, ALL) && Enabled(middle, a) && !a.Change? && Apply(middle, a) == end
    ensures Run(s, actions + [a], end, ALL)
    decreases |actions|
  {
    if actions == [] {
      assert ([] + [a])[1..] == [];
      assert Run(end, [], end, ALL);
    } else {
      assert (actions + [a])[1..] == actions[1..] + [a];
      hide Enabled, Apply;
      RunThen(Apply(s, actions[0]), actions[1..], middle, a, end);
    }
  }

  lemma Go(s: State, a: Action, t: State)
    requires Reachable(s, ALL) && Enabled(s, a) && !a.Change?
    requires var u := Apply(s, a);
             && u.cursor == t.cursor && u.complete == t.complete && u.status == t.status && u.holder == t.holder
             && u.live == t.live && u.sources == t.sources && u.links == t.links && u.admitted == t.admitted
             && u.workers == t.workers
    ensures Reachable(t, ALL)
  {
    var s0: State, actions :| Init(s0, ALL) && Run(s0, actions, s, ALL);
    assert Apply(s, a) == t;
    hide Enabled, Apply;
    RunThen(s0, actions, s, a, t);
  }

  const FIRST: map<Place, Source> := map[Place(0, 1) := A]
  const SECOND: map<Place, Source> := map[Place(0, 1) := A, Place(0, 2) := C]

  lemma FirstPassSelects()
    ensures Reachable(At(0, false, true, map[], {}, Linking(0, map[], [A, B, C], 0, Counts(0, 0, 0))), ALL)
  {
    hide Reachable;
    var s0 := At(0, false, false, map[], {}, Idle);
    Start(s0);
    var s1 := At(0, false, true, map[], {}, Claimed(0, map[]));
    Go(s0, Claim(1), s1);
    Go(s1, SelectSources(1, true, [A, B, C]),
       At(0, false, true, map[], {}, Linking(0, map[], [A, B, C], 0, Counts(0, 0, 0))));
  }

  /** A is linked under 1; the step for B fails, and the request is released with the cursor of its claim. */
  lemma FirstPassFails()
    ensures Reachable(At(0, false, false, FIRST, {A}, Idle), ALL)
  {
    hide Reachable;
    FirstPassSelects();
    var s2 := At(0, false, true, map[], {}, Linking(0, map[], [A, B, C], 0, Counts(0, 0, 0)));
    var s3 := At(0, false, true, FIRST, {A}, Linking(0, map[], [A, B, C], 1, Counts(1, 0, 1)));
    Go(s2, Admit(1, true, Links), s3);
    var s4 := At(0, false, true, FIRST, {A}, Failing(0));
    Go(s3, Admit(1, false, Fails), s4);
    Go(s4, ReleaseAfterError(1, true), At(0, false, false, FIRST, {A}, Idle));
  }

  /** The next claim numbers B 1 and C 2. */
  lemma SecondPassSelects()
    ensures Reachable(At(0, false, true, FIRST, {A}, Linking(0, FIRST, [B, C], 0, Counts(0, 0, 0))), ALL)
  {
    hide Reachable;
    FirstPassFails();
    var s0 := At(0, false, false, FIRST, {A}, Idle);
    var s1 := At(0, false, true, FIRST, {A}, Claimed(0, FIRST));
    Go(s0, Claim(1), s1);
    assert FIRST[Place(0, 1)] == A;
    assert FIRST.Values == {A} && ALL - {A} == {B, C};
    var s2 := At(0, false, true, FIRST, {A}, Linking(0, FIRST, [B, C], 0, Counts(0, 0, 0)));
    Go(s1, SelectSources(1, true, [B, C]), s2);
  }

  /** B's link is dropped on A's number, and C's is made. */
  lemma SecondPassDropsB()
    ensures Reachable(At(0, false, true, SECOND, ALL, Linking(0, FIRST, [B, C], 2, Counts(2, 1, 1))), ALL)
  {
    hide Reachable;
    SecondPassSelects();
    var s2 := At(0, false, true, FIRST, {A}, Linking(0, FIRST, [B, C], 0, Counts(0, 0, 0)));
    var s3 := At(0, false, true, FIRST, {A} + {B}, Linking(0, FIRST, [B, C], 1, Counts(1, 1, 0)));
    Go(s2, Admit(1, false, Links), s3);
    assert {A} + {B} + {C} == ALL;
    Go(s3, Admit(1, true, Links), At(0, false, true, SECOND, ALL, Linking(0, FIRST, [B, C], 2, Counts(2, 1, 1))));
  }

  /** The short batch ends the expansion. */
  lemma SecondPassCompletes()
    ensures Reachable(At(2, true, false, SECOND, ALL, Refreshing(0)), ALL)
  {
    hide Reachable;
    SecondPassDropsB();
    var s0 := At(0, false, true, SECOND, ALL, Linking(0, FIRST, [B, C], 2, Counts(2, 1, 1)));
    var s1 := At(0, false, true, SECOND, ALL, Releasing(0, FIRST, [B, C], 2, true));
    Go(s0, EndBatch(1), s1);
    Go(s1, Release(1, true, true), At(2, true, false, SECOND, ALL, Refreshing(0)));
  }

  /** The request is complete, over and closed; B was admitted, and will never be linked. */
  lemma DisplacedSourceIsLost()
    ensures exists s :: Reachable(s, ALL) && s.complete && s.status.Over? && Closed(s)
                        && B in s.admitted && B !in s.links.Values
  {
    hide Reachable;
    SecondPassCompletes();
    var s0 := At(2, true, false, SECOND, ALL, Refreshing(0));
    var s1 := At(2, true, false, SECOND, ALL, Idle).(status := Over);
    Go(s0, Refresh(1, true, true, true), s1);
    forall p | p in SECOND ensures SECOND[p] != B {}
  }

  // ---- a complete request that is opened again ----------------------------------------------------

  /** A complete request that waits for its image jobs is claimed again; an error then marks it incomplete. */
  lemma CompleteRequestReopens()
    ensures exists s, a :: Reachable(s, ALL) && s.complete && Enabled(s, a) && Reopens(s, a) && !Apply(s, a).complete
  {
    hide Reachable;
    SecondPassCompletes();
    var s0 := At(2, true, false, SECOND, ALL, Refreshing(0));
    var s1 := At(2, true, false, SECOND, ALL, Idle);
    Go(s0, Refresh(1, true, true, false), s1);
    var s2 := At(2, true, true, SECOND, ALL, Claimed(2, SECOND));
    Go(s1, Claim(1), s2);
    var s3 := At(2, true, true, SECOND, ALL, Failing(2));
    Go(s2, SelectSources(1, false, []), s3);
    assert Reopens(s3, ReleaseAfterError(1, true));
  }
}
