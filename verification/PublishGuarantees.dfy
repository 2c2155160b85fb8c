// What publication promises to readers of the destination, in every run: whole bodies always, durability exactly when
// no directory state that a power loss may restore lacks one.
module PublishGuarantees {
  import opened AtomicPublish
  import opened JobQueue
  import opened Utf8

  // ---- a special destination ----------------------------------------------------------------------

  /** Every publisher has yet to look, or gave up without having touched the directory. */
  ghost predicate Untouched(s: State) {
    && s.prior.Other? && s.dirs != [] && (forall k :: 0 <= k < |s.dirs| ==> s.dirs[k].dest == Before)
    && forall i :: 0 <= i < |s.publishers| ==>
         s.publishers[i].pc in {Checking, Crashed, Done(Failed), Done(DestinationConflict)}
  }

  lemma StepKeepsUntouched(s: State, a: Action)
    requires Untouched(s) && Enabled(s, a)
    ensures Untouched(Apply(s, a))
  {
  }

  lemma {:induction false} RunKeepsUntouched(s: State, actions: seq<Action>)
    requires Untouched(s) && Execute(s, actions).Some?
    ensures Untouched(Execute(s, actions).value)
    decreases |actions|
  {
    if actions != [] {
      StepKeepsUntouched(s, actions[0]);
      hide Apply, Enabled, Untouched;
      RunKeepsUntouched(Apply(s, actions[0]), actions[1..]);
    }
  }

  /** A destination that is a directory, a link or another special file stays, and no publisher succeeds. */
  lemma SpecialDestinationIsKept(s: State, i: nat)
    requires Reachable(s) && s.prior.Other? && i < |s.publishers|
    ensures Content(s, Present(s).dest).Other? && !ReportedSuccess(s.publishers[i])
  {
    var s0: State, actions :| Init(s0) && Execute(s0, actions) == Some(s);
    PriorStays(s0, actions);
    RunKeepsUntouched(s0, actions);
    hide Execute;
  }

  lemma {:induction false} PriorStays(s: State, actions: seq<Action>)
    requires Execute(s, actions).Some?
    ensures Execute(s, actions).value.prior == s.prior
    decreases |actions|
  {
    if actions != [] {
      assert Apply(s, actions[0]).prior == s.prior;
      hide Apply, Enabled;
      PriorStays(Apply(s, actions[0]), actions[1..]);
    }
  }

  // ---- what readers see ---------------------------------------------------------------------------

  /**
   * A reader of the destination never sees part of a body, even after a power loss: it is what it was before, or one
   * publisher's whole body.
   */
  lemma DestinationIsNeverPartial(s: State)
    requires Reachable(s)
    ensures Content(s, Present(s).dest) == s.prior || HoldsWhole(s)
  {
    ReachableInv(s);
    assert LinkSettled(s, Present(s).dest);
  }

  /** While the power stays on, a reported success means that the destination holds a whole body. */
  lemma SuccessHoldsUntilPowerLoss(s: State, i: nat)
    requires Reachable(s) && i < |s.publishers| && ReportedSuccess(s.publishers[i]) && !s.publishers[i].doubted
    ensures HoldsWhole(s)
  {
    ReachableInv(s);
  }

  /** Every directory that a power loss may restore has a whole body at the destination. */
  ghost predicate Secure(s: State) {
    s.dirs != [] && forall k :: 0 <= k < |s.dirs| ==> Whole(s, s.dirs[k].dest)
  }

  lemma StepKeepsSecure(s: State, a: Action)
    requires Inv(s) && Enabled(s, a) && Secure(s)
    ensures Secure(Apply(s, a))
  {
    var t := Apply(s, a);
    if a.PowerLoss? {
      assert LinkSettled(s, s.dirs[a.dir].dest);
      PowerLossKeepsLinks(s, a, s.dirs[a.dir].dest);
    } else if a.Persist? {
      forall k | 0 <= k < |t.dirs| ensures Whole(t, t.dirs[k].dest) { assert Whole(s, s.dirs[a.dir + k].dest); }
    } else {
      StepIsOwn(s, a);
      OwnStepKeeps(s, t, a.i);
      if a.Rename? && a.ok { SuccessIsWhole(s, a); }
      hide Whole, LinkSettled, TempInStep, OwnStep;
      forall k | 0 <= k < |t.dirs| ensures Whole(t, t.dirs[k].dest) {
        if k < |s.dirs| { assert Whole(s, s.dirs[k].dest) && LinkSettled(s, s.dirs[k].dest); }
        else if !a.Rename? { assert Whole(s, Present(s).dest) && LinkSettled(s, Present(s).dest); }
      }
    }
  }

  lemma {:induction false} SecureKept(s: State, actions: seq<Action>)
    requires Inv(s) && Secure(s) && Execute(s, actions).Some?
    ensures Secure(Execute(s, actions).value)
    decreases |actions|
  {
    if actions != [] {
      StepKeepsInv(s, actions[0]);
      StepKeepsSecure(s, actions[0]);
      SecureKept(Apply(s, actions[0]), actions[1..]);
    }
  }

  lemma OneStep(s: State, a: Action)
    requires Enabled(s, a)
    ensures Execute(s, [a]) == Some(Apply(s, a))
  {
    hide Enabled, Apply;
    assert [a][1..] == [];
    assert Execute(Apply(s, a), []) == Some(Apply(s, a));
  }

  lemma PowerLossShows(s: State, k: nat)
    requires Inv(s) && k < |s.dirs| && !Whole(s, s.dirs[k].dest)
    ensures Execute(s, [PowerLoss(k, map[])]).Some? && !HoldsWhole(Execute(s, [PowerLoss(k, map[])]).value)
  {
    OneStep(s, PowerLoss(k, map[]));
    hide Whole;
    assert LinkSettled(s, s.dirs[k].dest);
    PowerLossKeepsLinks(s, PowerLoss(k, map[]), s.dirs[k].dest);
  }

  /**
   * Durability, exactly: the destination holds a whole body for good, through every further step, crash and power
   * loss, if and only if every directory that a power loss may restore already has one.
   */
  lemma DurableIff(s: State)
    requires Reachable(s)
    ensures (forall actions :: Execute(s, actions).Some? ==> HoldsWhole(Execute(s, actions).value)) <==> Secure(s)
  {
    ReachableInv(s);
    assert s.dirs != [];
    hide Execute, Inv, Whole;
    forall actions | Execute(s, actions).Some? && Secure(s) ensures HoldsWhole(Execute(s, actions).value) {
      SecureKept(s, actions);
    }
    if !Secure(s) {
      var k :| 0 <= k < |s.dirs| && !Whole(s, s.dirs[k].dest);
      PowerLossShows(s, k);
    }
  }

  lemma PersistSecures(s: State)
    requires s.dirs != [] && HoldsWhole(s)
    ensures Enabled(s, Persist(Newest(s))) && Secure(Apply(s, Persist(Newest(s))))
  {
    var t := Apply(s, Persist(Newest(s)));
    assert t.dirs == [Present(s)];
    var k :| 0 <= k < |s.publishers| && Content(s, Present(s).dest) == Regular(File(s.publishers[k].body, true));
    assert Content(t, Present(s).dest) == Regular(File(t.publishers[k].body, true));
  }

  /** Once the present directory has reached the disk, a success before any power loss is durable. */
  lemma PersistedSuccessIsDurable(s: State, i: nat, actions: seq<Action>)
    requires Reachable(s) && i < |s.publishers| && ReportedSuccess(s.publishers[i]) && !s.publishers[i].doubted
    requires Execute(s, [Persist(Newest(s))] + actions).Some?
    ensures HoldsWhole(Execute(s, [Persist(Newest(s))] + actions).value)
  {
    ReachableInv(s);
    var a := Persist(Newest(s));
    assert ([a] + actions)[1..] == actions;
    StepKeepsInv(s, a);
    assert HoldsWhole(s);
    PersistSecures(s);
    hide Inv, Whole;
    SecureKept(Apply(s, a), actions);
  }

  /** Publishers of the same image agree: after a success, and until a power loss, the destination is that image. */
  lemma SameImageIsThere(s: State, i: nat, body: seq<byte>)
    requires Reachable(s) && i < |s.publishers| && ReportedSuccess(s.publishers[i])
    requires !s.publishers[i].doubted || Secure(s)
    requires forall j :: 0 <= j < |s.publishers| ==> s.publishers[j].body == body
    ensures Content(s, Present(s).dest) == Regular(File(body, true))
  {
    ReachableInv(s);
    var k :| 0 <= k < |s.publishers| && Content(s, Present(s).dest) == Regular(File(s.publishers[k].body, true));
  }

  // ---- temporary files ----------------------------------------------------------------------------

  /** A publisher that ends without crashing, and whose cleanup works, leaves no temporary file until a power loss. */
  lemma NoTemporaryFileIsLeft(s: State, i: nat)
    requires Reachable(s) && i < |s.publishers| && s.publishers[i].pc.Done?
    requires !s.publishers[i].leaked && !s.publishers[i].doubted
    ensures s.publishers[i].name !in Present(s).temps
  {
    ReachableInv(s);
    assert TempInStep(s, s.publishers[i]);
  }

  predicate Ended(p: Publisher) {
    p.pc.Done? || p.pc.Crashed?
  }

  predicate Gone(s: State, name: nat) {
    s.dirs != [] && forall k :: 0 <= k < |s.dirs| ==> name !in s.dirs[k].temps
  }

  lemma StepKeepsGone(s: State, a: Action, i: nat)
    requires DistinctNames(s.publishers) && Enabled(s, a)
    requires i < |s.publishers| && Ended(s.publishers[i]) && Gone(s, s.publishers[i].name)
    ensures var t := Apply(s, a);
            && |t.publishers| == |s.publishers| && t.publishers[i].name == s.publishers[i].name
              && Ended(t.publishers[i])
            && Gone(t, s.publishers[i].name)
  {
    if a.Create? && a.ok { assert s.publishers[a.i].name != s.publishers[i].name; }
  }

  lemma {:induction false} GoneKept(s: State, i: nat, actions: seq<Action>)
    requires Inv(s) && i < |s.publishers| && Ended(s.publishers[i]) && Gone(s, s.publishers[i].name)
    requires Execute(s, actions).Some?
    ensures Gone(Execute(s, actions).value, s.publishers[i].name)
    decreases |actions|
  {
    if actions != [] {
      StepKeepsInv(s, actions[0]);
      StepKeepsGone(s, actions[0], i);
      hide Inv, Gone, Apply, Enabled;
      GoneKept(Apply(s, actions[0]), i, actions[1..]);
    }
  }

  lemma PowerLossRestores(s: State, k: nat)
    requires k < |s.dirs|
    ensures Execute(s, [PowerLoss(k, map[])]).Some? && Present(Execute(s, [PowerLoss(k, map[])]).value) == s.dirs[k]
  {
    OneStep(s, PowerLoss(k, map[]));
  }

  /**
   * The temporary file of a publisher that has ended or crashed is gone for good if and only if no directory that a
   * power loss may restore has it.
   */
  lemma GoneForGoodIff(s: State, i: nat)
    requires Reachable(s) && i < |s.publishers| && Ended(s.publishers[i])
    ensures (forall actions :: Execute(s, actions).Some? ==>
               s.publishers[i].name !in Present(Execute(s, actions).value).temps) <==> Gone(s, s.publishers[i].name)
  {
    ReachableInv(s);
    var name := s.publishers[i].name;
    assert s.dirs != [];
    hide Execute, Inv;
    forall actions | Execute(s, actions).Some? && Gone(s, name)
      ensures name !in Present(Execute(s, actions).value).temps
    {
      GoneKept(s, i, actions);
    }
    if !Gone(s, name) {
      var k :| 0 <= k < |s.dirs| && name in s.dirs[k].temps;
      PowerLossRestores(s, k);
    }
  }

  // ---- a success that a power loss undoes ---------------------------------------------------------

  const BODY: seq<byte> := [7]

  function Lone(pc: Pc): Publisher {
    Publisher(BODY, 0, pc, false, false)
  }

  lemma Go(s0: State, actions: seq<Action>, s: State, a: Action, t: State)
    requires Execute(s0, actions) == Some(s) && Enabled(s, a)
    requires var u := Apply(s, a);
             u.prior == t.prior && u.files == t.files && u.dirs == t.dirs && u.publishers == t.publishers
    ensures Execute(s0, actions + [a]) == Some(t)
    decreases |actions|
  {
    assert Apply(s, a) == t;
    if actions == [] {
      OneStep(s, a);
      assert [] + [a] == [a];
    } else {
      assert (actions + [a])[1..] == actions[1..] + [a];
      Go(Apply(s0, actions[0]), actions[1..], s, a, t);
    }
  }

  const FRESH: Dir := Dir(Before, {})
  const WITH_TEMP: Dir := Dir(Before, {0})

  lemma LoneIsSynced() returns (actions: seq<Action>)
    ensures Execute(State(Absent, map[], [FRESH], [Lone(Checking)]), actions)
         == Some(State(Absent, map[0 := File(BODY, true)], [FRESH, WITH_TEMP], [Lone(Renaming)]))
  {
    var s0 := State(Absent, map[], [FRESH], [Lone(Checking)]);
    assert Execute(s0, []) == Some(s0);
    hide Execute;
    var s1 := s0.(publishers := [Lone(Creating)]);
    Go(s0, [], s0, Check(0, true), s1);
    assert {} + {0} == {0};
    var s2 := State(Absent, map[0 := File([], false)], [FRESH, WITH_TEMP], [Lone(Writing(0))]);
    Go(s0, [] + [Check(0, true)], s1, Create(0, true), s2);
    var s3 := State(Absent, map[0 := File(BODY, false)], [FRESH, WITH_TEMP], [Lone(Syncing)]);
    assert BODY[..1] == BODY;
    Go(s0, [] + [Check(0, true)] + [Create(0, true)], s2, Write(0, 1, true), s3);
    actions := [] + [Check(0, true)] + [Create(0, true)] + [Write(0, 1, true)];
    Go(s0, actions, s3, Sync(0, true), State(Absent, map[0 := File(BODY, true)], [FRESH, WITH_TEMP], [Lone(Renaming)]));
    actions := actions + [Sync(0, true)];
  }

  /** A publisher reports success, the power is lost, and the image is gone and its temporary file is back. */
  lemma PowerLossUndoesSuccess()
    ensures exists s :: Reachable(s) && |s.publishers| == 1 && s.publishers[0].pc == Done(Published)
                        && Content(s, Present(s).dest) == Absent && s.publishers[0].name in Present(s).temps
  {
    var s0 := State(Absent, map[], [FRESH], [Lone(Checking)]);
    var actions := LoneIsSynced();
    hide Execute;
    var s1 := State(Absent, map[0 := File(BODY, true)], [FRESH, WITH_TEMP], [Lone(Renaming)]);
    assert {0} - {0} == {};
    var s2 := State(Absent, s1.files, [FRESH, WITH_TEMP, Dir(Of(0), {})], [Lone(Done(Published))]);
    Go(s0, actions, s1, Rename(0, true), s2);
    var s3 := State(Absent, s1.files, [WITH_TEMP], [Lone(Done(Published)).(doubted := true)]);
    Go(s0, actions + [Rename(0, true)], s2, PowerLoss(1, map[]), s3);
    assert Init(s0) && Execute(s0, actions + [Rename(0, true)] + [PowerLoss(1, map[])]) == Some(s3);
  }
}
