// The lock-free throttle of component heartbeats: threads race with one load and one compare-and-swap each on a
// shared slot that holds the earliest time of the next write.
module HeartbeatThrottle {
  import opened JobQueue
  import opened Spacing
  import opened Widths

  function SaturatingAdd(a: u64, b: u64): u64 {
    if a + b <= U64_MAX then a + b else U64_MAX
  }

  /** `version` is history: how many writes had happened when the thread loaded the slot. */
  datatype Thread = Idle | Loaded(now: u64, seen: u64, version: nat)

  /** `claims` is history: the clock values of the successful claims, in order. */
  datatype State = State(slot: u64, threads: map<nat, Thread>, claims: seq<nat>)

  datatype Action = Load(thread: nat, now: u64) | Finish(thread: nat)

  predicate Enabled(s: State, a: Action) {
    match a
    case Load(t, _) => t in s.threads && s.threads[t].Idle?
    case Finish(t) => t in s.threads && s.threads[t].Loaded?
  }

  /** Whether the thread's `now >= next_write && compare_exchange(..)` succeeds. */
  predicate Wins(s: State, t: nat) {
    t in s.threads && s.threads[t].Loaded? && s.threads[t].now >= s.threads[t].seen && s.slot == s.threads[t].seen
  }

  function Apply(interval: u64, s: State, a: Action): State
    requires Enabled(s, a)
  {
    match a
    case Load(t, now) => s.(threads := s.threads[t := Loaded(now, s.slot, |s.claims|)])
    case Finish(t) =>
      var idle := s.(threads := s.threads[t := Idle]);
      if Wins(s, t)
      then idle.(slot := SaturatingAdd(s.threads[t].now, interval), claims := s.claims + [s.threads[t].now])
      else idle
  }

  function Execute(interval: u64, s: State, actions: seq<Action>): Option<State>
    decreases |actions|
  {
    if actions == [] then Some(s)
    else if Enabled(s, actions[0]) then Execute(interval, Apply(interval, s, actions[0]), actions[1..])
    else None
  }

  predicate Init(s: State) {
    s.slot == 0 && s.claims == [] && forall t :: t in s.threads ==> s.threads[t].Idle?
  }

  ghost predicate Reachable(interval: u64, s: State) {
    exists s0: State, actions :: Init(s0) && Execute(interval, s0, actions) == Some(s)
  }

  /** No claim but possibly the last one reached the end of the clock. */
  predicate Unsaturated(claims: seq<nat>, interval: u64) {
    forall i :: 0 <= i < |claims| - 1 ==> claims[i] + interval <= U64_MAX
  }

  ghost predicate Inv(interval: u64, s: State) {
    && s.slot == (if s.claims == [] then 0 else Saturated(s.claims[|s.claims| - 1], interval))
    && (forall i :: 0 <= i < |s.claims| ==> s.claims[i] <= U64_MAX)
    && (forall i :: 0 < i < |s.claims| ==> s.claims[i] >= Saturated(s.claims[i - 1], interval))
    && (forall t :: t in s.threads && s.threads[t].Loaded? ==>
          && s.threads[t].version <= |s.claims|
          && s.threads[t].seen == SlotAt(interval, s.claims, s.threads[t].version))
  }

  function Saturated(now: nat, interval: u64): nat {
    if now + interval <= U64_MAX then now + interval else U64_MAX
  }

  /** The slot after the first `version` claims. */
  function SlotAt(interval: u64, claims: seq<nat>, version: nat): nat
    requires version <= |claims|
  {
    if version == 0 then 0 else Saturated(claims[version - 1], interval)
  }

  lemma {:induction false} InvKept(interval: u64, s: State, actions: seq<Action>)
    requires Inv(interval, s) && Execute(interval, s, actions).Some?
    ensures Inv(interval, Execute(interval, s, actions).value)
    decreases |actions|
  {
    if actions != [] {
      InvStep(interval, s, actions[0]);
      InvKept(interval, Apply(interval, s, actions[0]), actions[1..]);
    }
  }

  lemma InvStep(interval: u64, s: State, a: Action)
    requires Inv(interval, s) && Enabled(s, a)
    ensures Inv(interval, Apply(interval, s, a))
  {
  }

  lemma ReachableInv(interval: u64, s: State)
    requires Reachable(interval, s)
    ensures Inv(interval, s)
  {
    var s0: State, actions :| Init(s0) && Execute(interval, s0, actions) == Some(s);
    InvKept(interval, s0, actions);
  }

  /** Whatever the interleaving, claims are an interval apart exactly when none before the last saturated the slot. */
  lemma ClaimsAreSpacedIff(interval: u64, s: State)
    requires Reachable(interval, s)
    ensures Spaced(s.claims, interval) <==> Unsaturated(s.claims, interval)
  {
    ReachableInv(interval, s);
    if Spaced(s.claims, interval) {
      forall i | 0 <= i < |s.claims| - 1 ensures s.claims[i] + interval <= U64_MAX {
        assert s.claims[i + 1 - 1] + interval <= s.claims[i + 1];
      }
    }
  }

  /** At most one heartbeat write for each started interval of a window. */
  lemma ClaimsPerWindow(interval: u64, s: State, from: nat, width: nat)
    requires Reachable(interval, s) && interval > 0 && Unsaturated(s.claims, interval)
    ensures CountIn(s.claims, from, from + width) <= (width + interval - 1) / interval
  {
    ClaimsAreSpacedIff(interval, s);
    WindowBound(s.claims, interval, from, width);
  }

  lemma {:induction false} SlotsAscend(interval: u64, s: State, v: nat, w: nat)
    requires Inv(interval, s) && interval > 0 && v < w <= |s.claims|
    requires forall i :: 0 <= i < w ==> s.claims[i] + interval <= U64_MAX
    ensures SlotAt(interval, s.claims, v) < SlotAt(interval, s.claims, w)
    decreases w
  {
    if v < w - 1 { SlotsAscend(interval, s, v, w - 1); }
  }

  /** Below saturation a successful compare-and-swap proves that nothing was written since the thread's load. */
  lemma NoLostUpdate(interval: u64, s: State, t: nat)
    requires Reachable(interval, s) && interval > 0 && Wins(s, t)
    requires forall i :: 0 <= i < |s.claims| ==> s.claims[i] + interval <= U64_MAX
    ensures s.threads[t].version == |s.claims|
    ensures Apply(interval, s, Finish(t)).slot > s.slot || s.threads[t].now == U64_MAX
  {
    ReachableInv(interval, s);
    if s.threads[t].version < |s.claims| {
      SlotsAscend(interval, s, s.threads[t].version, |s.claims|);
    }
  }

  /** Of the threads that loaded the same version, the first to finish is the only one to succeed. */
  lemma OneWinnerPerVersion(interval: u64, s: State, t: nat, u: nat)
    requires Reachable(interval, s) && interval > 0 && Wins(s, t) && u != t && Wins(s, u)
    requires s.threads[t].now + interval <= U64_MAX
    ensures Enabled(Apply(interval, s, Finish(t)), Finish(u)) && !Wins(Apply(interval, s, Finish(t)), u)
  {
  }

  /**
   * A thread that is not interfered with claims exactly when nothing was claimed yet, or an interval has passed since
   * the last claim, or the clock is at its end.
   */
  lemma LoneThreadClaimsIff(interval: u64, s: State, t: nat, now: u64)
    requires Reachable(interval, s) && Enabled(s, Load(t, now))
    ensures var loaded := Apply(interval, s, Load(t, now));
            && Enabled(loaded, Finish(t))
            && Apply(interval, loaded, Finish(t)).claims ==
               if s.claims == [] || now >= s.claims[|s.claims| - 1] + interval || now == U64_MAX then s.claims + [now]
               else s.claims
  {
    ReachableInv(interval, s);
    hide Reachable;
  }

  /** A thread whose time had come and whose swap fails was overtaken: another claimed after its load. */
  lemma LosingMeansAnotherClaimed(interval: u64, s: State, t: nat)
    requires Reachable(interval, s) && Enabled(s, Finish(t)) && s.threads[t].now >= s.threads[t].seen
    requires Apply(interval, s, Finish(t)).claims == s.claims
    ensures s.threads[t].version < |s.claims|
  {
    ReachableInv(interval, s);
    hide Reachable;
  }

  lemma {:induction false} ExecuteAppend(interval: u64, s: State, a: seq<Action>, b: seq<Action>)
    requires Execute(interval, s, a).Some?
    ensures Execute(interval, s, a + b) == Execute(interval, Execute(interval, s, a).value, b)
    decreases |a|
  {
    if a == [] {
      assert a + b == b;
    } else {
      assert (a + b)[1..] == a[1..] + b;
      ExecuteAppend(interval, Apply(interval, s, a[0]), a[1..], b);
    }
  }

  /** A lone thread at the end of the clock claims whatever the slot says. */
  lemma ClaimAtTheEnd(s: State)
    requires s.threads == map[1 := Idle]
    ensures Execute(5, s, [Load(1, U64_MAX)] + [Finish(1)])
      == Some(State(U64_MAX, map[1 := Idle], s.claims + [U64_MAX]))
  {
    var loaded := Apply(5, s, Load(1, U64_MAX));
    assert Enabled(loaded, Finish(1)) && Wins(loaded, 1);
    var claimed := Apply(5, loaded, Finish(1));
    assert claimed.threads == map[1 := Idle] && claimed.slot == U64_MAX;
    assert claimed == State(U64_MAX, map[1 := Idle], s.claims + [U64_MAX]);
    ExecuteOne(loaded, Finish(1), []);
    assert [Finish(1)] + [] == [Finish(1)];
    ExecuteOne(s, Load(1, U64_MAX), [Finish(1)]);
  }

  lemma ExecuteOne(s: State, a: Action, rest: seq<Action>)
    requires Enabled(s, a)
    ensures Execute(5, s, [a] + rest) == Execute(5, Apply(5, s, a), rest)
  {
  }

  /** At the end of the clock the same time is claimed twice, through one load each. */
  lemma SaturationClaimsTwice()
    ensures exists s: State :: Reachable(5, s) && s.claims == [U64_MAX as nat, U64_MAX] && !Spaced(s.claims, 5)
  {
    var once := [Load(1, U64_MAX)] + [Finish(1)];
    var s0, s1 := State(0, map[1 := Idle], []), State(U64_MAX, map[1 := Idle], [U64_MAX]);
    ClaimAtTheEnd(s0);
    ClaimAtTheEnd(s1);
    ExecuteAppend(5, s0, once, once);
    var s2 := State(U64_MAX, map[1 := Idle], [U64_MAX, U64_MAX]);
    assert s0.claims + [U64_MAX] == s1.claims && s1.claims + [U64_MAX] == s2.claims;
    assert Init(s0) && Execute(5, s0, once + once) == Some(s2);
    assert !(s2.claims[1 - 1] + 5 <= s2.claims[1]);
  }
}
