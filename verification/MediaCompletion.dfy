// What the expansion of a media request promises, in every run: which sources are linked when it is complete, and what
// later steps can no longer change.
module MediaCompletion {
  import opened MediaExpansion

  // ---- what completion promises -------------------------------------------------------------------

  /**
   * In every run, the stable sources of a complete request were all admitted: a worker was told that each is linked.
   */
  lemma CompleteMeansAdmitted(s: State, stable: set<Source>)
    requires Reachable(s, stable) && s.complete
    ensures stable <= s.admitted
  {
    ReachableInv(s, stable);
  }

  /** In the holder's pass, a row is linked exactly when its number was free at the claim. */
  lemma RowIsLinkedIff(links: map<Place, Source>, base: map<Place, Source>, rows: seq<Source>, claimed: nat, i: nat)
    requires i < |rows| && FreshRows(rows, base) && Grown(links, base, rows, claimed, |rows|)
    ensures rows[i] in links.Values <==> PlaceOf(rows, claimed, i) !in base
  {
    if PlaceOf(rows, claimed, i) !in base {
      assert links[PlaceOf(rows, claimed, i)] == rows[i];
    } else {
      forall p | p in links ensures links[p] != rows[i] {
        if p in base {
          assert links[p] in base.Values;
        } else {
          var j: nat :| j < |rows| && p == PlaceOf(rows, claimed, j) && links[p] == rows[j];
          assert i != j;
        }
      }
    }
  }

  /**
   * What completion promises, exactly: when a worker is about to mark the request complete, every stable source is
   * linked if and only if no stable source of its last batch was given a number that was taken at the claim.
   */
  lemma CompletingPassLinksAllIff(s: State, w: nat, stable: set<Source>)
    requires Reachable(s, stable) && w in s.workers && Holds(s, w) && s.workers[w].Releasing? && s.workers[w].exhausted
    ensures var pc := s.workers[w];
            stable <= s.links.Values <==>
            forall i: nat :: i < |pc.rows| && pc.rows[i] in stable ==> PlaceOf(pc.rows, pc.claimed, i) !in pc.base
  {
    ReachableInv(s, stable);
    var pc := s.workers[w];
    assert WorkerOk(s, pc, stable) && HolderOk(s, pc);
    hide Inv, FreshRows, Grown;
    forall i: nat | i < |pc.rows|
      ensures pc.rows[i] in s.links.Values <==> PlaceOf(pc.rows, pc.claimed, i) !in pc.base
    {
      RowIsLinkedIff(s.links, pc.base, pc.rows, pc.claimed, i);
    }
    hide PlaceOf;
    if stable <= s.links.Values {
      forall i: nat | i < |pc.rows| && pc.rows[i] in stable ensures PlaceOf(pc.rows, pc.claimed, i) !in pc.base {
        assert pc.rows[i] in s.links.Values;
      }
    }
  }

  /** No link has a number above the saved cursor. */
  predicate Clean(links: map<Place, Source>, cursor: nat) {
    forall p :: p in links ==> p.number <= cursor
  }

  /** A run in which every claim finds no number above the cursor taken. */
  ghost predicate CleanRun(s: State, actions: seq<Action>)
    decreases |actions|
  {
    actions == []
    || (Enabled(s, actions[0]) && (actions[0].Claim? ==> Clean(s.links, s.cursor))
        && CleanRun(Apply(s, actions[0]), actions[1..]))
  }

  /** The holder's claim was clean. */
  predicate FromClean(pc: Pc) {
    pc.Claimed? || pc.Linking? || pc.Releasing? ==> Clean(pc.base, pc.claimed)
  }

  ghost predicate CleanInv(s: State, stable: set<Source>) {
    && (s.complete ==> stable <= s.links.Values)
    && forall w :: w in s.workers && Holds(s, w) ==> FromClean(s.workers[w])
  }

  lemma CleanPassLinksAll(s: State, pc: Pc, stable: set<Source>)
    requires pc.Releasing? && pc.exhausted && WorkerOk(s, pc, stable) && HolderOk(s, pc) && Clean(pc.base, pc.claimed)
    ensures stable <= s.links.Values
  {
    hide Grown, FreshRows;
    forall k | k in stable ensures k in s.links.Values {
      if k in pc.rows {
        var i :| 0 <= i < |pc.rows| && pc.rows[i] == k;
        RowIsLinkedIff(s.links, pc.base, pc.rows, pc.claimed, i);
      }
    }
  }

  lemma OwnStepStaysClean(s: State, a: Action)
    requires Enabled(s, a) && !a.Expire? && !a.Cancel? && !a.Change? && (a.Claim? ==> Clean(s.links, s.cursor))
    requires Holds(s, a.w) ==> FromClean(PcOf(s, a.w))
    ensures a.w in s.workers && (Holds(Apply(s, a), a.w) ==> FromClean(Apply(s, a).workers[a.w]))
  {
    hide Clean, IsBatch, Link;
  }

  lemma CleanStepKeeps(s: State, a: Action, stable: set<Source>)
    requires Inv(s, stable) && CleanInv(s, stable) && Enabled(s, a) && (a.Change? ==> stable <= a.sources)
    requires a.Claim? ==> Clean(s.links, s.cursor)
    ensures CleanInv(Apply(s, a), stable)
  {
    var t := Apply(s, a);
    StepKeepsInv(s, a, stable);
    if a.Release? && Holds(s, a.w) && PcOf(s, a.w).exhausted {
      assert WorkerOk(s, PcOf(s, a.w), stable) && HolderOk(s, PcOf(s, a.w)) && FromClean(PcOf(s, a.w));
      CleanPassLinksAll(s, PcOf(s, a.w), stable);
    }
    assert t.complete ==> s.complete || (a.Release? && Holds(s, a.w) && PcOf(s, a.w).exhausted);
    hide Inv, FromClean, WorkerOk, HolderOk;
    forall w | w in t.workers && Holds(t, w) ensures FromClean(t.workers[w]) {
      if Acts(a, w) {
        assert Holds(s, w) ==> FromClean(s.workers[w]);
        OwnStepStaysClean(s, a);
      } else if !a.Admit? {
        OthersUntouched(s, a, w);
      } else {
        assert t.workers[w] == s.workers[w] && Holds(s, w);
      }
    }
  }

  lemma {:induction false} CleanRunKeeps(s: State, actions: seq<Action>, end: State, stable: set<Source>)
    requires Inv(s, stable) && CleanInv(s, stable) && Run(s, actions, end, stable) && CleanRun(s, actions)
    ensures CleanInv(end, stable)
    decreases |actions|
  {
    if actions != [] {
      hide Inv, CleanInv;
      StepKeepsInv(s, actions[0], stable);
      CleanStepKeeps(s, actions[0], stable);
      CleanRunKeeps(Apply(s, actions[0]), actions[1..], end, stable);
    }
  }

  /** When every claim finds no number above the cursor taken, a complete request has every stable source linked. */
  lemma NoSourceIsSkipped(s0: State, actions: seq<Action>, s: State, stable: set<Source>)
    requires Init(s0, stable) && Run(s0, actions, s, stable) && CleanRun(s0, actions) && s.complete
    ensures stable <= s.links.Values
  {
    CleanRunKeeps(s0, actions, s, stable);
  }

  /** A pass from a clean claim that ends by its own release leaves the request clean for the next. */
  lemma CleanReleaseStaysClean(s: State, w: nat, replied: bool, stable: set<Source>)
    requires Reachable(s, stable) && w in s.workers && Holds(s, w) && s.workers[w].Releasing? && FromClean(s.workers[w])
    ensures var t := Apply(s, Release(w, true, replied)); Clean(t.links, t.cursor)
  {
    ReachableInv(s, stable);
    var pc := s.workers[w];
    assert HolderOk(s, pc);
    forall p | p in s.links ensures p.number <= pc.claimed + pc.next {
      if p !in pc.base {
        var i: nat :| i < pc.next && p == PlaceOf(pc.rows, pc.claimed, i) && s.links[p] == pc.rows[i];
      }
    }
  }

  // ---- links, cursor and end ----------------------------------------------------------------------

  /** Links are never changed or removed, and no source is linked twice, whatever happens later. */
  lemma LinksAreForGood(s: State, actions: seq<Action>, end: State, stable: set<Source>)
    requires Reachable(s, stable) && Run(s, actions, end, stable)
    ensures forall p :: p in s.links ==> p in end.links && end.links[p] == s.links[p]
    ensures OneLinkEach(end.links)
  {
    ReachableInv(s, stable);
    RunKeepsInv(s, actions, end, stable);
  }

  /** The saved cursor never goes back, not even when a worker releases with the cursor it was given. */
  lemma CursorNeverGoesBack(s: State, stable: set<Source>, a: Action)
    requires Reachable(s, stable) && Enabled(s, a)
    ensures s.cursor <= Apply(s, a).cursor
  {
    ReachableInv(s, stable);
    if a.Release? || a.ReleaseAfterError? {
      assert WorkerOk(s, PcOf(s, a.w), stable) && (Holds(s, a.w) ==> HolderOk(s, PcOf(s, a.w)));
    }
  }

  /** The holder releases the request without having come to the end of the sources. */
  predicate Reopens(s: State, a: Action)
    requires Enabled(s, a)
  {
    match a
    case Release(w, delivered, _) => Holds(s, w) && delivered && !PcOf(s, w).exhausted
    case ReleaseAfterError(w, delivered) => Holds(s, w) && delivered
    case _ => false
  }

  ghost predicate NeverReopened(s: State, actions: seq<Action>)
    decreases |actions|
  {
    actions == []
    || (Enabled(s, actions[0]) && !Reopens(s, actions[0]) && NeverReopened(Apply(s, actions[0]), actions[1..]))
  }

  /** A complete request stays complete, with every stable source admitted, exactly until such a release. */
  lemma CompletionIsLostIff(s: State, a: Action, stable: set<Source>)
    requires Reachable(s, stable) && s.complete && Enabled(s, a) && (a.Change? ==> stable <= a.sources)
    ensures !Apply(s, a).complete <==> Reopens(s, a)
    ensures stable <= Apply(s, a).admitted
  {
    ReachableInv(s, stable);
    StepKeepsInv(s, a, stable);
  }

  lemma {:induction false} CompleteUntilReopened(s: State, actions: seq<Action>, end: State, stable: set<Source>)
    requires Run(s, actions, end, stable) && s.complete && NeverReopened(s, actions)
    ensures end.complete
    decreases |actions|
  {
    if actions != [] { CompleteUntilReopened(Apply(s, actions[0]), actions[1..], end, stable); }
  }

  /** Cancelled, or over with no worker left that might still refresh it: a late refresh can open a request again. */
  predicate Closed(s: State) {
    s.status.Withdrawn? || (s.status.Over? && forall w :: w in s.workers ==> !s.workers[w].Refreshing?)
  }

  lemma StepKeepsClosed(s: State, a: Action)
    requires Closed(s) && Enabled(s, a)
    ensures var t := Apply(s, a);
            Closed(t) && t.cursor == s.cursor && t.complete == s.complete && t.links == s.links
              && t.admitted == s.admitted
  {
    if !a.Expire? && !a.Cancel? && !a.Change? { assert a.w in s.workers; }
  }

  /** Once a request is closed, its cursor, its links and its completeness never change. */
  lemma {:induction false} ClosedIsFinal(s: State, actions: seq<Action>, end: State, stable: set<Source>)
    requires Run(s, actions, end, stable) && Closed(s)
    ensures Closed(end) && end.cursor == s.cursor && end.complete == s.complete
    ensures end.links == s.links && end.admitted == s.admitted
    decreases |actions|
  {
    if actions != [] {
      StepKeepsClosed(s, actions[0]);
      hide Apply, Closed, Enabled;
      ClosedIsFinal(Apply(s, actions[0]), actions[1..], end, stable);
    }
  }

  lemma {:induction false} WithdrawnStays(s: State, actions: seq<Action>, end: State, stable: set<Source>)
    requires Run(s, actions, end, stable) && s.status.Withdrawn?
    ensures end.status.Withdrawn?
    decreases |actions|
  {
    if actions != [] {
      assert Apply(s, actions[0]).status.Withdrawn?;
      WithdrawnStays(Apply(s, actions[0]), actions[1..], end, stable);
    }
  }

  /** A cancellation takes the request from its holder at once, and nothing is linked or recorded for it afterwards. */
  lemma CancelIsFinal(s: State, actions: seq<Action>, end: State, stable: set<Source>)
    requires s.status.Open? && Run(Apply(s, Cancel), actions, end, stable)
    ensures Apply(s, Cancel).holder.None? && end.status.Withdrawn? && end.links == s.links
    ensures end.cursor == s.cursor && end.complete == s.complete
  {
    WithdrawnStays(Apply(s, Cancel), actions, end, stable);
    ClosedIsFinal(Apply(s, Cancel), actions, end, stable);
  }

  /**
   * A worker that has to wait for capacity, and whose release then arrives, leaves the cursor after the rows that it
   * admitted and the request incomplete, so that the next claim goes on from there.
   */
  lemma CapacityWaitKeepsProgress(s: State, w: nat, reuse: bool, replied: bool)
    requires Enabled(s, Admit(w, reuse, CapacityWait)) && Holds(s, w) && s.live
    ensures var t := Apply(s, Admit(w, reuse, CapacityWait));
            && t.links == s.links && t.admitted == s.admitted && Enabled(t, Release(w, true, replied))
            && var u := Apply(t, Release(w, true, replied));
               u.cursor == PcOf(s, w).claimed + PcOf(s, w).next && !u.complete && u.holder.None?
  {
  }

  /** Once a lease has run out, any worker that is idle or starts anew, even its last holder, may claim the request. */
  lemma ExpiredLeaseIsClaimable(s: State, w: nat)
    requires s.status.Open? && w in s.workers
    ensures var t := Apply(if s.workers[w].Idle? then s else Apply(s, Restart(w)), Expire);
            Enabled(t, Claim(w)) && Holds(Apply(t, Claim(w)), w) && Apply(t, Claim(w)).live
  {
  }

  /** Within a batch every source found was either queued or reused, and they are the rows so far. */
  lemma CountsAddUp(s: State, stable: set<Source>, w: nat)
    requires Reachable(s, stable) && w in s.workers && s.workers[w].Linking?
    ensures s.workers[w].counts.found == s.workers[w].counts.queued + s.workers[w].counts.reused == s.workers[w].next
  {
    ReachableInv(s, stable);
    assert WorkerOk(s, s.workers[w], stable);
  }
}
