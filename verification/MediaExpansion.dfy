// The expansion of one media request: workers claim it, number and link a batch of its image sources from the saved
// cursor on, and release it with a new cursor. Leases expire, admission waits for queue capacity, any call may fail,
// replies get lost, and sources come and go meanwhile. The database gives numbers to the sources that are not linked
// yet, afresh for each batch, and drops a link whose number is taken.
module MediaExpansion {
  import opened JobQueue

  const BATCH_SIZE: nat := 250

  /** An image source of one requested title; `key` stands for its place in the order within the title. */
  datatype Source = Source(item: nat, key: int)

  /** The primary key of a link: the requested title and the number the source was given. */
  datatype Place = Place(item: nat, number: nat)

  datatype Counts = Counts(found: nat, queued: nat, reused: nat)

  /**
   * Where a worker stands in `process_request`. `claimed` is the cursor that came with its claim; `base` is history,
   * the links at that moment.
   */
  datatype Pc =
    | Idle
    | Claimed(claimed: nat, base: map<Place, Source>)
    | Linking(claimed: nat, base: map<Place, Source>, rows: seq<Source>, next: nat, counts: Counts)
    | Releasing(claimed: nat, base: map<Place, Source>, rows: seq<Source>, next: nat, exhausted: bool)
    | Refreshing(claimed: nat)
    | Failing(claimed: nat)

  /** `Open` is queued or running, `Over` succeeded, partial or failed, `Withdrawn` cancelled. */
  datatype RequestStatus = Open | Over | Withdrawn

  /**
   * The request row with its lease, the selectable sources, the links, the workers, and as history the sources that a
   * worker was told are linked.
   */
  datatype State = State(cursor: nat, complete: bool, status: RequestStatus, holder: Option<nat>, live: bool,
                         sources: set<Source>, links: map<Place, Source>, admitted: set<Source>, workers: map<nat, Pc>)

  /** How one admission ends when the claim is in force: `LostReply` commits, but the worker sees an error. */
  datatype Admission = Links | CapacityWait | Fails | LostReply

  datatype Action =
    | Claim(w: nat)
    | SelectSources(w: nat, ok: bool, rows: seq<Source>)
    | Admit(w: nat, reuse: bool, admission: Admission)
    | EndBatch(w: nat)
    | Release(w: nat, delivered: bool, replied: bool)
    | Refresh(w: nat, delivered: bool, replied: bool, ends: bool)
    | ReleaseAfterError(w: nat, delivered: bool)
    | Restart(w: nat)
    | Expire
    | Cancel
    | Change(sources: set<Source>)

  function PcOf(s: State, w: nat): Pc {
    if w in s.workers then s.workers[w] else Idle
  }

  predicate Precedes(a: Source, b: Source) {
    a.item < b.item || (a.item == b.item && a.key < b.key)
  }

  /** `assets.select_media_request_sources`: the first sources that are not linked, in order. */
  predicate IsBatch(rows: seq<Source>, remaining: set<Source>) {
    && |rows| <= BATCH_SIZE
    && (forall i :: 0 <= i < |rows| ==> rows[i] in remaining)
    && (forall i, j :: 0 <= i < j < |rows| ==> Precedes(rows[i], rows[j]))
    && (forall k :: k in remaining && k !in rows ==> |rows| == BATCH_SIZE && Precedes(rows[|rows| - 1], k))
  }

  /** The key under which row `i` of a batch is linked. */
  function PlaceOf(rows: seq<Source>, claimed: nat, i: nat): Place
    requires i < |rows|
  {
    Place(rows[i].item, claimed + 1 + i)
  }

  predicate Enabled(s: State, a: Action) {
    match a
    case Claim(w) => w in s.workers && PcOf(s, w).Idle? && s.status.Open? && (s.holder.None? || !s.live)
    case SelectSources(w, ok, rows) =>
      w in s.workers && PcOf(s, w).Claimed? && (ok ==> IsBatch(rows, s.sources - s.links.Values))
    case Admit(w, reuse, admission) =>
      w in s.workers && PcOf(s, w).Linking? && PcOf(s, w).next < |PcOf(s, w).rows|
        && (reuse ==> !admission.CapacityWait?)
    case EndBatch(w) => w in s.workers && PcOf(s, w).Linking? && PcOf(s, w).next == |PcOf(s, w).rows|
    case Release(w, delivered, replied) => w in s.workers && PcOf(s, w).Releasing? && (replied ==> delivered)
    case Refresh(w, delivered, replied, ends) =>
      w in s.workers && PcOf(s, w).Refreshing? && (replied ==> delivered) && (ends ==> s.complete)
    case ReleaseAfterError(w, _) => w in s.workers && PcOf(s, w).Failing?
    case Restart(w) => w in s.workers
    case Expire => true
    case Cancel => true
    case Change(_) => true
  }

  function Moved(s: State, w: nat, pc: Pc): State {
    s.(workers := s.workers[w := pc])
  }

  /** The worker's name is on the request: `ops.advance_media_request` asks no more. */
  predicate Holds(s: State, w: nat) {
    s.holder == Some(w) && s.status.Open?
  }

  function Counted(c: Counts, reuse: bool): Counts {
    if reuse then Counts(c.found + 1, c.queued, c.reused + 1) else Counts(c.found + 1, c.queued + 1, c.reused)
  }

  /**
   * `ops.link_media_request_asset`: a taken number drops the link; a source linked under another number is an error.
   */
  function Link(links: map<Place, Source>, place: Place, source: Source): Option<map<Place, Source>> {
    if place in links then Some(links) else if source in links.Values then None else Some(links[place := source])
  }

  function Apply(s: State, a: Action): State
    requires Enabled(s, a)
  {
    match a
    case Claim(w) => Moved(s, w, Claimed(s.cursor, s.links)).(holder := Some(w), live := true)
    case SelectSources(w, ok, rows) =>
      var pc := PcOf(s, w);
      Moved(s, w, if ok then Linking(pc.claimed, pc.base, rows, 0, Counts(0, 0, 0)) else Failing(pc.claimed))
    case Admit(w, reuse, admission) =>
      var pc := PcOf(s, w);
      var links := Link(s.links, PlaceOf(pc.rows, pc.claimed, pc.next), pc.rows[pc.next]);
      if !Holds(s, w) || !s.live || admission.Fails? then Moved(s, w, Failing(pc.claimed))
      else if admission.CapacityWait? then Moved(s, w, Releasing(pc.claimed, pc.base, pc.rows, pc.next, false))
      else if links.None? then Moved(s, w, Failing(pc.claimed))
      else
        Moved(s, w, if admission.LostReply? then Failing(pc.claimed)
                    else pc.(next := pc.next + 1, counts := Counted(pc.counts, reuse)))
          .(links := links.value, admitted := s.admitted + {pc.rows[pc.next]})
    case EndBatch(w) =>
      var pc := PcOf(s, w);
      Moved(s, w, Releasing(pc.claimed, pc.base, pc.rows, pc.next, |pc.rows| < BATCH_SIZE))
    case Release(w, delivered, replied) =>
      var pc := PcOf(s, w);
      if !Holds(s, w) || !delivered then Moved(s, w, Failing(pc.claimed))
      else
        Moved(s, w, if replied then Refreshing(pc.claimed) else Failing(pc.claimed))
          .(cursor := pc.claimed + pc.next, complete := pc.exhausted, holder := None, live := false)
    case Refresh(w, delivered, replied, ends) =>
      var t := Moved(s, w, if replied then Idle else Failing(PcOf(s, w).claimed));
      if delivered && !s.status.Withdrawn? then t.(holder := None, live := false, status := if ends then Over else Open)
        else t
    case ReleaseAfterError(w, delivered) =>
      if Holds(s, w) && delivered then
        Moved(s, w, Idle).(cursor := PcOf(s, w).claimed, complete := false, holder := None, live := false)
      else Moved(s, w, Idle)
    case Restart(w) => Moved(s, w, Idle)
    case Expire => s.(live := false)
    case Cancel => if s.status.Open? then s.(status := Withdrawn, holder := None, live := false) else s
    case Change(sources) => s.(sources := sources)
  }

  /** A run in which the sources of `stable` never go away. */
  ghost predicate Run(s: State, actions: seq<Action>, end: State, stable: set<Source>)
    decreases |actions|
  {
    if actions == [] then s == end
    else
      && Enabled(s, actions[0]) && (actions[0].Change? ==> stable <= actions[0].sources)
      && Run(Apply(s, actions[0]), actions[1..], end, stable)
  }

  ghost predicate Init(s: State, stable: set<Source>) {
    && !s.complete && s.status.Open? && s.holder.None? && stable <= s.sources && s.links == map[] && s.admitted == {}
    && forall w :: w in s.workers ==> s.workers[w].Idle?
  }

  ghost predicate Reachable(s: State, stable: set<Source>) {
    exists s0: State, actions :: Init(s0, stable) && Run(s0, actions, s, stable)
  }

  // ---- the invariant ------------------------------------------------------------------------------

  /** Each stable source is linked, or in the batch, or beyond a full batch. */
  predicate Covered(rows: seq<Source>, links: map<Place, Source>, stable: set<Source>) {
    forall k :: k in stable ==> k in links.Values || k in rows || |rows| == BATCH_SIZE
  }

  predicate Admitted(rows: seq<Source>, next: nat, admitted: set<Source>) {
    next <= |rows| && forall i :: 0 <= i < next ==> rows[i] in admitted
  }

  /** What a worker knows whether or not its claim is still in force. */
  ghost predicate WorkerOk(s: State, pc: Pc, stable: set<Source>) {
    match pc
    case Linking(_, _, rows, next, counts) =>
      && Covered(rows, s.links, stable) && Admitted(rows, next, s.admitted)
      && counts.found == next == counts.queued + counts.reused
    case Releasing(_, _, rows, next, exhausted) =>
      && Covered(rows, s.links, stable) && Admitted(rows, next, s.admitted)
      && (exhausted ==> next == |rows| < BATCH_SIZE)
    case _ => true
  }

  /** The batch was selected from what was not linked at the claim. */
  predicate FreshRows(rows: seq<Source>, base: map<Place, Source>) {
    && (forall i :: 0 <= i < |rows| ==> rows[i] !in base.Values)
    && (forall i, j :: 0 <= i < j < |rows| ==> Precedes(rows[i], rows[j]))
  }

  /** The links of the claim, and those of the batch's first rows whose numbers were free. */
  ghost predicate Grown(links: map<Place, Source>, base: map<Place, Source>, rows: seq<Source>, claimed: nat, next: nat)
    requires next <= |rows|
  {
    && (forall p :: p in base ==> p in links && links[p] == base[p])
    && (forall p :: p in links ==>
          p in base || exists i: nat :: i < next && p == PlaceOf(rows, claimed, i) && links[p] == rows[i])
    && (forall i: nat :: i < next && PlaceOf(rows, claimed, i) !in base ==>
          PlaceOf(rows, claimed, i) in links && links[PlaceOf(rows, claimed, i)] == rows[i])
  }

  /** While a worker's claim is in force, it alone has linked anything since. */
  ghost predicate HolderOk(s: State, pc: Pc) {
    match pc
    case Idle => true
    case Claimed(claimed, base) => claimed == s.cursor && s.links == base
    case Linking(claimed, base, rows, next, _) =>
      claimed == s.cursor && next <= |rows| && FreshRows(rows, base) && Grown(s.links, base, rows, claimed, next)
    case Releasing(claimed, base, rows, next, _) =>
      claimed == s.cursor && next <= |rows| && FreshRows(rows, base) && Grown(s.links, base, rows, claimed, next)
    case Refreshing(_) => false
    case Failing(claimed) => claimed == s.cursor
  }

  ghost predicate OneLinkEach(links: map<Place, Source>) {
    forall p, q :: p in links && q in links && links[p] == links[q] ==> p == q
  }

  ghost predicate Inv(s: State, stable: set<Source>) {
    && stable <= s.sources && s.links.Values <= s.admitted && OneLinkEach(s.links)
    && (s.complete ==> stable <= s.admitted)
    && forall w :: w in s.workers ==> WorkerOk(s, s.workers[w], stable) && (Holds(s, w) ==> HolderOk(s, s.workers[w]))
  }

  /** Links are kept and only added to; so are admissions. */
  ghost predicate Keeps(s: State, t: State) {
    && (forall p :: p in s.links ==> p in t.links && t.links[p] == s.links[p])
    && s.links.Values <= t.links.Values && s.admitted <= t.admitted
  }

  lemma WorkerStaysOk(s: State, t: State, pc: Pc, stable: set<Source>)
    requires WorkerOk(s, pc, stable) && Keeps(s, t)
    ensures WorkerOk(t, pc, stable)
  {
  }

  lemma LinkKeeps(links: map<Place, Source>, place: Place, source: Source)
    requires Link(links, place, source).Some?
    ensures var r := Link(links, place, source).value;
            && links.Values <= r.Values <= links.Values + {source}
            && (OneLinkEach(links) ==> OneLinkEach(r))
  {
    var r := Link(links, place, source).value;
    forall k | k in links.Values ensures k in r.Values {
      var p :| p in links && links[p] == k;
      assert p in r && r[p] == k;
    }
  }

  /** Linking the next row while nobody else links: it takes its place exactly when its number was free. */
  lemma GrownByOne(links: map<Place, Source>, base: map<Place, Source>, rows: seq<Source>, claimed: nat, next: nat)
    requires next < |rows| && FreshRows(rows, base) && Grown(links, base, rows, claimed, next)
    ensures var r := Link(links, PlaceOf(rows, claimed, next), rows[next]);
            r.Some? && Grown(r.value, base, rows, claimed, next + 1)
  {
    var place := PlaceOf(rows, claimed, next);
    assert place in links ==> place in base;
    forall p | p in links ensures links[p] != rows[next] {
      if p in base { assert links[p] in base.Values; }
    }
  }

  /** The worker's next position once its row is admitted. */
  lemma AdmittedRowKeeps(s: State, t: State, pc: Pc, counts: Counts, stable: set<Source>)
    requires pc.Linking? && pc.next < |pc.rows| && WorkerOk(s, pc, stable) && Keeps(s, t)
    requires pc.rows[pc.next] in t.admitted && counts.found == pc.next + 1 == counts.queued + counts.reused
    ensures WorkerOk(t, pc.(next := pc.next + 1, counts := counts), stable)
  {
  }

  predicate Succeeds(s: State, a: Action)
    requires Enabled(s, a) && a.Admit?
  {
    Holds(s, a.w) && s.live && !a.admission.Fails? && !a.admission.CapacityWait?
  }

  lemma RefusedKeeps(s: State, a: Action, stable: set<Source>)
    requires Inv(s, stable) && Enabled(s, a) && a.Admit? && !Succeeds(s, a)
    ensures Keeps(s, Apply(s, a)) && Apply(s, a).links == s.links && Apply(s, a).admitted == s.admitted
    ensures WorkerOk(Apply(s, a), Apply(s, a).workers[a.w], stable)
    ensures Holds(s, a.w) ==> HolderOk(Apply(s, a), Apply(s, a).workers[a.w])
  {
    assert WorkerOk(s, PcOf(s, a.w), stable);
    hide Covered, Admitted, Grown, FreshRows, OneLinkEach, Link;
  }

  /** An admission keeps the table, and leaves the holder's own links as they should be. */
  lemma LinkStepKeeps(s: State, t: State, pc: Pc, stable: set<Source>)
    requires Inv(s, stable) && pc.Linking? && pc.next < |pc.rows| && HolderOk(s, pc)
    requires var links := Link(s.links, PlaceOf(pc.rows, pc.claimed, pc.next), pc.rows[pc.next]);
             links.Some? ==> t.links == links.value && t.admitted == s.admitted + {pc.rows[pc.next]}
    ensures Link(s.links, PlaceOf(pc.rows, pc.claimed, pc.next), pc.rows[pc.next]).Some?
    ensures Keeps(s, t) && t.links.Values <= t.admitted && OneLinkEach(t.links)
    ensures Grown(t.links, pc.base, pc.rows, pc.claimed, pc.next + 1)
  {
    GrownByOne(s.links, pc.base, pc.rows, pc.claimed, pc.next);
    LinkKeeps(s.links, PlaceOf(pc.rows, pc.claimed, pc.next), pc.rows[pc.next]);
    hide Grown, OneLinkEach, FreshRows, WorkerOk;
  }

  lemma AdmitKeeps(s: State, a: Action, stable: set<Source>)
    requires Inv(s, stable) && Enabled(s, a) && a.Admit? && Succeeds(s, a)
    ensures Keeps(s, Apply(s, a)) && Apply(s, a).links.Values <= Apply(s, a).admitted && OneLinkEach(Apply(s, a).links)
    ensures WorkerOk(Apply(s, a), Apply(s, a).workers[a.w], stable)
    ensures HolderOk(Apply(s, a), Apply(s, a).workers[a.w])
  {
    var pc, t := PcOf(s, a.w), Apply(s, a);
    assert WorkerOk(s, pc, stable) && HolderOk(s, pc);
    hide Inv, Grown, OneLinkEach, FreshRows, Covered, Admitted, Link, Keeps;
    LinkStepKeeps(s, t, pc, stable);
    if !a.admission.LostReply? { AdmittedRowKeeps(s, t, pc, Counted(pc.counts, a.reuse), stable); }
  }

  lemma AdmitStep(s: State, a: Action, stable: set<Source>)
    requires Inv(s, stable) && Enabled(s, a) && a.Admit?
    ensures Inv(Apply(s, a), stable) && Keeps(s, Apply(s, a))
  {
    var t := Apply(s, a);
    if Succeeds(s, a) { AdmitKeeps(s, a, stable); } else { RefusedKeeps(s, a, stable); }
    hide WorkerOk, HolderOk, OneLinkEach, Link;
    forall w | w in t.workers ensures WorkerOk(t, t.workers[w], stable) && (Holds(t, w) ==> HolderOk(t, t.workers[w])) {
      if w != a.w {
        assert WorkerOk(s, s.workers[w], stable);
        WorkerStaysOk(s, t, s.workers[w], stable);
        if Holds(t, w) { assert t.links == s.links; OtherHolder(s, t, s.workers[w]); }
      }
    }
  }

  /** Nothing changes for a holder while others only move. */
  lemma OtherHolder(s: State, t: State, pc: Pc)
    requires HolderOk(s, pc) && t.links == s.links && t.cursor == s.cursor
    ensures HolderOk(t, pc)
  {
  }

  lemma SelectKeeps(s: State, a: Action, stable: set<Source>)
    requires Inv(s, stable) && Enabled(s, a) && a.SelectSources?
    ensures WorkerOk(Apply(s, a), Apply(s, a).workers[a.w], stable)
    ensures Holds(s, a.w) ==> HolderOk(Apply(s, a), Apply(s, a).workers[a.w])
  {
  }

  lemma EndKeeps(s: State, a: Action, stable: set<Source>)
    requires Inv(s, stable) && Enabled(s, a) && a.EndBatch?
    ensures WorkerOk(Apply(s, a), Apply(s, a).workers[a.w], stable)
    ensures Holds(s, a.w) ==> HolderOk(Apply(s, a), Apply(s, a).workers[a.w])
  {
    assert WorkerOk(s, PcOf(s, a.w), stable);
  }

  /** A batch that was short and was admitted to its end admitted everything stable. */
  lemma ExhaustedAdmitsAll(s: State, pc: Pc, stable: set<Source>)
    requires pc.Releasing? && pc.exhausted && WorkerOk(s, pc, stable) && s.links.Values <= s.admitted
    ensures stable <= s.admitted
  {
    forall k | k in stable ensures k in s.admitted {
      if k in pc.rows {
        var i :| 0 <= i < |pc.rows| && pc.rows[i] == k;
        assert pc.rows[i] in s.admitted;
      }
    }
  }

  /** The acting worker, for every action but an admission. */
  lemma OwnStepKeeps(s: State, a: Action, stable: set<Source>)
    requires Inv(s, stable) && Enabled(s, a) && !a.Admit? && !a.Expire? && !a.Cancel? && !a.Change?
    ensures a.w in s.workers && WorkerOk(Apply(s, a), Apply(s, a).workers[a.w], stable)
    ensures Holds(Apply(s, a), a.w) ==> HolderOk(Apply(s, a), Apply(s, a).workers[a.w])
  {
    assert WorkerOk(s, s.workers[a.w], stable) && (Holds(s, a.w) ==> HolderOk(s, s.workers[a.w]));
    if a.SelectSources? {
      SelectKeeps(s, a, stable);
    } else if a.EndBatch? {
      EndKeeps(s, a, stable);
    } else {
      hide Inv, IsBatch, Covered, Admitted, Grown, FreshRows;
    }
  }

  /** Whose step it is. */
  predicate Acts(a: Action, w: nat) {
    !a.Expire? && !a.Cancel? && !a.Change? && a.w == w
  }

  /** A step takes no part in what another worker knows, and cannot give it the claim. */
  lemma OthersUntouched(s: State, a: Action, w: nat)
    requires Enabled(s, a) && !a.Admit? && w in s.workers && !Acts(a, w)
    ensures var t := Apply(s, a);
            w in t.workers && t.workers[w] == s.workers[w] && (Holds(t, w) ==> Holds(s, w) && t.cursor == s.cursor)
  {
  }

  /** Only admissions link. */
  lemma OnlyAdmissionsLink(s: State, a: Action)
    requires Enabled(s, a) && !a.Admit?
    ensures var t := Apply(s, a); t.links == s.links && t.admitted == s.admitted && t.workers.Keys == s.workers.Keys
  {
  }

  lemma CompletesAdmitted(s: State, a: Action, stable: set<Source>)
    requires Inv(s, stable) && Enabled(s, a) && (a.Change? ==> stable <= a.sources) && !a.Admit?
    ensures var t := Apply(s, a); stable <= t.sources && (t.complete ==> stable <= s.admitted)
  {
    if a.Release? && PcOf(s, a.w).exhausted {
      assert WorkerOk(s, PcOf(s, a.w), stable);
      ExhaustedAdmitsAll(s, PcOf(s, a.w), stable);
    }
    hide WorkerOk, HolderOk, OneLinkEach;
  }

  lemma OtherStep(s: State, a: Action, stable: set<Source>)
    requires Inv(s, stable) && Enabled(s, a) && (a.Change? ==> stable <= a.sources) && !a.Admit?
    ensures Inv(Apply(s, a), stable) && Keeps(s, Apply(s, a))
  {
    hide Apply, Enabled, WorkerOk, HolderOk, OneLinkEach;
    var t := Apply(s, a);
    OnlyAdmissionsLink(s, a);
    CompletesAdmitted(s, a, stable);
    forall w | w in t.workers ensures WorkerOk(t, t.workers[w], stable) && (Holds(t, w) ==> HolderOk(t, t.workers[w])) {
      if Acts(a, w) {
        OwnStepKeeps(s, a, stable);
      } else {
        OthersUntouched(s, a, w);
        WorkerStaysOk(s, t, s.workers[w], stable);
        if Holds(t, w) { OtherHolder(s, t, s.workers[w]); }
      }
    }
  }

  lemma StepKeepsInv(s: State, a: Action, stable: set<Source>)
    requires Inv(s, stable) && Enabled(s, a) && (a.Change? ==> stable <= a.sources)
    ensures Inv(Apply(s, a), stable) && Keeps(s, Apply(s, a))
  {
    if a.Admit? { AdmitStep(s, a, stable); } else { OtherStep(s, a, stable); }
  }

  lemma {:induction false} RunKeepsInv(s: State, actions: seq<Action>, end: State, stable: set<Source>)
    requires Inv(s, stable) && Run(s, actions, end, stable)
    ensures Inv(end, stable) && Keeps(s, end)
    decreases |actions|
  {
    if actions != [] {
      hide Inv;
      StepKeepsInv(s, actions[0], stable);
      RunKeepsInv(Apply(s, actions[0]), actions[1..], end, stable);
    }
  }

  lemma ReachableInv(s: State, stable: set<Source>)
    requires Reachable(s, stable)
    ensures Inv(s, stable)
  {
    var s0: State, actions :| Init(s0, stable) && Run(s0, actions, s, stable);
    RunKeepsInv(s0, actions, s, stable);
  }
}
