// Publication of a downloaded image: write a temporary file, sync it, rename it over the destination. Any number of
// publishers share one destination, each step may fail, publishers may crash, and the machine may lose power. The file
// is synced before the rename, but the directory never is: a power loss may take the directory back to any of its
// states since the last one that reached the disk.
module AtomicPublish {
  import opened JobQueue
  import opened Utf8

  /** `synced` files survive a power loss whole; others may keep any prefix. */
  datatype File = File(content: seq<byte>, synced: bool)

  /** The destination path: `Other` is a directory, link or other special file. */
  datatype Entry = Absent | Regular(file: File) | Other

  /** What the destination's name refers to: what was there before, or the file once created under a temporary name. */
  datatype Link = Before | Of(name: nat)

  /** One state of the directory: the destination and the temporary names in it. */
  datatype Dir = Dir(dest: Link, temps: set<nat>)

  datatype Outcome = Published | AlreadyPresent | DestinationConflict | Failed

  /** Where a publisher stands in `publish_inner`. `Removing` is the cleanup after a failed step. */
  datatype Pc = Checking | Creating | Writing(written: nat) | Syncing | Renaming | Removing
    | Done(outcome: Outcome) | Crashed

  /**
   * The last two fields are history: `leaked`, its cleanup failed to remove the temporary file; `doubted`, the power
   * was lost after it had ended.
   */
  datatype Publisher = Publisher(body: seq<byte>, name: nat, pc: Pc, leaked: bool, doubted: bool)

  /** `dirs` are the states a power loss may restore, oldest first; the last is the present one. */
  datatype State = State(prior: Entry, files: map<nat, File>, dirs: seq<Dir>, publishers: seq<Publisher>)

  /** A step of publisher `i`; `ok` is whether the operating system lets it succeed. */
  datatype Action =
    | Check(i: nat, ok: bool)
    | Create(i: nat, ok: bool)
    | Write(i: nat, upto: nat, ok: bool)
    | Sync(i: nat, ok: bool)
    | Rename(i: nat, ok: bool)
    | Remove(i: nat, ok: bool)
    | Crash(i: nat)
    | Persist(dir: nat)
    | PowerLoss(dir: nat, kept: map<nat, nat>)

  predicate At(s: State, i: nat, pc: Pc) {
    i < |s.publishers| && s.publishers[i].pc == pc
  }

  function Newest(s: State): nat {
    if s.dirs == [] then 0 else |s.dirs| - 1
  }

  function Present(s: State): Dir {
    if s.dirs == [] then Dir(Before, {}) else s.dirs[Newest(s)]
  }

  predicate HasTemp(s: State, i: nat)
    requires i < |s.publishers|
  {
    s.publishers[i].name in Present(s).temps && s.publishers[i].name in s.files
  }

  /** What a reader of the destination finds in a state of the directory. */
  function Content(s: State, link: Link): Entry {
    match link
    case Before => s.prior
    case Of(name) => if name in s.files then Regular(s.files[name]) else Absent
  }

  predicate Enabled(s: State, a: Action) {
    && s.dirs != []
    && match a
       case Check(i, _) => At(s, i, Checking)
       case Create(i, ok) => At(s, i, Creating) && (ok ==> s.publishers[i].name !in Present(s).temps)
       case Write(i, upto, _) =>
         && i < |s.publishers| && s.publishers[i].pc.Writing? && HasTemp(s, i)
         && s.publishers[i].pc.written <= upto <= |s.publishers[i].body|
       case Sync(i, _) => At(s, i, Syncing) && HasTemp(s, i)
       case Rename(i, _) => At(s, i, Renaming) && HasTemp(s, i)
       case Remove(i, _) => At(s, i, Removing)
       case Crash(i) => i < |s.publishers| && !s.publishers[i].pc.Done?
       case Persist(k) => k < |s.dirs|
       case PowerLoss(k, _) => k < |s.dirs|
  }

  function Move(s: State, i: nat, pc: Pc): State
    requires i < |s.publishers|
  {
    s.(publishers := s.publishers[i := s.publishers[i].(pc := pc)])
  }

  /** What a power loss leaves of a file. */
  function Survives(f: File, kept: nat): File {
    if f.synced || kept >= |f.content| then f else f.(content := f.content[..kept])
  }

  function Restarted(p: Publisher): Publisher {
    if p.pc.Done? then p.(doubted := true) else p.(pc := Crashed)
  }

  function Apply(s: State, a: Action): State
    requires Enabled(s, a)
  {
    match a
    case Check(i, ok) =>
      var found := Content(s, Present(s).dest);
      if !ok then Move(s, i, Done(Failed))
      else if found.Other? then Move(s, i, Done(DestinationConflict))
      else if found.Regular? && found.file.content == s.publishers[i].body then Move(s, i, Done(AlreadyPresent))
      else Move(s, i, Creating)
    case Create(i, ok) =>
      var name := s.publishers[i].name;
      if !ok then Move(s, i, Removing)
      else Move(s, i, Writing(0)).(files := s.files[name := File([], false)],
                                   dirs := s.dirs + [Dir(Present(s).dest, Present(s).temps + {name})])
    case Write(i, upto, ok) =>
      var p := s.publishers[i];
      Move(s, i, if !ok then Removing else if upto == |p.body| then Syncing else Writing(upto))
        .(files := s.files[p.name := File(p.body[..upto], false)])
    case Sync(i, ok) =>
      var name := s.publishers[i].name;
      if !ok then Move(s, i, Removing)
      else Move(s, i, Renaming).(files := s.files[name := s.files[name].(synced := true)])
    case Rename(i, ok) =>
      var name := s.publishers[i].name;
      if !ok then Move(s, i, Removing)
      else Move(s, i, Done(Published)).(dirs := s.dirs + [Dir(Of(name), Present(s).temps - {name})])
    case Remove(i, ok) =>
      var p := s.publishers[i];
      if ok then Move(s, i, Done(Failed)).(dirs := s.dirs + [Dir(Present(s).dest, Present(s).temps - {p.name})])
      else s.(publishers := s.publishers[i := p.(pc := Done(Failed), leaked := p.name in Present(s).temps)])
    case Crash(i) => Move(s, i, Crashed)
    case Persist(k) => s.(dirs := s.dirs[k..])
    case PowerLoss(k, kept) =>
      State(s.prior, map n | n in s.files :: Survives(s.files[n], if n in kept then kept[n] else 0), [s.dirs[k]],
            seq(|s.publishers|, i requires 0 <= i < |s.publishers| => Restarted(s.publishers[i])))
  }

  function Execute(s: State, actions: seq<Action>): Option<State>
    decreases |actions|
  {
    if actions == [] then Some(s)
    else if Enabled(s, actions[0]) then Execute(Apply(s, actions[0]), actions[1..])
    else None
  }

  /** Temporary names are distinct, and none is taken before its publisher starts. */
  predicate Init(s: State) {
    && |s.dirs| == 1 && s.dirs[0].dest == Before && (s.prior.Regular? ==> s.prior.file.synced)
    && (forall i :: 0 <= i < |s.publishers| ==>
          && s.publishers[i].pc.Checking? && !s.publishers[i].leaked && !s.publishers[i].doubted
          && s.publishers[i].name !in s.dirs[0].temps)
    && DistinctNames(s.publishers)
  }

  predicate DistinctNames(publishers: seq<Publisher>) {
    forall i, j :: 0 <= i < j < |publishers| ==> publishers[i].name != publishers[j].name
  }

  ghost predicate Reachable(s: State) {
    exists s0: State, actions :: Init(s0) && Execute(s0, actions) == Some(s)
  }

  // ---- invariant ----------------------------------------------------------------------------------

  /** The file under this link is one publisher's body, whole and synced. */
  ghost predicate Whole(s: State, link: Link) {
    exists i :: 0 <= i < |s.publishers| && Content(s, link) == Regular(File(s.publishers[i].body, true))
  }

  /** The destination holds one publisher's body, whole and synced. */
  ghost predicate HoldsWhole(s: State) {
    Whole(s, Present(s).dest)
  }

  /** A new destination is the whole file of a publisher that has ended. */
  predicate LinkSettled(s: State, link: Link) {
    link.Of? ==> exists i :: 0 <= i < |s.publishers| && s.publishers[i].name == link.name && s.publishers[i].pc.Done?
                             && link.name in s.files && s.files[link.name] == File(s.publishers[i].body, true)
  }

  /** The temporary file of a publisher is as far along as the publisher. */
  predicate TempInStep(s: State, p: Publisher) {
    match p.pc
    case Checking => p.name !in Present(s).temps
    case Creating => p.name !in Present(s).temps
    case Writing(n) =>
      n <= |p.body| && p.name in Present(s).temps && p.name in s.files && s.files[p.name] == File(p.body[..n], false)
    case Syncing => p.name in Present(s).temps && p.name in s.files && s.files[p.name].content == p.body
    case Renaming => p.name in Present(s).temps && p.name in s.files && s.files[p.name] == File(p.body, true)
    case Removing => true
    case Done(_) => !p.doubted && p.name in Present(s).temps ==> p.leaked
    case Crashed => true
  }

  predicate ReportedSuccess(p: Publisher) {
    p.pc == Done(Published) || p.pc == Done(AlreadyPresent)
  }

  ghost predicate Inv(s: State) {
    && s.dirs != [] && (s.prior.Regular? ==> s.prior.file.synced)
    && DistinctNames(s.publishers)
    && (forall i :: 0 <= i < |s.publishers| ==> TempInStep(s, s.publishers[i]))
    && (forall k :: 0 <= k < |s.dirs| ==> LinkSettled(s, s.dirs[k].dest))
    && ((exists i :: 0 <= i < |s.publishers| && ReportedSuccess(s.publishers[i]) && !s.publishers[i].doubted) ==>
        HoldsWhole(s))
  }

  /**
   * A step of publisher `i` touches only its own temporary file, its own name, and the destination it leaves behind.
   */
  ghost predicate OwnStep(s: State, t: State, i: nat)
    requires i < |s.publishers|
  {
    var p := s.publishers[i];
    && !p.pc.Done? && t.prior == s.prior && |t.publishers| == |s.publishers|
    && (forall j :: 0 <= j < |s.publishers| && j != i ==> t.publishers[j] == s.publishers[j])
    && t.publishers[i].name == p.name && t.publishers[i].body == p.body && t.publishers[i].doubted == p.doubted
    && (forall n :: n != p.name ==> (n in t.files <==> n in s.files) && (n in t.files ==> t.files[n] == s.files[n]))
    && (t.dirs == s.dirs
        || (|t.dirs| == |s.dirs| + 1 && t.dirs[..|s.dirs|] == s.dirs
            && forall n :: n != p.name ==> (n in Present(t).temps <==> n in Present(s).temps)))
  }

  lemma OwnStepKeeps(s: State, t: State, i: nat)
    requires Inv(s) && i < |s.publishers| && OwnStep(s, t, i)
    requires TempInStep(t, t.publishers[i])
    ensures DistinctNames(t.publishers)
    ensures forall j :: 0 <= j < |t.publishers| ==> TempInStep(t, t.publishers[j])
    ensures forall k :: 0 <= k < |s.dirs| ==> LinkSettled(t, s.dirs[k].dest)
    ensures forall link :: LinkSettled(s, link) && Whole(s, link) ==> Whole(t, link)
  {
    hide Whole;
    forall j | 0 <= j < |t.publishers| ensures TempInStep(t, t.publishers[j]) {
      if j != i { assert TempInStep(s, s.publishers[j]) && s.publishers[j].name != s.publishers[i].name; }
    }
    forall k | 0 <= k < |s.dirs| ensures LinkSettled(t, s.dirs[k].dest) {
      assert LinkSettled(s, s.dirs[k].dest);
      LinkStaysSettled(s, t, i, s.dirs[k].dest);
    }
    forall link | LinkSettled(s, link) && Whole(s, link) ensures Whole(t, link) {
      LinkStaysSettled(s, t, i, link);
    }
  }

  lemma LinkStaysSettled(s: State, t: State, i: nat, link: Link)
    requires DistinctNames(s.publishers) && i < |s.publishers| && OwnStep(s, t, i) && LinkSettled(s, link)
    ensures LinkSettled(t, link) && Content(t, link) == Content(s, link) && (Whole(s, link) ==> Whole(t, link))
  {
    if link.Of? {
      var k :| 0 <= k < |s.publishers| && s.publishers[k].name == link.name && s.publishers[k].pc.Done?
               && link.name in s.files && s.files[link.name] == File(s.publishers[k].body, true);
      assert k != i && s.publishers[k].name != s.publishers[i].name;
      assert t.publishers[k] == s.publishers[k];
    }
    if Whole(s, link) {
      var k :| 0 <= k < |s.publishers| && Content(s, link) == Regular(File(s.publishers[k].body, true));
      assert t.publishers[k].body == s.publishers[k].body;
    }
  }

  ghost predicate IsOwn(s: State, a: Action)
    requires Enabled(s, a) && !a.PowerLoss? && !a.Persist?
  {
    OwnStep(s, Apply(s, a), a.i) && TempInStep(Apply(s, a), Apply(s, a).publishers[a.i])
  }

  lemma MoveIsOwn(s: State, a: Action)
    requires Enabled(s, a) && (a.Check? || a.Crash?) && TempInStep(s, s.publishers[a.i])
    ensures IsOwn(s, a)
  {
    hide Content;
  }

  lemma CreateIsOwn(s: State, a: Action)
    requires Enabled(s, a) && a.Create? && TempInStep(s, s.publishers[a.i])
    ensures IsOwn(s, a)
  {
    assert s.publishers[a.i].body[..0] == [];
  }

  lemma WriteIsOwn(s: State, a: Action)
    requires Enabled(s, a) && (a.Write? || a.Sync?) && TempInStep(s, s.publishers[a.i])
    ensures IsOwn(s, a)
  {
    assert s.publishers[a.i].body[..|s.publishers[a.i].body|] == s.publishers[a.i].body;
  }

  lemma UnlinkIsOwn(s: State, a: Action)
    requires Enabled(s, a) && (a.Rename? || a.Remove?) && TempInStep(s, s.publishers[a.i])
    ensures IsOwn(s, a)
  {
  }

  lemma StepIsOwn(s: State, a: Action)
    requires Inv(s) && Enabled(s, a) && !a.PowerLoss? && !a.Persist?
    ensures IsOwn(s, a)
  {
    assert TempInStep(s, s.publishers[a.i]);
    hide IsOwn, Inv;
    match a
    case Check(_, _) => MoveIsOwn(s, a);
    case Create(_, _) => CreateIsOwn(s, a);
    case Write(_, _, _) => WriteIsOwn(s, a);
    case Sync(_, _) => WriteIsOwn(s, a);
    case Rename(_, _) => UnlinkIsOwn(s, a);
    case Remove(_, _) => UnlinkIsOwn(s, a);
    case Crash(_) => MoveIsOwn(s, a);
  }

  /** What a check that finds the image, or a rename, leaves at the destination. */
  lemma SuccessIsWhole(s: State, a: Action)
    requires Inv(s) && Enabled(s, a) && !a.PowerLoss? && !a.Persist?
    requires !ReportedSuccess(s.publishers[a.i]) && ReportedSuccess(Apply(s, a).publishers[a.i])
    ensures LinkSettled(Apply(s, a), Present(Apply(s, a)).dest) && HoldsWhole(Apply(s, a))
  {
    var t, p := Apply(s, a), s.publishers[a.i];
    assert TempInStep(s, p) && LinkSettled(s, Present(s).dest);
    hide OwnStep;
    if a.Rename? {
      hide Inv;
      assert Present(t).dest == Of(p.name) && t.files[p.name] == File(t.publishers[a.i].body, true);
    } else {
      StepIsOwn(s, a);
      LinkStaysSettled(s, t, a.i, Present(s).dest);
      assert Content(t, Present(t).dest) == Regular(File(t.publishers[a.i].body, true));
    }
  }

  /** A success needs a whole destination: a new one provides it, and old ones keep theirs. */
  lemma SuccessesKeep(s: State, t: State, i: nat)
    requires i < |s.publishers| && OwnStep(s, t, i)
    requires (exists j :: 0 <= j < |s.publishers| && ReportedSuccess(s.publishers[j]) && !s.publishers[j].doubted) ==>
      HoldsWhole(t)
    requires ReportedSuccess(t.publishers[i]) ==> HoldsWhole(t)
    ensures (exists j :: 0 <= j < |t.publishers| && ReportedSuccess(t.publishers[j]) && !t.publishers[j].doubted) ==>
      HoldsWhole(t)
  {
    hide HoldsWhole;
    if j :| 0 <= j < |t.publishers| && ReportedSuccess(t.publishers[j]) && !t.publishers[j].doubted {
      if j != i { assert ReportedSuccess(s.publishers[j]); }
    }
  }

  lemma PublisherStep(s: State, a: Action)
    requires Inv(s) && Enabled(s, a) && !a.PowerLoss? && !a.Persist?
    ensures Inv(Apply(s, a))
  {
    var t := Apply(s, a);
    StepIsOwn(s, a);
    OwnStepKeeps(s, t, a.i);
    assert LinkSettled(s, Present(s).dest);
    if ReportedSuccess(t.publishers[a.i]) { SuccessIsWhole(s, a); }
    assert ReportedSuccess(t.publishers[a.i]) || Present(t).dest == Present(s).dest;
    hide LinkSettled, TempInStep, Whole, Apply, Content, Enabled;
    forall k | 0 <= k < |t.dirs| ensures LinkSettled(t, t.dirs[k].dest) {
      if k < |s.dirs| { assert t.dirs[k] == s.dirs[k]; }
    }
    SuccessesKeep(s, t, a.i);
  }

  lemma PowerLossKeepsLinks(s: State, a: Action, link: Link)
    requires Inv(s) && Enabled(s, a) && a.PowerLoss? && LinkSettled(s, link)
    ensures LinkSettled(Apply(s, a), link) && Content(Apply(s, a), link) == Content(s, link)
    ensures Whole(Apply(s, a), link) <==> Whole(s, link)
  {
    var t := Apply(s, a);
    if link.Of? {
      var i :| 0 <= i < |s.publishers| && s.publishers[i].name == link.name && s.publishers[i].pc.Done?
               && link.name in s.files && s.files[link.name] == File(s.publishers[i].body, true);
      assert t.publishers[i].body == s.publishers[i].body && t.publishers[i].pc.Done?;
    }
    assert forall j :: 0 <= j < |s.publishers| ==> t.publishers[j].body == s.publishers[j].body;
  }

  lemma PowerLossStep(s: State, a: Action)
    requires Inv(s) && Enabled(s, a) && a.PowerLoss?
    ensures Inv(Apply(s, a))
  {
    assert LinkSettled(s, s.dirs[a.dir].dest);
    PowerLossKeepsLinks(s, a, s.dirs[a.dir].dest);
  }

  lemma StepKeepsInv(s: State, a: Action)
    requires Inv(s) && Enabled(s, a)
    ensures Inv(Apply(s, a))
  {
    if a.PowerLoss? { PowerLossStep(s, a); } else if !a.Persist? { PublisherStep(s, a); }
  }

  lemma {:induction false} InvKept(s: State, actions: seq<Action>)
    requires Inv(s) && Execute(s, actions).Some?
    ensures Inv(Execute(s, actions).value)
    decreases |actions|
  {
    if actions != [] {
      StepKeepsInv(s, actions[0]);
      InvKept(Apply(s, actions[0]), actions[1..]);
    }
  }

  lemma ReachableInv(s: State)
    requires Reachable(s)
    ensures Inv(s)
  {
    var s0: State, actions :| Init(s0) && Execute(s0, actions) == Some(s);
    InvKept(s0, actions);
  }
}
