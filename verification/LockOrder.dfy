// Concurrent catalog transactions as sequences of lock acquisitions, held until commit. When every writer takes
// its advisory names and the shared lookup rows in one total order, and touches an owned row only under the
// advisory name of its owner, writers never block each other for good.
module LockOrder {
  import opened JobQueue
  import opened Sorting

  /** The tables whose rows a catalog transaction updates, in the order movie and TV writers reach them. */
  datatype Table = Titles | Genres | Keywords | People | Seasons | Companies | Networks | Languages
    | Collections | Episodes

  datatype Key = Num(n: int) | Text(s: string)

  /** An advisory resource name, or a row lock taken by an insert or update. */
  datatype Lock = Advisory(name: string) | Row(table: Table, key: Key)

  function Rank(l: Lock): nat {
    match l
    case Advisory(_) => 0
    case Row(t, _) =>
      match t
      case Titles => 1 case Genres => 2 case Keywords => 3 case People => 4 case Seasons => 5
      case Companies => 6 case Networks => 7 case Languages => 8 case Collections => 9 case Episodes => 10
  }

  predicate KeyLeq(a: Key, b: Key) {
    match (a, b)
    case (Num(m), Num(n)) => m <= n
    case (Num(_), Text(_)) => true
    case (Text(_), Num(_)) => false
    case (Text(s), Text(t)) => StringLeq(s, t)
  }

  /** Advisory names first, in string order; then rows by table, and by key inside a table. */
  predicate Leq(a: Lock, b: Lock) {
    if Rank(a) != Rank(b) then Rank(a) < Rank(b)
    else if a.Advisory? then StringLeq(a.name, b.name)
    else KeyLeq(a.key, b.key)
  }

  lemma LeqTotal(a: Lock, b: Lock)
    ensures Leq(a, b) || Leq(b, a)
    ensures Leq(a, b) && Leq(b, a) ==> a == b
  {
    if Rank(a) == Rank(b) {
      if a.Advisory? {
        StringLeqTotal(a.name, b.name);
      } else {
        if a.key.Text? && b.key.Text? { StringLeqTotal(a.key.s, b.key.s); }
      }
    }
  }

  lemma LeqTransitive(a: Lock, b: Lock, c: Lock)
    requires Leq(a, b) && Leq(b, c)
    ensures Leq(a, c)
  {
    if Rank(a) == Rank(c) {
      if a.Advisory? {
        StringLeqTransitive(a.name, b.name, c.name);
      } else {
        if a.key.Text? && b.key.Text? && c.key.Text? { StringLeqTransitive(a.key.s, b.key.s, c.key.s); }
      }
    }
  }

  /** Rows with one owner. Such a row is keyed by the advisory name that its writers hold. */
  predicate Owned(l: Lock) {
    l.Row? && (l.table.Titles? || l.table.Seasons? || l.table.Episodes?) && l.key.Text?
  }

  /** Names and shared rows come in the lock order; an owned row comes after its owner's name. */
  predicate Disciplined(plan: seq<Lock>) {
    && (forall i, j :: 0 <= i < j < |plan| && !Owned(plan[i]) && !Owned(plan[j]) ==> Leq(plan[i], plan[j]))
    && (forall j :: 0 <= j < |plan| && Owned(plan[j]) ==> Advisory(plan[j].key.s) in plan[..j])
  }

  // ---- the transition system ----------------------------------------------------------------------

  /** A transaction that has acquired `plan[..at]`; it releases everything when it ends. */
  datatype Writer = Writer(plan: seq<Lock>, at: nat, ended: bool)

  type State = seq<Writer>

  predicate Holds(w: Writer, l: Lock) {
    w.at <= |w.plan| && !w.ended && l in w.plan[..w.at]
  }

  predicate CanAcquire(s: State, i: nat) {
    && i < |s| && !s[i].ended && s[i].at < |s[i].plan|
    && forall j :: 0 <= j < |s| && j != i ==> !Holds(s[j], s[i].plan[s[i].at])
  }

  predicate CanCommit(s: State, i: nat) {
    i < |s| && !s[i].ended && s[i].at == |s[i].plan|
  }

  datatype Action = Acquire(writer: nat) | Commit(writer: nat) | Rollback(writer: nat)

  predicate Enabled(s: State, a: Action) {
    match a
    case Acquire(i) => CanAcquire(s, i)
    case Commit(i) => CanCommit(s, i)
    case Rollback(i) => i < |s| && !s[i].ended
  }

  function Apply(s: State, a: Action): State
    requires Enabled(s, a)
  {
    match a
    case Acquire(i) => s[i := s[i].(at := s[i].at + 1)]
    case Commit(i) => s[i := s[i].(ended := true)]
    case Rollback(i) => s[i := s[i].(ended := true)]
  }

  function Execute(s: State, actions: seq<Action>): Option<State>
    decreases |actions|
  {
    if actions == [] then Some(s)
    else if Enabled(s, actions[0]) then Execute(Apply(s, actions[0]), actions[1..])
    else None
  }

  predicate Init(s: State) {
    forall i :: 0 <= i < |s| ==> s[i].at == 0 && !s[i].ended
  }

  ghost predicate Reachable(s: State) {
    exists s0: State, actions :: Init(s0) && Execute(s0, actions) == Some(s)
  }

  predicate AllDisciplined(s: State) {
    forall i :: 0 <= i < |s| ==> Disciplined(s[i].plan)
  }

  // ---- mutual exclusion ---------------------------------------------------------------------------

  ghost predicate Exclusive(s: State) {
    && (forall i :: 0 <= i < |s| ==> s[i].at <= |s[i].plan|)
    && (forall i, j, l :: 0 <= i < j < |s| && Holds(s[i], l) ==> !Holds(s[j], l))
  }

  lemma StepKeepsExclusive(s: State, a: Action)
    requires Exclusive(s) && Enabled(s, a)
    ensures Exclusive(Apply(s, a))
  {
  }

  lemma {:induction false} ExecuteKeepsExclusive(s: State, actions: seq<Action>)
    requires Exclusive(s) && Execute(s, actions).Some?
    ensures Exclusive(Execute(s, actions).value)
    decreases |actions|
  {
    if actions != [] {
      StepKeepsExclusive(s, actions[0]);
      ExecuteKeepsExclusive(Apply(s, actions[0]), actions[1..]);
    }
  }

  lemma ReachableIsExclusive(s: State)
    requires Reachable(s)
    ensures Exclusive(s)
  {
    var s0: State, actions :| Init(s0) && Execute(s0, actions) == Some(s);
    assert Exclusive(s0);
    ExecuteKeepsExclusive(s0, actions);
  }

  // ---- deadlock freedom ---------------------------------------------------------------------------

  /** A writer that still waits for a lock. */
  predicate Waiting(s: State, i: nat) {
    i < |s| && !s[i].ended && s[i].at < |s[i].plan|
  }

  function Next(s: State, i: nat): Lock
    requires Waiting(s, i)
  {
    s[i].plan[s[i].at]
  }

  predicate WaitsForShared(s: State, i: nat) {
    Waiting(s, i) && !Owned(Next(s, i))
  }

  /** Among the first `n` writers that wait for a name or a shared row, one whose next lock is greatest. */
  lemma {:induction false} GreatestWaiting(s: State, n: nat, some: nat) returns (i: nat)
    requires n <= |s| && some < n && WaitsForShared(s, some)
    ensures i < n && WaitsForShared(s, i)
    ensures forall j :: 0 <= j < n && WaitsForShared(s, j) ==> Leq(Next(s, j), Next(s, i))
    decreases n
  {
    if exists k :: 0 <= k < n - 1 && WaitsForShared(s, k) {
      var k :| 0 <= k < n - 1 && WaitsForShared(s, k);
      i := GreatestWaiting(s, n - 1, k);
      if WaitsForShared(s, n - 1) {
        LeqTotal(Next(s, i), Next(s, n - 1));
        if !Leq(Next(s, n - 1), Next(s, i)) {
          forall j | 0 <= j < n && WaitsForShared(s, j) ensures Leq(Next(s, j), Next(s, n - 1)) {
            if j < n - 1 { LeqTransitive(Next(s, j), Next(s, i), Next(s, n - 1)); }
            else { LeqTotal(Next(s, j), Next(s, j)); }
          }
          i := n - 1;
        }
      }
    } else {
      i := n - 1;
      LeqTotal(Next(s, i), Next(s, i));
    }
  }

  /** A held owned row implies the held name of its owner, so an owned row is never contended. */
  lemma OwnedRowIsFree(s: State, i: nat)
    requires Exclusive(s) && AllDisciplined(s) && Waiting(s, i) && Owned(Next(s, i))
    ensures CanAcquire(s, i)
  {
    var l := Next(s, i);
    var name := Advisory(l.key.s);
    assert Holds(s[i], name);
    forall j | 0 <= j < |s| && j != i ensures !Holds(s[j], l) {
      if Holds(s[j], l) {
        var k :| 0 <= k < s[j].at && s[j].plan[k] == l;
        assert name in s[j].plan[..k];
        assert Holds(s[j], name);
        assert false;
      }
    }
  }

  /** The writer with the greatest next lock can take it, or the one it waits for can take its own next step. */
  lemma GreatestCanStep(s: State, i: nat)
    requires Exclusive(s) && AllDisciplined(s) && WaitsForShared(s, i)
    requires forall j :: 0 <= j < |s| && WaitsForShared(s, j) ==> Leq(Next(s, j), Next(s, i))
    ensures exists j: nat :: CanAcquire(s, j) || CanCommit(s, j)
  {
    var l := Next(s, i);
    if !CanAcquire(s, i) {
      var j :| 0 <= j < |s| && j != i && Holds(s[j], l);
      if WaitsForShared(s, j) {
        var k :| 0 <= k < s[j].at && s[j].plan[k] == l;
        assert Leq(l, Next(s, j));
        LeqTotal(l, Next(s, j));
        assert CanAcquire(s, j);
      } else if Waiting(s, j) {
        OwnedRowIsFree(s, j);
      } else {
        assert CanCommit(s, j);
      }
    }
  }

  lemma SomeoneCanStep(s: State, unfinished: nat)
    requires Exclusive(s) && AllDisciplined(s) && unfinished < |s| && !s[unfinished].ended
    ensures exists i: nat :: CanAcquire(s, i) || CanCommit(s, i)
  {
    if WaitsForShared(s, unfinished) {
      var i := GreatestWaiting(s, |s|, unfinished);
      GreatestCanStep(s, i);
    } else if Waiting(s, unfinished) {
      OwnedRowIsFree(s, unfinished);
    } else {
      assert CanCommit(s, unfinished);
    }
  }

  /**
   * Deadlock freedom: in every reachable state of any set of disciplined writers, some writer can take its next
   * lock or commit as long as one is unfinished.
   */
  lemma NoDeadlock(s: State, unfinished: nat)
    requires Reachable(s) && AllDisciplined(s) && unfinished < |s| && !s[unfinished].ended
    ensures exists i: nat :: CanAcquire(s, i) || CanCommit(s, i)
  {
    ReachableIsExclusive(s);
    SomeoneCanStep(s, unfinished);
  }

  // ---- every writer can finish --------------------------------------------------------------------

  function Remaining(s: State): nat {
    if s == [] then 0
    else
      (if s[0].ended then 0 else 1 + if s[0].at <= |s[0].plan| then |s[0].plan| - s[0].at else 0) + Remaining(s[1..])
  }

  lemma {:induction false} StepDecreasesRemaining(s: State, a: Action)
    requires Enabled(s, a)
    ensures Remaining(Apply(s, a)) < Remaining(s)
    decreases |s|
  {
    var t := Apply(s, a);
    if a.writer == 0 {
      assert t[1..] == s[1..];
    } else {
      var below :=
        match a case Acquire(i) => Acquire(i - 1) case Commit(i) => Commit(i - 1) case Rollback(i) => Rollback(i - 1);
      if a.Acquire? {
        forall j | 0 <= j < |s[1..]| && j != a.writer - 1 ensures !Holds(s[1..][j], s[a.writer].plan[s[a.writer].at]) {
          assert s[1..][j] == s[j + 1];
        }
      }
      assert Enabled(s[1..], below);
      StepDecreasesRemaining(s[1..], below);
      assert Apply(s[1..], below) == t[1..];
    }
  }

  predicate AllEnded(s: State) {
    forall i :: 0 <= i < |s| ==> s[i].ended
  }

  /** From every reachable state some schedule of acquisitions and commits, with no rollback, ends every writer. */
  lemma {:induction false} AllCanFinish(s: State) returns (actions: seq<Action>)
    requires Exclusive(s) && AllDisciplined(s)
    ensures Execute(s, actions).Some? && AllEnded(Execute(s, actions).value)
    ensures forall a :: a in actions ==> !a.Rollback?
    decreases Remaining(s)
  {
    if AllEnded(s) {
      actions := [];
    } else {
      var u :| 0 <= u < |s| && !s[u].ended;
      SomeoneCanStep(s, u);
      var i: nat :| CanAcquire(s, i) || CanCommit(s, i);
      var a := if CanAcquire(s, i) then Acquire(i) else Commit(i);
      StepKeepsExclusive(s, a);
      StepDecreasesRemaining(s, a);
      var rest := AllCanFinish(Apply(s, a));
      actions := [a] + rest;
      assert actions[1..] == rest;
    }
  }

  // ---- what goes wrong without the order ----------------------------------------------------------

  lemma {:induction false} ExecuteAppend(s: State, first: seq<Action>, second: seq<Action>)
    requires Execute(s, first).Some?
    ensures Execute(s, first + second) == Execute(Execute(s, first).value, second)
    decreases |first|
  {
    if first == [] {
      assert first + second == second;
    } else {
      assert (first + second)[1..] == first[1..] + second;
      ExecuteAppend(Apply(s, first[0]), first[1..], second);
    }
  }

  /** A writer runs `n` acquisitions ahead when nobody else holds any of those locks. */
  lemma {:induction false} RunAhead(s: State, i: nat, n: nat) returns (actions: seq<Action>)
    requires i < |s| && !s[i].ended && s[i].at + n <= |s[i].plan|
    requires forall j, k :: 0 <= j < |s| && j != i && s[i].at <= k < s[i].at + n ==> !Holds(s[j], s[i].plan[k])
    ensures Execute(s, actions) == Some(s[i := s[i].(at := s[i].at + n)])
    decreases n
  {
    if n == 0 {
      actions := [];
      assert s[i := s[i]] == s;
    } else {
      var t := Apply(s, Acquire(i));
      var rest := RunAhead(t, i, n - 1);
      actions := [Acquire(i)] + rest;
      assert actions[1..] == rest;
      assert t[i := t[i].(at := t[i].at + (n - 1))] == s[i := s[i].(at := s[i].at + n)];
    }
  }

  /** No writer can take a lock or commit, and someone is unfinished. */
  predicate Stuck(s: State) {
    && (exists i :: 0 <= i < |s| && !s[i].ended)
    && forall i :: 0 <= i < |s| ==> !CanAcquire(s, i) && !CanCommit(s, i)
  }

  /** Two plans that take two locks in opposite orders, and otherwise share nothing before that, can deadlock. */
  lemma CrossedPlansDeadlock(p: seq<Lock>, q: seq<Lock>, i: nat, j: nat)
    requires i < |p| && j < |q| && q[j] in p[..i] && p[i] in q[..j]
    requires forall l :: l in p[..i] ==> l !in q[..j]
    ensures Reachable([Writer(p, i, false), Writer(q, j, false)])
    ensures Stuck([Writer(p, i, false), Writer(q, j, false)])
  {
    var s0 := [Writer(p, 0, false), Writer(q, 0, false)];
    var first := RunAhead(s0, 0, i);
    var s1 := [Writer(p, i, false), Writer(q, 0, false)];
    assert s0[0 := s0[0].(at := i)] == s1;
    forall k | 0 <= k < j ensures !Holds(s1[0], q[k]) { assert q[k] in q[..j]; }
    var second := RunAhead(s1, 1, j);
    ExecuteAppend(s0, first, second);
    var s := [Writer(p, i, false), Writer(q, j, false)];
    assert s1[1 := s1[1].(at := j)] == s;
    assert Init(s0) && Execute(s0, first + second) == Some(s);
    assert Holds(s[0], q[j]) && Holds(s[1], p[i]);
    assert !s[0].ended;
  }
}
