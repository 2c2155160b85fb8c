// Bounded fan-out of upstream requests: at most 20 tasks run at once and they finish in any order, yet the outcome is
// that of asking for the items one by one. A task is named by its index; which running task finishes next is
// arbitrary, so what is proved of the methods below holds for every completion order.
module FanOut {

  const CONCURRENCY: nat := 20

  /** How a task ends: with a value, a 404, another upstream error, or a panic. */
  datatype Answer<+T> = Found(value: T) | NotFound | Failed(code: nat) | Panicked

  datatype Error = Missing | Upstream(code: nat) | Transport

  datatype Result<+T> = Ok(value: T) | Err(error: Error)

  datatype Indexed<+T> = Indexed(index: nat, value: T)

  function Min(a: nat, b: nat): nat {
    if a < b then a else b
  }

  // ---- the pool of tasks --------------------------------------------------------------------------

  /** Tasks below `next` have been spawned; those not running have been joined. */
  ghost predicate Pool(n: nat, next: nat, running: set<nat>, joined: set<nat>) {
    && next <= n && running !! joined
    && (forall i :: i in running || i in joined <==> 0 <= i < next)
    && |running| + |joined| == next
    && |running| == Min(CONCURRENCY, n - |joined|)
  }

  /** Starting, running and joined tasks add up to the input, and the pool is full while anything waits. */
  lemma PoolAddsUp(n: nat, next: nat, running: set<nat>, joined: set<nat>)
    requires Pool(n, next, running, joined)
    ensures (n - next) + |running| + |joined| == n && |running| <= CONCURRENCY
    ensures running == {} ==> next == n && forall i :: 0 <= i < n ==> i in joined
  {
  }

  /** One task is joined, and the next waiting one, if any, is spawned. */
  lemma PoolStep(n: nat, next: nat, running: set<nat>, joined: set<nat>, i: nat)
    requires Pool(n, next, running, joined) && i in running
    ensures i < n && i !in joined && |joined + {i}| == |joined| + 1 <= n
    ensures next == n ==> Pool(n, next, running - {i}, joined + {i})
    ensures next < n ==> Pool(n, next + 1, running - {i} + {next}, joined + {i})
  {
  }

  // ---- the sequential meaning ---------------------------------------------------------------------

  predicate Fatal<T(!new)>(a: Answer<T>) {
    a.Failed? || a.Panicked?
  }

  /** A 404 is missing, an upstream error is itself, and a panic reads as a failure of the transport. */
  function ErrorOf<T(!new)>(a: Answer<T>): (e: Error)
    requires !a.Found?
    ensures (e.Missing? <==> a.NotFound?) && (e.Transport? <==> a.Panicked?)
    ensures forall code :: e == Upstream(code) <==> a == Failed(code)
  {
    match a case NotFound => Missing case Failed(code) => Upstream(code) case Panicked => Transport
  }

  /** Asking one by one, dropping what is not found. */
  function InOrder<T(!new)>(answers: seq<Answer<T>>): seq<T> {
    if answers == [] then []
    else
      var n := |answers| - 1;
      InOrder(answers[..n]) + if answers[n].Found? then [answers[n].value] else []
  }

  function Values<T(!new)>(s: seq<Indexed<T>>): seq<T> {
    if s == [] then [] else Values(s[..|s| - 1]) + [s[|s| - 1].value]
  }

  // ---- `sort_by_key(index)` -----------------------------------------------------------------------

  predicate Ascending<T(!new)>(s: seq<Indexed<T>>) {
    forall i, j :: 0 <= i < j < |s| ==> s[i].index < s[j].index
  }

  function Insert<T(!new)>(s: seq<Indexed<T>>, x: Indexed<T>): (r: seq<Indexed<T>>)
    ensures forall d :: d in r <==> d == x || d in s
    decreases |s|
  {
    if s == [] || s[|s| - 1].index <= x.index then s + [x]
    else
      assert s == s[..|s| - 1] + [s[|s| - 1]];
      Insert(s[..|s| - 1], x) + [s[|s| - 1]]
  }

  lemma {:induction false} InsertSorts<T(!new)>(s: seq<Indexed<T>>, x: Indexed<T>)
    requires Ascending(s) && forall d :: d in s ==> d.index != x.index
    ensures Ascending(Insert(s, x))
    decreases |s|
  {
    if s != [] && s[|s| - 1].index > x.index {
      var n := |s| - 1;
      InsertSorts(s[..n], x);
      var r := Insert(s[..n], x);
      forall i | 0 <= i < |r| ensures r[i].index < s[n].index {
        assert r[i] in r;
        if r[i] != x { var j :| 0 <= j < n && s[..n][j] == r[i]; }
      }
    }
  }

  function Sort<T(!new)>(s: seq<Indexed<T>>): (r: seq<Indexed<T>>)
    ensures forall d :: d in r <==> d in s
    decreases |s|
  {
    if s == [] then []
    else
      assert s == s[..|s| - 1] + [s[|s| - 1]];
      Insert(Sort(s[..|s| - 1]), s[|s| - 1])
  }

  predicate Distinct<T(!new)>(s: seq<Indexed<T>>) {
    forall i, j :: 0 <= i < j < |s| ==> s[i].index != s[j].index
  }

  lemma {:induction false} SortSorts<T(!new)>(s: seq<Indexed<T>>)
    requires Distinct(s)
    ensures Ascending(Sort(s))
    decreases |s|
  {
    if s != [] {
      var n := |s| - 1;
      SortSorts(s[..n]);
      forall d | d in Sort(s[..n]) ensures d.index != s[n].index {
        var j :| 0 <= j < n && s[..n][j] == d;
      }
      InsertSorts(Sort(s[..n]), s[n]);
    }
  }

  /** `s` holds exactly the found answers of the joined tasks, each with its index. */
  ghost predicate Collected<T(!new)>(s: seq<Indexed<T>>, answers: seq<Answer<T>>, joined: set<nat>) {
    && Distinct(s)
    && (forall d :: d in s ==> d.index in joined && d.index < |answers| && answers[d.index] == Found(d.value))
    && (forall i :: i in joined && i < |answers| && answers[i].Found? ==> Indexed(i, answers[i].value) in s)
  }

  lemma CollectOne<T(!new)>(s: seq<Indexed<T>>, answers: seq<Answer<T>>, joined: set<nat>, i: nat)
    requires Collected(s, answers, joined) && i !in joined && i < |answers|
    ensures answers[i].Found? ==> Collected(s + [Indexed(i, answers[i].value)], answers, joined + {i})
    ensures !answers[i].Found? ==> Collected(s, answers, joined + {i})
  {
  }

  /** Sorted by index, the collected values are those of the sequential run. */
  lemma {:induction false} AscendingIsInOrder<T(!new)>(s: seq<Indexed<T>>, answers: seq<Answer<T>>)
    requires Ascending(s)
    requires forall d :: d in s ==> d.index < |answers| && answers[d.index] == Found(d.value)
    requires forall i :: 0 <= i < |answers| && answers[i].Found? ==> Indexed(i, answers[i].value) in s
    ensures Values(s) == InOrder(answers)
    decreases |answers|
  {
    assert s != [] ==> s[0] in s;
    if answers != [] {
      var n := |answers| - 1;
      var rest := answers[..n];
      if answers[n].Found? {
        LargestIsLast(s, Indexed(n, answers[n].value));
        var init := s[..|s| - 1];
        assert s == init + [s[|s| - 1]];
        forall d | d in init ensures d.index < n {
          var k :| 0 <= k < |init| && init[k] == d;
        }
        AscendingIsInOrder(init, rest);
      } else {
        AscendingIsInOrder(s, rest);
      }
    }
  }

  lemma LargestIsLast<T(!new)>(s: seq<Indexed<T>>, x: Indexed<T>)
    requires Ascending(s) && x in s && forall d :: d in s ==> d.index <= x.index
    ensures s != [] && s[|s| - 1] == x
  {
  }

  lemma SortedIsInOrder<T(!new)>(s: seq<Indexed<T>>, answers: seq<Answer<T>>, joined: set<nat>)
    requires Collected(s, answers, joined) && forall i :: 0 <= i < |answers| ==> i in joined
    ensures Values(Sort(s)) == InOrder(answers)
  {
    SortSorts(s);
    AscendingIsInOrder(Sort(s), answers);
  }

  // ---- the methods --------------------------------------------------------------------------------

  /** The index of some running task: the order of completion is not specified. */
  method JoinNext(running: set<nat>) returns (i: nat)
    requires |running| > 0
    ensures i in running
  {
    if forall k: nat :: k !in running { assert false; }
    i :| i in running;
  }

  /**
   * `capture_optional_documents`: succeeds exactly when no task fails other than with a 404, and then with the
   * sequential result; otherwise with the error of one of the failed tasks. `sizes[k]` is the number of tasks running
   * after `k` joins: the pool is full until the input runs out.
   */
  method CaptureOptionalDocuments<T(!new)>(answers: seq<Answer<T>>) returns (r: Result<seq<T>>, ghost sizes: seq<nat>)
    ensures r.Ok? <==> forall i :: 0 <= i < |answers| ==> !Fatal(answers[i])
    ensures r.Ok? ==> r.value == InOrder(answers)
    ensures r.Err? ==> exists i :: 0 <= i < |answers| && Fatal(answers[i]) && r.error == ErrorOf(answers[i])
    ensures 1 <= |sizes| <= |answers| + 1 && (r.Ok? ==> |sizes| == |answers| + 1)
    ensures forall k :: 0 <= k < |sizes| ==> sizes[k] == Min(20, |answers| - k)
  {
    var n := |answers|;
    var next, running := Spawn(n);
    ghost var joined: set<nat> := {};
    sizes := [|running|];
    var documents: seq<Indexed<T>> := [];
    while |running| > 0
      invariant Pool(n, next, running, joined) && |sizes| == |joined| + 1 <= n + 1 && |running| == sizes[|joined|]
      invariant forall k :: 0 <= k < |sizes| ==> sizes[k] == Min(CONCURRENCY, n - k)
      invariant Collected(documents, answers, joined)
      invariant forall i :: i in joined ==> i < n && !Fatal(answers[i])
      decreases n - |joined|
    {
      var index := JoinNext(running);
      PoolStep(n, next, running, joined, index);
      running := running - {index};
      CollectOne(documents, answers, joined, index);
      match answers[index] {
        case Found(value) => documents := documents + [Indexed(index, value)];
        case NotFound =>
        case Failed(code) => return Err(Upstream(code)), sizes;
        case Panicked => return Err(Transport), sizes;
      }
      joined := joined + {index};
      if next < n {
        running := running + {next};
        next := next + 1;
      }
      sizes := sizes + [|running|];
    }
    PoolAddsUp(n, next, running, joined);
    SortedIsInOrder(documents, answers, joined);
    return Ok(Values(Sort(documents))), sizes;
  }

  /** The first tasks, up to the limit. */
  method Spawn(n: nat) returns (next: nat, running: set<nat>)
    ensures Pool(n, next, running, {}) && |running| == Min(CONCURRENCY, n)
  {
    next, running := 0, {};
    for k := 0 to CONCURRENCY
      invariant next == Min(k, n) && |running| == next && forall i :: i in running <==> 0 <= i < next
    {
      if next == n { break; }
      running := running + {next};
      next := next + 1;
    }
  }

  // ---- episodes -----------------------------------------------------------------------------------

  /** What enriching one episode yields: the episode, and the documents captured for it. */
  datatype Enriched<+E, +D> = Enriched(episode: E, documents: seq<D>)

  function Documents<E, D>(parts: seq<Enriched<E, D>>): seq<D> {
    if parts == [] then [] else Documents(parts[..|parts| - 1]) + parts[|parts| - 1].documents
  }

  /** When every answer is found, the sequential run keeps every position. */
  lemma {:induction false} AllFound<T(!new)>(answers: seq<Answer<T>>)
    requires forall i :: 0 <= i < |answers| ==> answers[i].Found?
    ensures |InOrder(answers)| == |answers|
    ensures forall i :: 0 <= i < |answers| ==> InOrder(answers)[i] == answers[i].value
    decreases |answers|
  {
    if answers != [] {
      var n := |answers| - 1;
      AllFound(answers[..n]);
      forall i | 0 <= i < |answers| ensures InOrder(answers)[i] == answers[i].value {
        if i < n { assert InOrder(answers[..n])[i] == answers[..n][i].value; }
      }
    }
  }

  lemma {:induction false} AscendingIndices<T(!new)>(s: seq<Indexed<T>>, answers: seq<Answer<T>>)
    requires Ascending(s) && forall i :: 0 <= i < |answers| ==> answers[i].Found?
    requires forall d :: d in s ==> d.index < |answers| && answers[d.index] == Found(d.value)
    requires forall i :: 0 <= i < |answers| ==> Indexed(i, answers[i].value) in s
    ensures |s| == |answers| && forall i :: 0 <= i < |s| ==> s[i] == Indexed(i, answers[i].value)
    decreases |answers|
  {
    assert s != [] ==> s[0] in s;
    if answers != [] {
      var n := |answers| - 1;
      LargestIsLast(s, Indexed(n, answers[n].value));
      var init := s[..|s| - 1];
      assert s == init + [s[|s| - 1]];
      forall d | d in init ensures d.index < n {
        var k :| 0 <= k < |init| && init[k] == d;
      }
      AscendingIndices(init, answers[..n]);
    }
  }

  lemma EpisodesInPlace<T(!new)>(s: seq<Indexed<T>>, answers: seq<Answer<T>>, joined: set<nat>)
    requires Collected(s, answers, joined)
    requires forall i :: 0 <= i < |answers| ==> i in joined && answers[i].Found?
    ensures |Sort(s)| == |answers| && forall i :: 0 <= i < |answers| ==> Sort(s)[i] == Indexed(i, answers[i].value)
  {
    SortSorts(s);
    AscendingIndices(Sort(s), answers);
  }

  datatype Season<+E, +D> = Season(episodes: seq<E>, documents: seq<D>)

  /** The fan-out of `hydrate_season_galleries`, where every error is fatal. */
  method JoinEpisodes<T(!new)>(answers: seq<Answer<T>>) returns (r: Result<seq<Indexed<T>>>)
    ensures r.Ok? <==> forall i :: 0 <= i < |answers| ==> answers[i].Found?
    ensures r.Ok? ==> |r.value| == |answers|
                      && forall i :: 0 <= i < |answers| ==> r.value[i] == Indexed(i, answers[i].value)
    ensures r.Err? ==> exists i :: 0 <= i < |answers| && !answers[i].Found? && r.error == ErrorOf(answers[i])
  {
    var n := |answers|;
    var next, running := Spawn(n);
    ghost var joined: set<nat> := {};
    var enriched: seq<Indexed<T>> := [];
    while |running| > 0
      invariant Pool(n, next, running, joined)
      invariant Collected(enriched, answers, joined)
      invariant forall i :: i in joined ==> i < n && answers[i].Found?
      decreases n - |joined|
    {
      var index := JoinNext(running);
      PoolStep(n, next, running, joined, index);
      running := running - {index};
      CollectOne(enriched, answers, joined, index);
      match answers[index] {
        case Found(value) => enriched := enriched + [Indexed(index, value)];
        case NotFound => return Err(Missing);
        case Failed(code) => return Err(Upstream(code));
        case Panicked => return Err(Transport);
      }
      joined := joined + {index};
      if next < n {
        running := running + {next};
        next := next + 1;
      }
    }
    PoolAddsUp(n, next, running, joined);
    EpisodesInPlace(enriched, answers, joined);
    return Ok(Sort(enriched));
  }

  /**
   * The episode stage of `hydrate_season_galleries`: it succeeds exactly when all episodes do, and then keeps the
   * length of the list, each episode in its place and the documents in episode order.
   */
  method HydrateEpisodes<E(!new), D(!new)>(season: Season<E, D>, answers: seq<Answer<Enriched<E, D>>>)
    returns (r: Result<Season<E, D>>)
    requires |answers| == |season.episodes|
    ensures r.Ok? <==> forall i :: 0 <= i < |answers| ==> answers[i].Found?
    ensures r.Ok? ==> |r.value.episodes| == |season.episodes|
                      && forall i :: 0 <= i < |answers| ==> r.value.episodes[i] == answers[i].value.episode
    ensures r.Ok? ==> r.value.documents == season.documents + Documents(InOrder(answers))
    ensures r.Err? ==> exists i :: 0 <= i < |answers| && !answers[i].Found? && r.error == ErrorOf(answers[i])
  {
    var joined := JoinEpisodes(answers);
    if joined.Err? { return Err(joined.error); }
    AllFound(answers);
    var episodes, documents := season.episodes, season.documents;
    for k := 0 to |joined.value|
      invariant |episodes| == |answers| && forall i :: 0 <= i < k ==> episodes[i] == answers[i].value.episode
      invariant documents == season.documents + Documents(InOrder(answers)[..k])
    {
      var part := joined.value[k];
      episodes := episodes[part.index := part.value.episode];
      documents := documents + part.value.documents;
      assert InOrder(answers)[..k + 1][..k] == InOrder(answers)[..k];
    }
    assert InOrder(answers)[..|answers|] == InOrder(answers);
    return Ok(Season(episodes, documents));
  }
}
