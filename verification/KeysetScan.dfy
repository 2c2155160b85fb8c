// Keyset paging: each step reads one row more than a page, selects a page, and carries the last selected key as its
// cursor. The table may change between steps, so every step sees its own snapshot.
module KeysetScan {
  import opened Catalog
  import opened JobQueue
  import opened Widths

  // ---- one page -----------------------------------------------------------------------------------

  predicate Ascending(keys: seq<int>) {
    forall i, j :: 0 <= i < j < |keys| ==> keys[i] < keys[j]
  }

  lemma {:induction false} LeastExists(keys: set<int>)
    requires keys != {}
    ensures exists m :: m in keys && forall k :: k in keys ==> m <= k
    decreases keys
  {
    if forall x: int :: x !in keys { assert false; }
    var x: int :| x in keys;
    if keys != {x} {
      LeastExists(keys - {x});
      var m :| m in keys - {x} && forall k :: k in keys - {x} ==> m <= k;
      var least := if m < x then m else x;
      assert forall k :: k in keys ==> k == x || k in keys - {x};
      assert least in keys && forall k :: k in keys ==> least <= k;
    }
  }

  /** `ORDER BY` the key */
  ghost function InOrder(keys: set<int>): (r: seq<int>)
    ensures Ascending(r) && forall k :: k in r <==> k in keys
    decreases keys
  {
    if keys == {} then []
    else
      LeastExists(keys);
      var least :| least in keys && forall k :: k in keys ==> least <= k;
      var rest := InOrder(keys - {least});
      assert forall i :: 0 <= i < |rest| ==> least < rest[i] by {
        forall i | 0 <= i < |rest| ensures least < rest[i] { assert rest[i] in rest; }
      }
      [least] + rest
  }

  predicate After(cursor: Option<int>, key: int) {
    cursor.Some? ==> key > cursor.value
  }

  function Above(keys: set<int>, cursor: Option<int>): set<int> {
    set k | k in keys && After(cursor, k)
  }

  /** `.. AND id > cursor ORDER BY id LIMIT limit`, over the keys of the rows that qualify. */
  ghost function Select(keys: set<int>, cursor: Option<int>, limit: nat): (r: seq<int>)
    ensures Ascending(r) && |r| <= limit && forall k :: k in r ==> k in keys && After(cursor, k)
    ensures |r| < limit ==> forall k :: k in Above(keys, cursor) ==> k in r
    ensures r != [] ==> forall k :: k in Above(keys, cursor) && k !in r ==> k > r[|r| - 1]
  {
    var all := InOrder(Above(keys, cursor));
    var n := if |all| < limit then |all| else limit;
    assert forall k :: k in all[..n] ==> k in all;
    assert n > 0 ==> forall k :: k in all && k !in all[..n] ==> k > all[n - 1] by {
      forall k | k in all && k !in all[..n] && n > 0 ensures k > all[n - 1] {
        var i :| 0 <= i < |all| && all[i] == k;
        assert forall j :: 0 <= j < n ==> all[j] == all[..n][j] && all[j] in all[..n];
      }
    }
    all[..n]
  }

  /** `next` is the cursor to continue from. */
  datatype Page = Page(rows: seq<int>, next: Option<int>, done: bool)

  /** What a page is: everything above the cursor, or a full page of the smallest keys above it with more to come. */
  ghost predicate IsPage(p: Page, keys: set<int>, cursor: Option<int>, size: nat) {
    && Ascending(p.rows) && |p.rows| <= size
    && (forall k :: k in p.rows ==> k in keys && After(cursor, k))
    && p.next == (if p.rows == [] then cursor else Some(p.rows[|p.rows| - 1]))
    && (if p.done then forall k :: k in Above(keys, cursor) ==> k in p.rows
        else |p.rows| == size
             && (forall k :: k in Above(keys, cursor) && !After(p.next, k) ==> k in p.rows)
             && exists k :: k in Above(keys, cursor) && k !in p.rows && After(p.next, k))
  }

  /** The limit-plus-one step shared by the missing, enrichment and season batches and by the job list. */
  method TakePage(rows: seq<int>, ghost keys: set<int>, cursor: Option<int>, size: nat) returns (p: Page)
    requires size > 0 && rows == Select(keys, cursor, size + 1)
    ensures IsPage(p, keys, cursor, size) && p.rows == FirstOf(rows, size)
  {
    var done := |rows| <= size;
    var page := if done then rows else rows[..size];
    p := Page(page, if page == [] then cursor else Some(page[|page| - 1]), done);
    if !done { MoreRemain(rows, keys, cursor, size); }
  }

  lemma MoreRemain(rows: seq<int>, keys: set<int>, cursor: Option<int>, size: nat)
    requires size > 0 && rows == Select(keys, cursor, size + 1) && |rows| == size + 1
    ensures IsPage(Page(rows[..size], Some(rows[size - 1]), false), keys, cursor, size)
  {
    var page, next := rows[..size], Some(rows[size - 1]);
    forall k | k in page ensures k in rows {
      var i :| 0 <= i < |page| && page[i] == k;
      assert rows[i] == k;
    }
    forall i | 0 <= i < size ensures page[i] < rows[size] { }
    assert rows[size] in rows && rows[size] !in page && After(next, rows[size]);
    forall k | k in Above(keys, cursor) && !After(next, k) ensures k in page {
      if k !in rows { assert false; }
      var i :| 0 <= i < |rows| && rows[i] == k;
      assert page[i] == k;
    }
  }

  // ---- a whole scan over a changing table ---------------------------------------------------------

  function CursorAt(pages: seq<Page>, cursor: Option<int>, i: nat): Option<int>
    requires i <= |pages|
  {
    if i == 0 then cursor else pages[i - 1].next
  }

  /** Page `i` was read from snapshot `i` with the cursor that page `i - 1` left, until a page says it is the last. */
  ghost predicate IsScan(pages: seq<Page>, snapshots: seq<set<int>>, cursor: Option<int>, size: nat) {
    && |pages| <= |snapshots|
    && (forall i :: 0 <= i < |pages| ==> IsPage(pages[i], snapshots[i], CursorAt(pages, cursor, i), size))
    && (forall i :: 0 <= i < |pages| - 1 ==> !pages[i].done)
  }

  predicate Finished(pages: seq<Page>) {
    pages != [] && pages[|pages| - 1].done
  }

  function Selected(pages: seq<Page>): seq<int> {
    if pages == [] then [] else pages[0].rows + Selected(pages[1..])
  }

  lemma TailIsScan(pages: seq<Page>, snapshots: seq<set<int>>, cursor: Option<int>, size: nat)
    requires IsScan(pages, snapshots, cursor, size) && pages != []
    ensures IsScan(pages[1..], snapshots[1..], pages[0].next, size)
  {
  }

  /** Whatever happens to the table, no key is selected twice: the whole selection ascends from the cursor. */
  lemma {:induction false} NoDuplicates(pages: seq<Page>, snapshots: seq<set<int>>, cursor: Option<int>, size: nat)
    requires IsScan(pages, snapshots, cursor, size)
    ensures Ascending(Selected(pages)) && forall k :: k in Selected(pages) ==> After(cursor, k)
    decreases |pages|
  {
    if pages != [] {
      TailIsScan(pages, snapshots, cursor, size);
      NoDuplicates(pages[1..], snapshots[1..], pages[0].next, size);
      var first, rest := pages[0].rows, Selected(pages[1..]);
      assert IsPage(pages[0], snapshots[0], CursorAt(pages, cursor, 0), size);
      forall i, j | 0 <= i < j < |first + rest| ensures (first + rest)[i] < (first + rest)[j] {
        if i < |first| <= j { assert rest[j - |first|] in rest && first[i] <= first[|first| - 1]; }
      }
      forall k | k in rest ensures After(cursor, k) {
        assert After(pages[0].next, k);
        if first != [] { assert first[|first| - 1] in first; }
      }
    }
  }

  /** Page `i` selects exactly the keys of its snapshot that lie between its cursor and the next one. */
  lemma PageIsExact(pages: seq<Page>, snapshots: seq<set<int>>, cursor: Option<int>, size: nat, i: nat, k: int)
    requires IsScan(pages, snapshots, cursor, size) && size > 0 && i < |pages|
    ensures k in pages[i].rows <==>
            k in snapshots[i] && After(CursorAt(pages, cursor, i), k) && (pages[i].done || !After(pages[i].next, k))
  {
    var p, before := pages[i], CursorAt(pages, cursor, i);
    assert IsPage(p, snapshots[i], before, size);
    if k in p.rows {
      var j :| 0 <= j < |p.rows| && p.rows[j] == k;
      assert k <= p.rows[|p.rows| - 1];
    } else if k in snapshots[i] && After(before, k) {
      assert k in Above(snapshots[i], before);
    }
  }

  /** A row that qualifies in every snapshot of a finished scan is selected exactly once. */
  lemma {:induction false} StableRowsAreSelectedOnce(pages: seq<Page>, snapshots: seq<set<int>>, cursor: Option<int>,
                                                     size: nat, k: int)
    requires IsScan(pages, snapshots, cursor, size) && Finished(pages) && size > 0
    requires After(cursor, k) && forall i :: 0 <= i < |pages| ==> k in snapshots[i]
    ensures multiset(Selected(pages))[k] == 1
    decreases |pages|
  {
    StableRowsAreSelected(pages, snapshots, cursor, size, k);
    NoDuplicates(pages, snapshots, cursor, size);
    AscendingCounts(Selected(pages), k);
  }

  lemma {:induction false} StableRowsAreSelected(pages: seq<Page>, snapshots: seq<set<int>>, cursor: Option<int>,
                                                 size: nat, k: int)
    requires IsScan(pages, snapshots, cursor, size) && Finished(pages) && size > 0
    requires After(cursor, k) && forall i :: 0 <= i < |pages| ==> k in snapshots[i]
    ensures k in Selected(pages)
    decreases |pages|
  {
    PageIsExact(pages, snapshots, cursor, size, 0, k);
    if k !in pages[0].rows {
      TailIsScan(pages, snapshots, cursor, size);
      var rest := pages[1..];
      assert !pages[0].done;
      assert Finished(rest) by { assert rest[|rest| - 1] == pages[|pages| - 1]; }
      StableRowsAreSelected(rest, snapshots[1..], pages[0].next, size, k);
    }
  }

  lemma {:induction false} AscendingCounts(keys: seq<int>, k: int)
    requires Ascending(keys)
    ensures multiset(keys)[k] == if k in keys then 1 else 0
    decreases |keys|
  {
    if keys != [] {
      var init, last := keys[..|keys| - 1], keys[|keys| - 1];
      assert keys == init + [last];
      AscendingCounts(init, k);
    }
  }

  /** The last page leaves nothing behind, and a page that is not the last leaves at least one row. */
  lemma DoneIsExact(pages: seq<Page>, snapshots: seq<set<int>>, cursor: Option<int>, size: nat, i: nat)
    requires IsScan(pages, snapshots, cursor, size) && i < |pages| && size > 0
    ensures pages[i].done <==>
            forall k :: k in snapshots[i] && After(CursorAt(pages, cursor, i), k) ==> k in pages[i].rows
    ensures !pages[i].done ==>
              |pages[i].rows| == size && pages[i].next.Some? && After(CursorAt(pages, cursor, i), pages[i].next.value)
  {
  }

  // ---- the three catalog batches ------------------------------------------------------------------

  datatype Title = Title(media: Media, tmdbId: int, active: bool, censused: bool, enriched: bool)

  datatype Season = Season(title: int, number: int, enriched: bool)

  /** Primary keys are positive 64-bit integers. */
  datatype Table = Table(titles: map<int, Title>, seasons: map<int, Season>)

  datatype Query = MissingTitles(media: seq<Media>) | TitlesToEnrich(mode: Mode, medium: Media)
    | SeasonsToRefresh(mode: Mode)

  function BatchSize(q: Query): nat {
    match q
    case MissingTitles(_) => 500
    case TitlesToEnrich(_, _) => 100
    case SeasonsToRefresh(_) => 25
  }

  /** The `WHERE` clause of each batch, without its cursor. */
  function Qualifying(t: Table, q: Query): set<int> {
    match q
    case MissingTitles(media) =>
      set k | k in t.titles && t.titles[k].active && t.titles[k].media in media && !t.titles[k].censused
    case TitlesToEnrich(mode, medium) =>
      set k | k in t.titles && t.titles[k].active && t.titles[k].media == medium
              && (mode.FullSweep? || !t.titles[k].enriched)
    case SeasonsToRefresh(mode) =>
      set k | k in t.seasons && t.seasons[k].title in t.titles
              && t.titles[t.seasons[k].title].active && t.titles[t.seasons[k].title].media.Tv?
              && (mode.FullSweep? || !t.seasons[k].enriched)
  }

  predicate FitsU32(n: int) {
    0 <= n <= U32_MAX
  }

  /** The row converts to a child payload. */
  predicate RowFits(t: Table, q: Query, k: int)
    requires k in Qualifying(t, q)
  {
    match q
    case MissingTitles(_) => FitsU32(t.titles[k].tmdbId)
    case TitlesToEnrich(_, _) => FitsU32(t.titles[k].tmdbId)
    case SeasonsToRefresh(_) => FitsU32(t.titles[t.seasons[k].title].tmdbId) && FitsU32(t.seasons[k].number)
  }

  predicate Scannable(q: Query) {
    q.MissingTitles? || (!q.mode.PruneCleanup? && !q.mode.DailySync?)
  }

  datatype Batch = Batch(rows: seq<int>, nextCursor: u64, done: bool)

  /** `InvalidPayload` is the dead letter of that name. */
  datatype BatchResult = Ok(batch: Batch) | InvalidPayload

  ghost predicate IsBatch(b: Batch, t: Table, q: Query, cursor: u64) {
    && IsPage(Page(b.rows, Some(b.nextCursor), b.done), Qualifying(t, q), Some(cursor), BatchSize(q))
    && AllFit(t, q, b.rows)
  }

  /**
   * `enqueue_missing_catalog_refresh_batch`, `enqueue_catalog_enrichment_batch` and `enqueue_catalog_season_batch`,
   * once the database answers and the queue accepts the children.
   */
  method EnqueueBatch(t: Table, q: Query, cursor: u64, rows: seq<int>) returns (r: BatchResult)
    requires forall k :: k in t.titles || k in t.seasons ==> 0 < k <= I64_MAX
    requires rows == Select(Qualifying(t, q), Some(cursor), BatchSize(q) + 1)
    ensures r.Ok? ==> IsBatch(r.batch, t, q, cursor) && cursor <= r.batch.nextCursor <= I64_MAX
    ensures r.InvalidPayload? <==> cursor > I64_MAX || !Scannable(q) || !AllFit(t, q, FirstOf(rows, BatchSize(q)))
  {
    if cursor > I64_MAX || !Scannable(q) { return InvalidPayload; }
    var page := TakePage(rows, Qualifying(t, q), Some(cursor), BatchSize(q));
    CursorFits(t, q, cursor, page);
    var fit := AllRowsFit(t, q, page.rows);
    if !fit { return InvalidPayload; }
    return Ok(Batch(page.rows, page.next.value, page.done));
  }

  function FirstOf(rows: seq<int>, size: nat): seq<int> {
    if |rows| <= size then rows else rows[..size]
  }

  predicate AllFit(t: Table, q: Query, rows: seq<int>) {
    forall i :: 0 <= i < |rows| ==> rows[i] in Qualifying(t, q) && RowFits(t, q, rows[i])
  }

  /** The conversion of the rows into jobs, which stops at the first row that does not fit. */
  method AllRowsFit(t: Table, q: Query, rows: seq<int>) returns (fit: bool)
    requires forall i :: 0 <= i < |rows| ==> rows[i] in Qualifying(t, q)
    ensures fit <==> AllFit(t, q, rows)
  {
    for i := 0 to |rows|
      invariant forall j :: 0 <= j < i ==> RowFits(t, q, rows[j])
    {
      if !RowFits(t, q, rows[i]) { return false; }
    }
    return true;
  }

  lemma CursorFits(t: Table, q: Query, cursor: u64, page: Page)
    requires forall k :: k in t.titles || k in t.seasons ==> 0 < k <= I64_MAX
    requires cursor <= I64_MAX && IsPage(page, Qualifying(t, q), Some(cursor), BatchSize(q))
    ensures page.next.Some? && cursor <= page.next.value <= I64_MAX
    ensures forall i :: 0 <= i < |page.rows| ==> page.rows[i] in Qualifying(t, q)
  {
    if page.rows != [] { assert page.rows[|page.rows| - 1] in page.rows; }
  }

  // ---- the administrator's job list ---------------------------------------------------------------

  const UUID_SPACE: int := 0x1_0000_0000_0000_0000_0000_0000_0000_0000

  datatype JobRow = JobRow(createdAt: nat, matches: bool)

  /** `ORDER BY created_at DESC, id DESC`, as one ascending number. */
  function ListKey(createdAt: nat, id: nat): int {
    -(createdAt * UUID_SPACE + id)
  }

  lemma ListKeyOrder(c1: nat, id1: nat, c2: nat, id2: nat)
    requires id1 < UUID_SPACE && id2 < UUID_SPACE
    ensures ListKey(c1, id1) < ListKey(c2, id2) <==> c1 > c2 || (c1 == c2 && id1 > id2)
    ensures ListKey(c1, id1) == ListKey(c2, id2) <==> c1 == c2 && id1 == id2
  {
  }

  function ListKeys(jobs: map<nat, JobRow>): set<int> {
    set id | id in jobs && jobs[id].matches :: ListKey(jobs[id].createdAt, id)
  }

  /** The keys of the list are those of the jobs that the filter lets through. */
  lemma ListedAreMatches(jobs: map<nat, JobRow>, id: nat)
    requires id in jobs && forall other :: other in jobs ==> other < UUID_SPACE
    ensures ListKey(jobs[id].createdAt, id) in ListKeys(jobs) <==> jobs[id].matches
  {
    forall other | other in jobs { ListKeyOrder(jobs[id].createdAt, id, jobs[other].createdAt, other); }
  }

  datatype ListResult = Listed(page: Page) | InvalidInput

  /** `list_jobs`: a cursor that names no job is refused; otherwise a page of the filtered jobs older than it. */
  method ListJobs(jobs: map<nat, JobRow>, cursor: Option<nat>, limit: nat, rows: seq<int>) returns (r: ListResult)
    requires limit > 0
    requires (cursor.Some? ==> cursor.value in jobs) ==>
      rows == Select(ListKeys(jobs), ListCursor(jobs, cursor), limit + 1)
    ensures r.InvalidInput? <==> cursor.Some? && cursor.value !in jobs
    ensures r.Listed? ==> IsPage(r.page, ListKeys(jobs), ListCursor(jobs, cursor), limit)
  {
    if cursor.Some? && cursor.value !in jobs { return InvalidInput; }
    var page := TakePage(rows, ListKeys(jobs), ListCursor(jobs, cursor), limit);
    return Listed(page);
  }

  function ListCursor(jobs: map<nat, JobRow>, cursor: Option<nat>): Option<int>
    requires cursor.Some? ==> cursor.value in jobs
  {
    if cursor.None? then None else Some(ListKey(jobs[cursor.value].createdAt, cursor.value))
  }

  /** Jobs submitted while an operator pages are newer than the cursor, so they neither repeat nor hide older ones. */
  lemma NewJobsDoNotDisturb(jobs: map<nat, JobRow>, more: map<nat, JobRow>, cursor: nat)
    requires cursor in jobs && forall id :: id in jobs || id in more ==> id < UUID_SPACE
    requires more.Keys !! jobs.Keys && forall id :: id in more ==> more[id].createdAt > jobs[cursor].createdAt
    ensures Above(ListKeys(jobs + more), ListCursor(jobs + more, Some(cursor)))
         == Above(ListKeys(jobs), ListCursor(jobs, Some(cursor)))
  {
  }
}
