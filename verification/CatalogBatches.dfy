// Which rows the three catalog batches select, told from the columns of the rows: batch by batch, and over a whole scan
// of a changing table.
module CatalogBatches {
  import opened Catalog
  import opened JobQueue
  import opened KeysetScan
  import opened Widths

  /** An active title that nothing has refreshed yet. */
  predicate IsMissing(t: Table, media: seq<Media>, k: int) {
    k in t.titles && t.titles[k].active && t.titles[k].media in media && !t.titles[k].censused
  }

  /** An active title of the medium; enriched ones are taken by a full sweep only. */
  predicate IsToEnrich(t: Table, mode: Mode, medium: Media, k: int) {
    k in t.titles && t.titles[k].active && t.titles[k].media == medium && (t.titles[k].enriched ==> mode == FullSweep)
  }

  /** A season of an active television title; enriched ones are taken by a full sweep only. */
  predicate IsSeasonToRefresh(t: Table, mode: Mode, k: int) {
    && k in t.seasons && t.seasons[k].title in t.titles
    && t.titles[t.seasons[k].title].active && t.titles[t.seasons[k].title].media == Tv
    && (t.seasons[k].enriched ==> mode == FullSweep)
  }

  predicate IsWanted(t: Table, q: Query, k: int) {
    match q
    case MissingTitles(media) => IsMissing(t, media, k)
    case TitlesToEnrich(mode, medium) => IsToEnrich(t, mode, medium, k)
    case SeasonsToRefresh(mode) => IsSeasonToRefresh(t, mode, k)
  }

  /** How many rows one batch takes. */
  predicate IsSizeOf(size: nat, q: Query) {
    (q.MissingTitles? ==> size == 500) && (q.TitlesToEnrich? ==> size == 100) && (q.SeasonsToRefresh? ==> size == 25)
  }

  /** A batch that went through is read from a cursor and for a mode that the source accepts. */
  predicate MayScan(q: Query, cursor: u64) {
    cursor <= I64_MAX
    && (q.MissingTitles? || q.mode == FullSweep || q.mode == Recovery || q.mode == Reconcile || q.mode == MissingOnly)
  }

  lemma ScannableIff(q: Query, cursor: u64)
    ensures MayScan(q, cursor) <==> cursor <= I64_MAX && Scannable(q)
  {
  }

  /**
   * A batch holds exactly the wanted rows above its cursor, in order, up to the cursor that it leaves; a batch that is
   * not the last is full.
   */
  lemma BatchIsExact(b: Batch, t: Table, q: Query, cursor: u64, size: nat, k: int)
    requires IsBatch(b, t, q, cursor) && IsSizeOf(size, q)
    ensures Ascending(b.rows) && |b.rows| <= size && (!b.done ==> |b.rows| == size)
    ensures k in b.rows <==> k > cursor && IsWanted(t, q, k) && (b.done || k <= b.nextCursor)
  {
    if k > cursor && IsWanted(t, q, k) { assert k in Above(Qualifying(t, q), Some(cursor)); }
    if k in b.rows {
      var i :| 0 <= i < |b.rows| && b.rows[i] == k;
      assert k <= b.rows[|b.rows| - 1];
    }
  }

  predicate IsU32(n: int) {
    0 <= n < 0x1_0000_0000
  }

  /** The numbers of the row fit the payload of its job. */
  predicate IsFit(t: Table, q: Query, k: int)
    requires IsWanted(t, q, k)
  {
    if q.SeasonsToRefresh? then IsU32(t.titles[t.seasons[k].title].tmdbId) && IsU32(t.seasons[k].number)
    else IsU32(t.titles[k].tmdbId)
  }

  /** A batch is refused for a wanted row whose numbers do not fit, and for nothing else about its rows. */
  lemma RowsFitIff(t: Table, q: Query, rows: seq<int>)
    requires forall i :: 0 <= i < |rows| ==> IsWanted(t, q, rows[i])
    ensures AllFit(t, q, rows) <==> forall i :: 0 <= i < |rows| ==> IsFit(t, q, rows[i])
  {
  }

  // ---- a whole scan -------------------------------------------------------------------------------

  function CursorOf(batches: seq<Batch>, cursor: u64, i: nat): u64
    requires i <= |batches|
  {
    if i == 0 then cursor else batches[i - 1].nextCursor
  }

  /** Batch `i` was read from the table as it was then, with the cursor of the batch before it, up to the last one. */
  ghost predicate IsBatchScan(batches: seq<Batch>, tables: seq<Table>, q: Query, cursor: u64) {
    && batches != [] && |batches| == |tables|
    && (forall i :: 0 <= i < |batches| ==> IsBatch(batches[i], tables[i], q, CursorOf(batches, cursor, i)))
    && (forall i :: 0 <= i < |batches| ==> (batches[i].done <==> i == |batches| - 1))
  }

  function PagesOf(batches: seq<Batch>): seq<Page> {
    seq(|batches|, i requires 0 <= i < |batches| =>
      Page(batches[i].rows, Some(batches[i].nextCursor), batches[i].done))
  }

  function KeysOf(tables: seq<Table>, q: Query): seq<set<int>> {
    seq(|tables|, i requires 0 <= i < |tables| => Qualifying(tables[i], q))
  }

  /** The keys that the batches select, one batch after the other. */
  function AllRows(batches: seq<Batch>): seq<int> {
    if batches == [] then [] else batches[0].rows + AllRows(batches[1..])
  }

  lemma {:induction false} AllRowsAreSelected(batches: seq<Batch>)
    ensures AllRows(batches) == Selected(PagesOf(batches))
  {
    if batches != [] {
      AllRowsAreSelected(batches[1..]);
      assert PagesOf(batches)[1..] == PagesOf(batches[1..]);
    }
  }

  lemma CursorOfPages(batches: seq<Batch>, cursor: u64, i: nat)
    requires i <= |batches|
    ensures CursorAt(PagesOf(batches), Some(cursor), i) == Some(CursorOf(batches, cursor, i))
  {
  }

  lemma PageOfBatch(batches: seq<Batch>, tables: seq<Table>, q: Query, cursor: u64, i: nat)
    requires IsBatchScan(batches, tables, q, cursor) && i < |batches|
    ensures IsPage(PagesOf(batches)[i], KeysOf(tables, q)[i], CursorAt(PagesOf(batches), Some(cursor), i), BatchSize(q))
  {
    CursorOfPages(batches, cursor, i);
    assert IsBatch(batches[i], tables[i], q, CursorOf(batches, cursor, i));
    hide IsPage, Qualifying, AllFit, IsBatchScan;
  }

  lemma ScanOfPages(batches: seq<Batch>, tables: seq<Table>, q: Query, cursor: u64)
    requires IsBatchScan(batches, tables, q, cursor)
    ensures IsScan(PagesOf(batches), KeysOf(tables, q), Some(cursor), BatchSize(q)) && Finished(PagesOf(batches))
  {
    hide IsPage, Qualifying, AllFit, IsBatch;
    forall i | 0 <= i < |batches|
      ensures IsPage(PagesOf(batches)[i], KeysOf(tables, q)[i], CursorAt(PagesOf(batches), Some(cursor), i),
                     BatchSize(q))
    {
      PageOfBatch(batches, tables, q, cursor, i);
    }
  }

  /**
   * Over a whole scan of a changing table, a row that is wanted throughout is selected exactly once, and every row that
   * is selected was wanted when its batch was read.
   */
  lemma WantedRowsAreSelectedOnce(batches: seq<Batch>, tables: seq<Table>, q: Query, cursor: u64, k: int)
    requires IsBatchScan(batches, tables, q, cursor) && k > cursor
    requires forall i :: 0 <= i < |tables| ==> IsWanted(tables[i], q, k)
    ensures multiset(AllRows(batches))[k] == 1
  {
    ScanOfPages(batches, tables, q, cursor);
    AllRowsAreSelected(batches);
    hide IsScan, IsBatchScan;
    StableRowsAreSelectedOnce(PagesOf(batches), KeysOf(tables, q), Some(cursor), BatchSize(q), k);
  }

  lemma SelectedRowsWereWanted(batches: seq<Batch>, tables: seq<Table>, q: Query, cursor: u64, k: int)
    requires IsBatchScan(batches, tables, q, cursor) && k in AllRows(batches)
    ensures exists i :: 0 <= i < |tables| && k in batches[i].rows && IsWanted(tables[i], q, k)
  {
    var i := BatchOf(batches, k);
    assert IsBatch(batches[i], tables[i], q, CursorOf(batches, cursor, i));
    hide IsBatchScan, IsWanted;
    BatchIsExact(batches[i], tables[i], q, CursorOf(batches, cursor, i), BatchSize(q), k);
  }

  lemma {:induction false} BatchOf(batches: seq<Batch>, k: int) returns (i: nat)
    requires k in AllRows(batches)
    ensures i < |batches| && k in batches[i].rows
  {
    if k in batches[0].rows {
      i := 0;
    } else {
      var j := BatchOf(batches[1..], k);
      i := j + 1;
    }
  }

  /** A recovery, reconcile or missing-only scan reaches every title that stays active and unenriched. */
  lemma UnenrichedTitlesAreReached(batches: seq<Batch>, tables: seq<Table>, mode: Mode, medium: Media, k: int)
    requires IsBatchScan(batches, tables, TitlesToEnrich(mode, medium), 0) && k > 0
    requires forall i :: 0 <= i < |tables| ==>
               k in tables[i].titles && tables[i].titles[k].active && tables[i].titles[k].media == medium
               && !tables[i].titles[k].enriched
    ensures multiset(AllRows(batches))[k] == 1
  {
    WantedRowsAreSelectedOnce(batches, tables, TitlesToEnrich(mode, medium), 0, k);
  }

  /** A full sweep reaches every active title, enriched or not; the others never take an enriched one. */
  lemma EnrichedTitlesAreSwept(batches: seq<Batch>, tables: seq<Table>, mode: Mode, medium: Media, k: int)
    requires IsBatchScan(batches, tables, TitlesToEnrich(mode, medium), 0) && k > 0
    requires forall i :: 0 <= i < |tables| ==>
               k in tables[i].titles && tables[i].titles[k].active && tables[i].titles[k].media == medium
               && tables[i].titles[k].enriched
    ensures multiset(AllRows(batches))[k] == if mode == FullSweep then 1 else 0
  {
    if mode == FullSweep {
      WantedRowsAreSelectedOnce(batches, tables, TitlesToEnrich(mode, medium), 0, k);
    } else if k in AllRows(batches) {
      SelectedRowsWereWanted(batches, tables, TitlesToEnrich(mode, medium), 0, k);
    }
  }
}
