// What one step of the coordinator submits, told from its job, the rows and the state it reads.
module CoordinatorWork {
  import opened Catalog
  import opened CatalogBatches
  import opened JobQueue
  import Keyset = KeysetScan
  import opened ScanCoordinator
  import opened Widths

  // ---- how a scan is asked for --------------------------------------------------------------------

  /** What the schedule and the administrator's requests write: a mode and its media, and perhaps a window of days. */
  function RootPayload(mode: Mode, media: seq<Media>, window: Option<(int, int)>): Value {
    var root := map["mode" := Text(ModeName(mode)), "mediaTypes" := Array(MediaValues(media))];
    Object(if window.None? then root
           else root["windowStart" := Day(window.value.0)]["windowEnd" := Day(window.value.1)])
  }

  /** A root is read as a start from the first row, for one or two distinct media; only a daily scan has a window. */
  lemma RootIsReadAsStart(mode: Mode, media: seq<Media>, window: Option<(int, int)>)
    ensures var from := if window.None? then None else Some(window.value.0);
            var to := if window.None? then None else Some(window.value.1);
            ParseScan(RootPayload(mode, media, window)) ==
            if (media == [Movie] || media == [Tv] || media == [Movie, Tv] || media == [Tv, Movie])
               && (window.Some? ==> mode == DailySync && window.value.0 <= window.value.1 <= window.value.0 + 13)
            then Parsed(ScanJob(mode, media, Start, 0, 0, from, to)) else Refused(InvalidValue)
  {
    MediaListRoundTrip(media);
    NamesRoundTrip(mode, Start, Movie);
    hide MediaList, MediaValues, ModeOf, ModeName, PhaseOf;
    MediaOneOrTwo(media);
    var f := RootPayload(mode, media, window).fields;
    assert "phase" !in f && "cursor" !in f && "poll" !in f by { RootKeys(); }
    assert f.Keys <= SCAN_KEYS;
    var from := if window.None? then None else Some(window.value.0);
    var to := if window.None? then None else Some(window.value.1);
    assert DecodeScan(RootPayload(mode, media, window)) == Some(ScanJob(mode, media, Start, 0, 0, from, to)) by {
      RootKeys();
    }
  }

  lemma MediaOneOrTwo(media: seq<Media>)
    ensures 1 <= |media| <= 2 && (|media| == 2 ==> media[0] != media[1]) <==>
            media == [Movie] || media == [Tv] || media == [Movie, Tv] || media == [Tv, Movie]
  {
    assert |[Movie]| == |[Tv]| == 1 && |[Movie, Tv]| == |[Tv, Movie]| == 2;
    if |media| == 1 {
      assert media[0].Movie? || media[0].Tv?;
      assert media == [media[0]];
    } else if |media| == 2 {
      assert media == [media[0], media[1]];
      assert [Movie, Tv][0] == Movie && [Movie, Tv][1] == Tv && [Tv, Movie][0] == Tv && [Tv, Movie][1] == Movie;
      assert media[0] != media[1] ==> media[0].Movie? || media[1].Movie?;
    }
  }

  lemma RootKeys()
    ensures {"mode", "mediaTypes", "windowStart", "windowEnd"} !! {"phase", "cursor", "poll"}
    ensures "windowStart" != "windowEnd" && "mode" != "mediaTypes"
    ensures {"mode", "mediaTypes"} !! {"windowStart", "windowEnd"}
  {
    assert "mode"[1] == 'o' && "mediaTypes"[1] == 'e' && "windowStart"[6] == 'S' && "windowEnd"[6] == 'E';
    assert "phase"[0] == 'p' && "cursor"[0] == 'c' && "poll"[0] == 'p' && "windowEnd"[0] == 'w';
  }

  // ---- the first step -----------------------------------------------------------------------------

  /** The window of a daily scan: what was asked for, or else from the end of the last one until today. */
  predicate IsWindow(j: ScanJob, w: World, from: int, to: int) {
    && (if j.windowStart.Some? then from == j.windowStart.value else w.lastWindowEnd == Some(from))
    && (if j.windowEnd.Some? then to == j.windowEnd.value else to == w.today)
  }

  /** It is read unless a full sweep is due; it may span fourteen days at most. */
  predicate MayRead(w: World, from: int, to: int) {
    !w.sweepRequired && from <= to <= from + 13
  }

  /** The children are page 1 of the window for each medium, in order, and the completion of the same window. */
  predicate ReadsWindow(children: seq<Child>, media: seq<Media>, from: int, to: int) {
    && |children| == |media| + 2 && children[0].Configuration?
    && (forall i :: 0 <= i < |media| ==>
          children[i + 1].Changes?
          && ParseChanges(children[i + 1].payload) == Parsed(ChangesJob(media[i], 1, Some(from), Some(to))))
    && children[|media| + 1].Scan?
    && ParseScan(children[|media| + 1].payload)
       == Parsed(ScanJob(DailySync, media, Completion, 0, 0, Some(from), Some(to)))
  }

  lemma {:induction false} ChangesInOrder(media: seq<Media>, from: int, to: int, i: nat)
    requires i < |media|
    ensures |ChangesChildren(media, from, to)| == |media|
    ensures ChangesChildren(media, from, to)[i]
      == Changes(ChangesPayload(ChangesJob(media[i], 1, Some(from), Some(to))))
  {
    hide ChangesPayload;
    if i > 0 {
      ChangesInOrder(media[1..], from, to, i - 1);
    } else if |media| > 1 {
      ChangesInOrder(media[1..], from, to, 0);
    }
  }

  /** A daily scan reads exactly its window when it may, and otherwise submits no page and no completion. */
  lemma DailyScanReadsItsWindow(j: ScanJob, w: World, from: int, to: int)
    requires ValidScan(j) && j.phase.Start? && j.mode.DailySync? && Answers(w, j) && IsWindow(j, w, from, to)
    ensures var r := Step(j, w);
            && r.Emitted? && !r.waiting && !r.advances
            && if MayRead(w, from, to) then ReadsWindow(r.children, j.media, from, to)
               else r.children == [Configuration]
  {
    hide ScanPayload, ChangesPayload, ParseScan, ParseChanges, ChangesChildren, Answers;
    if MayRead(w, from, to) {
      var completion := ScanJob(DailySync, j.media, Completion, 0, 0, Some(from), Some(to));
      ScanRoundTrip(completion);
      var r := Step(j, w);
      assert r.children == [Configuration] + ChangesChildren(j.media, from, to) + [Scan(ScanPayload(completion))];
      ChangesInOrder(j.media, from, to, 0);
      forall i | 0 <= i < |j.media|
        ensures r.children[i + 1].Changes?
        ensures ParseChanges(r.children[i + 1].payload) == Parsed(ChangesJob(j.media[i], 1, Some(from), Some(to)))
      {
        ChangesInOrder(j.media, from, to, i);
        ChangesRoundTrip(ChangesJob(j.media[i], 1, Some(from), Some(to)));
      }
    }
  }

  /** Without a window to start from, nothing is read. */
  lemma DailyScanNeedsAStart(j: ScanJob, w: World)
    requires ValidScan(j) && j.phase.Start? && j.mode.DailySync? && Answers(w, j)
    requires j.windowStart.None? && w.lastWindowEnd.None?
    ensures Step(j, w) == Emitted([Configuration], false, false)
  {
  }

  lemma {:induction false} SweepInOrder(media: seq<Media>, i: nat)
    requires i < |media|
    ensures var c := SweepChildren(media);
            && |c| == 3 * |media|
            && c[3 * i] == Trending(media[i], true) && c[3 * i + 1] == Trending(media[i], false)
            && c[3 * i + 2] == Export(media[i], true, 0)
  {
    if i > 0 { SweepInOrder(media[1..], i - 1); } else if |media| > 1 { SweepInOrder(media[1..], 0); }
  }

  /** A full sweep asks, for each medium in order, for the trends of the day and the week and for the whole export. */
  lemma SweepStarts(j: ScanJob, w: World, i: nat)
    requires ValidScan(j) && j.phase.Start? && j.mode.FullSweep? && Answers(w, j) && i < |j.media|
    ensures var r, m := Step(j, w), j.media[i];
            && r.Emitted? && !r.waiting && !r.advances && |r.children| == 1 + 3 * |j.media|
            && r.children[0].Configuration? && r.children[3 * i + 1] == Trending(m, true)
            && r.children[3 * i + 2] == Trending(m, false) && r.children[3 * i + 3] == Export(m, true, 0)
  {
    SweepInOrder(j.media, i);
  }

  /** The enrichment scan of one medium, from its first row. */
  predicate IsEnrichment(c: Child, j: ScanJob, m: Media) {
    c.Scan? && ParseScan(c.payload) == Parsed(ScanJob(j.mode, [m], Enrichment, 0, 0, None, None))
  }

  lemma NextIsEnrichment(j: ScanJob, m: Media)
    requires Phased(j.mode)
    ensures IsEnrichment(Scan(ScanPayload(Next(j, [m], Enrichment, 0))), j, m)
  {
    ScanRoundTrip(Next(j, [m], Enrichment, 0));
  }

  lemma {:induction false} EnrichmentsInOrder(j: ScanJob, media: seq<Media>, i: nat)
    requires i < |media|
    ensures var c := EnrichmentChildren(j, media, false);
            |c| == |media| && c[i] == Scan(ScanPayload(Next(j, [media[i]], Enrichment, 0)))
  {
    hide ScanPayload;
    if i > 0 {
      EnrichmentsInOrder(j, media[1..], i - 1);
    } else if |media| > 1 {
      EnrichmentsInOrder(j, media[1..], 0);
    }
  }

  lemma {:induction false} ExportsInOrder(j: ScanJob, media: seq<Media>, i: nat)
    requires i < |media|
    ensures var c := EnrichmentChildren(j, media, true);
            && |c| == 2 * |media| && c[2 * i] == Export(media[i], false, 0)
            && c[2 * i + 1] == Scan(ScanPayload(Next(j, [media[i]], Enrichment, 0)))
  {
    hide ScanPayload;
    if i > 0 {
      ExportsInOrder(j, media[1..], i - 1);
    } else if |media| > 1 {
      ExportsInOrder(j, media[1..], 0);
    }
  }

  /** A recovery or a reconcile asks, for each medium in order, for its export of missing ids and its enrichment. */
  lemma RecoveryStarts(j: ScanJob, w: World, i: nat)
    requires ValidScan(j) && j.phase.Start? && (j.mode.Recovery? || j.mode.Reconcile?) && Answers(w, j) && i < |j.media|
    ensures var r := Step(j, w);
            && r.Emitted? && !r.waiting && !r.advances && |r.children| == 1 + 2 * |j.media|
            && r.children[0].Configuration? && r.children[2 * i + 1] == Export(j.media[i], false, 0)
            && IsEnrichment(r.children[2 * i + 2], j, j.media[i])
  {
    ExportsInOrder(j, j.media, i);
    NextIsEnrichment(j, j.media[i]);
    hide EnrichmentChildren, IsEnrichment, ScanPayload;
  }

  // ---- batches ------------------------------------------------------------------------------------

  /** The row lies between the cursor of the job and the end of its batch. */
  predicate InReach(j: ScanJob, w: World, k: int)
    requires w.batch.Ok?
  {
    k > j.cursor && (w.batch.batch.done || k <= w.batch.batch.nextCursor)
  }

  /** The job that refreshes or enriches title `k`. */
  function TitleJob(t: Keyset.Table, k: int, enrich: bool): Child
    requires k in t.titles
  {
    Refresh(t.titles[k].media, enrich, RefreshPayload(t.titles[k].tmdbId, enrich))
  }

  /** The job that refreshes season `k`. */
  function SeasonJobOf(t: Keyset.Table, k: int): Child
    requires k in t.seasons && t.seasons[k].title in t.titles
  {
    SeasonRefresh(SeasonPayload(t.titles[t.seasons[k].title].tmdbId, t.seasons[k].number))
  }

  lemma {:induction false} TitleOfEach(t: Keyset.Table, rows: seq<int>, enrich: bool, c: Child)
    requires forall i :: 0 <= i < |rows| ==> rows[i] in t.titles
    ensures c in TitleChildren(t, rows, enrich) <==> exists k :: k in rows && c == TitleJob(t, k, enrich)
  {
    hide RefreshPayload;
    if rows != [] {
      TitleOfEach(t, rows[1..], enrich, c);
      assert TitleChildren(t, rows, enrich) == [TitleJob(t, rows[0], enrich)] + TitleChildren(t, rows[1..], enrich);
      assert forall k :: k in rows <==> k == rows[0] || k in rows[1..];
    }
  }

  lemma {:induction false} SeasonOfEach(t: Keyset.Table, rows: seq<int>, c: Child)
    requires forall i :: 0 <= i < |rows| ==> rows[i] in t.seasons && t.seasons[rows[i]].title in t.titles
    ensures c in SeasonChildren(t, rows) <==> exists k :: k in rows && c == SeasonJobOf(t, k)
  {
    hide SeasonPayload;
    if rows != [] {
      SeasonOfEach(t, rows[1..], c);
      assert SeasonChildren(t, rows) == [SeasonJobOf(t, rows[0])] + SeasonChildren(t, rows[1..]);
      assert forall k :: k in rows <==> k == rows[0] || k in rows[1..];
    }
  }

  lemma RowsOfBatch(j: ScanJob, w: World, size: nat, k: int)
    requires ValidScan(j) && Answers(w, j) && w.batch.Ok? && IsSizeOf(size, QueryOf(j))
    ensures k in w.batch.batch.rows <==> InReach(j, w, k) && IsWanted(w.table, QueryOf(j), k)
  {
    BatchIsExact(w.batch.batch, w.table, QueryOf(j), j.cursor, size, k);
  }

  /** An enrichment step enriches exactly the titles in reach that are to be enriched. */
  lemma EnrichmentStepSubmits(j: ScanJob, w: World, c: Child)
    requires ValidScan(j) && j.phase.Enrichment? && Answers(w, j) && !w.active && w.batch.Ok? && !c.Scan?
    ensures c in Step(j, w).children <==>
            exists k :: InReach(j, w, k) && IsToEnrich(w.table, j.mode, j.media[0], k)
                        && c == TitleJob(w.table, k, true)
  {
    hide ScanPayload, RefreshPayload, IsToEnrich, InReach;
    var rows := w.batch.batch.rows;
    forall k ensures k in rows <==> InReach(j, w, k) && IsToEnrich(w.table, j.mode, j.media[0], k) {
      RowsOfBatch(j, w, 100, k);
    }
    TitleOfEach(w.table, rows, true, c);
  }

  /** A season step refreshes exactly the seasons in reach that are to be refreshed. */
  lemma SeasonStepSubmits(j: ScanJob, w: World, c: Child)
    requires Runnable(j) && j.phase.Seasons? && Answers(w, j) && !w.active && w.batch.Ok? && !c.Scan?
    ensures c in Step(j, w).children <==>
            exists k :: InReach(j, w, k) && IsSeasonToRefresh(w.table, j.mode, k) && c == SeasonJobOf(w.table, k)
  {
    hide ScanPayload, SeasonPayload, IsSeasonToRefresh, InReach;
    var rows := w.batch.batch.rows;
    forall k ensures k in rows <==> InReach(j, w, k) && IsSeasonToRefresh(w.table, j.mode, k) {
      RowsOfBatch(j, w, 25, k);
    }
    SeasonOfEach(w.table, rows, c);
  }

  /** A missing-only start refreshes exactly the titles in reach that are missing. */
  lemma MissingStepSubmits(j: ScanJob, w: World, c: Child)
    requires ValidScan(j) && j.phase.Start? && j.mode.MissingOnly? && Answers(w, j) && w.batch.Ok?
    requires !c.Scan? && !c.Configuration?
    ensures c in Step(j, w).children <==>
            exists k :: InReach(j, w, k) && IsMissing(w.table, j.media, k) && c == TitleJob(w.table, k, false)
  {
    hide ScanPayload, RefreshPayload, IsMissing, InReach;
    var rows := w.batch.batch.rows;
    forall k ensures k in rows <==> InReach(j, w, k) && IsMissing(w.table, j.media, k) {
      RowsOfBatch(j, w, 500, k);
    }
    TitleOfEach(w.table, rows, false, c);
    OnlyScansEnrich(j, j.media, c);
  }

  lemma {:induction false} OnlyScansEnrich(j: ScanJob, media: seq<Media>, c: Child)
    requires !c.Scan?
    ensures c !in EnrichmentChildren(j, media, false)
  {
    if media != [] { OnlyScansEnrich(j, media[1..], c); }
  }

  // ---- where a scan goes next ---------------------------------------------------------------------

  /** The last row of the batch, or the cursor of the job when there is none. */
  function CursorAfter(j: ScanJob, w: World): int
    requires w.batch.Ok?
  {
    var rows := w.batch.batch.rows;
    if rows == [] then j.cursor else rows[|rows| - 1]
  }

  /** A missing-only start goes on from its last row, and at the end begins the enrichment of each medium in order. */
  lemma MissingStepGoesOn(j: ScanJob, w: World, i: nat)
    requires ValidScan(j) && j.phase.Start? && j.mode.MissingOnly? && Answers(w, j) && w.batch.Ok? && i < |j.media|
    ensures var r, n := Step(j, w), |Step(j, w).children|;
            && r.Emitted? && !r.waiting && !r.advances
            && if w.batch.batch.done then
                 n >= |j.media| && IsEnrichment(r.children[n - |j.media| + i], j, j.media[i])
               else
                 && n > 0 && r.children[n - 1].Scan? && 0 <= CursorAfter(j, w) <= I64_MAX
                 && ParseScan(r.children[n - 1].payload)
                    == Parsed(ScanJob(MissingOnly, j.media, Start, CursorAfter(j, w), 0, None, None))
  {
    EnrichmentsInOrder(j, j.media, i);
    NextIsEnrichment(j, j.media[i]);
    hide ParseScan, EnrichmentChildren, IsEnrichment, TitleChildren;
    if !w.batch.batch.done { ScanRoundTrip(Next(j, j.media, Start, w.batch.batch.nextCursor)); }
    hide ScanPayload;
  }

  /** The upstream configuration is asked for by the first step of a scan only. */
  lemma FirstStepConfigures(j: ScanJob, w: World)
    requires ValidScan(j) && j.phase.Start? && j.mode.MissingOnly? && Answers(w, j)
    ensures Configuration in Step(j, w).children <==> j.cursor == 0
  {
    hide ScanPayload, RefreshPayload, EnrichmentChildren, TitleChildren;
    if w.batch.Ok? { TitleOfEach(w.table, w.batch.batch.rows, false, Configuration); }
    OnlyScansEnrich(j, j.media, Configuration);
  }

  /** A batch that is refused ends its scan for good. */
  lemma RefusedBatchDeadLetters(j: ScanJob, w: World)
    requires Runnable(j) && Answers(w, j) && w.batch.InvalidPayload?
    requires (j.phase.Start? && j.mode.MissingOnly?) || ((j.phase.Enrichment? || j.phase.Seasons?) && !w.active)
    ensures var r := Step(j, w); r.DeadLettered? && forall c :: c in r.children ==> c == Configuration
  {
  }

  /** Television goes from enrichment to its seasons; every other phase that ends goes to the completion. */
  function PhaseAfter(j: ScanJob): Phase
    requires j.media != []
  {
    if j.phase == Enrichment && j.media[0] == Tv then Seasons else Completion
  }

  /** A phase with a batch goes on from its last row, and from its last batch to the next phase's first row. */
  lemma PhaseGoesOn(j: ScanJob, w: World)
    requires Runnable(j) && (j.phase.Enrichment? || j.phase.Seasons?) && Answers(w, j) && !w.active && w.batch.Ok?
    ensures var r, n := Step(j, w), |Step(j, w).children|;
            && r.Emitted? && !r.waiting && !r.advances && n > 0 && r.children[n - 1].Scan?
            && 0 <= CursorAfter(j, w) <= I64_MAX
            && ParseScan(r.children[n - 1].payload)
               == Parsed(if w.batch.batch.done then ScanJob(j.mode, j.media, PhaseAfter(j), 0, 0, None, None)
                         else ScanJob(j.mode, j.media, j.phase, CursorAfter(j, w), 0, None, None))
  {
    var next := if w.batch.batch.done then ScanJob(j.mode, j.media, PhaseAfter(j), 0, 0, None, None)
                else ScanJob(j.mode, j.media, j.phase, CursorAfter(j, w), 0, None, None);
    ScanRoundTrip(next);
    hide ScanPayload, ParseScan, TitleChildren, SeasonChildren;
  }

  /** A phase that sees active work submits its own job again, with one poll more, or dead-letters at the last poll. */
  lemma BusyPhaseWaits(j: ScanJob, w: World)
    requires ValidScan(j) && !j.phase.Start? && Answers(w, j) && w.active
    ensures var r := Step(j, w);
            if j.poll == U32_MAX then r == DeadLettered([])
            else
              && r.Emitted? && r.waiting && !r.advances && |r.children| == 1 && r.children[0].Scan?
              && ParseScan(r.children[0].payload)
                 == Parsed(ScanJob(j.mode, j.media, j.phase, j.cursor, j.poll + 1, j.windowStart, j.windowEnd))
  {
    if j.poll < U32_MAX {
      ScanRoundTrip(ScanJob(j.mode, j.media, j.phase, j.cursor, j.poll + 1, j.windowStart, j.windowEnd));
    }
    hide ScanPayload, ParseScan;
  }

  /** A completion that sees no active work ends its scan, and moves the watermark unless a failure stands. */
  lemma QuietCompletionEnds(j: ScanJob, w: World)
    requires ValidScan(j) && j.phase.Completion? && Answers(w, j) && !w.active
    ensures var r := Step(j, w);
            r.Emitted? && r.children == [] && !r.waiting && (r.advances <==> !w.failures && j.mode != Recovery)
  {
  }

  /** A clean-up scan submits nothing. */
  lemma CleanupSubmitsNothing(j: ScanJob, w: World)
    requires ValidScan(j) && j.mode.PruneCleanup? && Answers(w, j)
    ensures Step(j, w) == Emitted([], false, false)
  {
  }
}
