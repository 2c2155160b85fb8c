// What the phases of a scan wait for, and what a full export hands on, in the runs of the coordinator.
module PhaseGates {
  import opened Catalog
  import opened CatalogBatches
  import opened CoordinatorWork
  import opened JobQueue
  import Keyset = KeysetScan
  import opened ScanCoordinator
  import opened ScanRuns
  import opened Widths

  /** A job that enriches a title or refreshes one for the catalog only, as the enrichment batch submits it. */
  ghost predicate IsEnrichmentJob(c: Child) {
    c.Refresh? && exists id :: c.payload == RefreshPayload(id, true)
  }

  /** A phase waits for exports and for the jobs of its own batches; refreshes of the missing are not waited for. */
  lemma PhaseWaitsForItsWork(phase: Phase, t: Keyset.Table, title: int, season: int, m: Media, all: bool, offset: nat)
    requires title in t.titles && season in t.seasons && t.seasons[season].title in t.titles
    ensures BlocksPhase(Export(m, all, offset), phase)
    ensures BlocksPhase(TitleJob(t, title, true), phase) && !BlocksPhase(TitleJob(t, title, false), phase)
    ensures BlocksPhase(SeasonJobOf(t, season), phase) <==> phase == Seasons
  {
    ScopeIsAField(t.titles[title].tmdbId);
  }

  lemma ScopeIsAField(id: int)
    ensures RefreshPayload(id, true).fields["scope"] == Text("catalog_only")
    ensures "scope" !in RefreshPayload(id, false).fields
  {
    assert "scope"[0] == 's' && "tmdb_id"[0] == 't';
  }

  /** Scans, change pages, trends and the configuration are not waited for by any phase. */
  lemma OtherWorkDoesNotBlock(c: Child, phase: Phase)
    requires c.Scan? || c.Changes? || c.Trending? || c.Configuration?
    ensures !BlocksPhase(c, phase)
  {
  }

  /**
   * Batches do not overlap: in every state, when an enrichment or season scan begins and does not wait, no export and
   * no enrichment job is live, and for seasons no season job of a batch either.
   */
  lemma BatchesDoNotOverlap(q: Queue, i: nat, j: ScanJob, w: World, k: nat)
    requires Enabled(q, Begin(i, ScanRead(j, w))) && (j.phase.Enrichment? || j.phase.Seasons?)
    requires Step(j, w).Emitted? && !Waits(Step(j, w))
    requires k < |q.rows| && q.rows[k].status.Live?
    ensures !q.rows[k].child.Export? && !IsEnrichmentJob(q.rows[k].child)
    ensures j.phase.Seasons? && q.rows[k].child.SeasonRefresh? ==>
              forall id, number :: q.rows[k].child.payload != SeasonPayload(id, number)
  {
    if w.active { BusyPhaseWaits(j, w); }
    assert !BlocksPhase(q.rows[k].child, j.phase);
    hide Step, Answers, ParseScan;
    if IsEnrichmentJob(q.rows[k].child) {
      var id :| q.rows[k].child.payload == RefreshPayload(id, true);
      ScopeIsAField(id);
    }
  }

  /** When a completion begins and does not wait, every live job is a scan. */
  lemma CompletionsSeeScansOnly(q: Queue, i: nat, j: ScanJob, w: World, k: nat)
    requires Enabled(q, Begin(i, ScanRead(j, w))) && j.phase.Completion?
    requires Step(j, w).Emitted? && !Waits(Step(j, w))
    requires k < |q.rows| && q.rows[k].status.Live?
    ensures q.rows[k].child.Scan?
  {
    if w.active { BusyPhaseWaits(j, w); }
    hide Step, Answers, ParseScan;
  }

  /** A full export goes on from its next offset, and at its end begins the enrichment of its medium from the start. */
  lemma ExportsHandOn(q: Queue, a: Action)
    requires Enabled(q, a) && a.Begin? && a.read.ExportRead?
    ensures var c, t := q.rows[a.row].child, Apply(q, a);
            var x := t.execs[|t.execs| - 1];
            && x.row == a.row && x.next == 0 && x.ending.Plain? && x.children != []
            && var last := x.children[|x.children| - 1];
               if a.read.last then
                 && last.Scan?
                 && ParseScan(last.payload) == Parsed(ScanJob(FullSweep, [c.medium], Enrichment, 0, 0, None, None))
               else last == Export(c.medium, true, a.read.nextOffset) && a.read.nextOffset > c.offset
  {
    var c := q.rows[a.row].child;
    ScanRoundTrip(ScanJob(FullSweep, [c.medium], Enrichment, 0, 0, None, None));
    BeginShape(q, a);
    hide Apply, ParseScan, ScanPayload;
  }
}
