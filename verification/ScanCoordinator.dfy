// The catalog-scan coordinator: each `admin.scan` job carries its whole state in its payload, and a step ends by
// submitting the payloads of its successors. This module relates the payloads that steps write to the parser that
// the next step reads them with, and shows where a scan's phases can go.
module ScanCoordinator {
  import opened Catalog
  import opened JobQueue
  import Keyset = KeysetScan
  import opened Widths

  datatype Phase = Start | Enrichment | Seasons | Completion

  datatype Scope = Full | CatalogOnly

  /** A JSON value. A text that reads as a calendar date is represented by its day number. */
  datatype Value =
    | Null
    | Flag(b: bool)
    | Integer(n: int)
    | Float
    | Text(s: string)
    | Day(day: int)
    | Array(items: seq<Value>)
    | Object(fields: map<string, Value>)

  datatype ScanJob = ScanJob(mode: Mode, media: seq<Media>, phase: Phase, cursor: u64, poll: u32,
                             windowStart: Option<int>, windowEnd: Option<int>)

  datatype ParseError = InvalidPayload | InvalidValue

  datatype ParseResult<+T> = Parsed(job: T) | Refused(error: ParseError)

  // ---- payload fields -----------------------------------------------------------------------------

  function MediaName(m: Media): string {
    match m case Movie => "movie" case Tv => "tv"
  }

  function MediaOf(v: Value): Option<Media> {
    if v == Text("movie") then Some(Movie) else if v == Text("tv") then Some(Tv) else None
  }

  function ModeName(m: Mode): string {
    match m
    case FullSweep => "full_sweep" case MissingOnly => "missing_only" case Recovery => "recovery"
    case PruneCleanup => "prune_cleanup" case DailySync => "daily_sync" case Reconcile => "reconcile"
  }

  function ModeOf(v: Value): Option<Mode> {
    if !v.Text? then None
    else if v.s == "full_sweep" then Some(FullSweep) else if v.s == "missing_only" then Some(MissingOnly)
    else if v.s == "recovery" then Some(Recovery) else if v.s == "prune_cleanup" then Some(PruneCleanup)
    else if v.s == "daily_sync" then Some(DailySync) else if v.s == "reconcile" then Some(Reconcile)
    else None
  }

  function PhaseName(p: Phase): string {
    match p
    case Start => "start" case Enrichment => "enrichment" case Seasons => "seasons" case Completion => "completion"
  }

  function PhaseOf(v: Value): Option<Phase> {
    if !v.Text? then None
    else if v.s == "start" then Some(Start) else if v.s == "enrichment" then Some(Enrichment)
    else if v.s == "seasons" then Some(Seasons) else if v.s == "completion" then Some(Completion)
    else None
  }

  function ScopeOf(v: Value): Option<Scope> {
    if v == Text("full") then Some(Full) else if v == Text("catalog_only") then Some(CatalogOnly) else None
  }

  lemma NamesRoundTrip(mode: Mode, phase: Phase, m: Media)
    ensures ModeOf(Text(ModeName(mode))) == Some(mode) && PhaseOf(Text(PhaseName(phase))) == Some(phase)
    ensures MediaOf(Text(MediaName(m))) == Some(m)
  {
  }

  /** A field with a serde default: absent is the default, anything but an integer in range is an error. */
  function NatField(fields: map<string, Value>, key: string, max: nat): (r: Option<nat>)
    ensures r.Some? ==> r.value <= max
  {
    if key !in fields then Some(0)
    else
      match fields[key]
      case Integer(n) => if 0 <= n <= max then Some(n) else None
      case _ => None
  }

  function RequiredNat(fields: map<string, Value>, key: string, max: nat): (r: Option<nat>)
    ensures r.Some? ==> r.value <= max
  {
    if key in fields then NatField(fields, key, max) else None
  }

  /** An optional date: absent and null are both `None`. */
  function DayField(fields: map<string, Value>, key: string): Option<Option<int>> {
    if key !in fields || fields[key].Null? then Some(None)
    else if fields[key].Day? then Some(Some(fields[key].day))
    else None
  }

  function MediaList(items: seq<Value>): Option<seq<Media>> {
    if items == [] then Some([])
    else if MediaOf(items[0]).None? || MediaList(items[1..]).None? then None
    else Some([MediaOf(items[0]).value] + MediaList(items[1..]).value)
  }

  function MediaValues(media: seq<Media>): seq<Value> {
    if media == [] then [] else [Text(MediaName(media[0]))] + MediaValues(media[1..])
  }

  lemma {:induction false} MediaListRoundTrip(media: seq<Media>)
    ensures MediaList(MediaValues(media)) == Some(media)
  {
    if media != [] {
      NamesRoundTrip(FullSweep, Start, media[0]);
      MediaListRoundTrip(media[1..]);
      assert MediaValues(media)[1..] == MediaValues(media[1..]);
      assert media == [media[0]] + media[1..];
    }
  }

  // ---- `parse_job` for scans ----------------------------------------------------------------------

  const SCAN_KEYS: set<string> := {"mode", "mediaTypes", "phase", "cursor", "poll", "windowStart", "windowEnd"}

  /** `AdminScanPayload` as serde reads it, unknown fields denied. */
  function DecodeScan(payload: Value): Option<ScanJob> {
    if !payload.Object? || !(payload.fields.Keys <= SCAN_KEYS) then None
    else
      var f := payload.fields;
      if "mode" !in f || ModeOf(f["mode"]).None? || "mediaTypes" !in f || !f["mediaTypes"].Array? then None
      else
        var media := MediaList(f["mediaTypes"].items);
        var phase := if "phase" in f then PhaseOf(f["phase"]) else Some(Start);
        var cursor, poll := NatField(f, "cursor", U64_MAX), NatField(f, "poll", U32_MAX);
        var from, to := DayField(f, "windowStart"), DayField(f, "windowEnd");
        if media.None? || phase.None? || cursor.None? || poll.None? || from.None? || to.None? then None
        else Some(ScanJob(ModeOf(f["mode"]).value, media.value, phase.value, cursor.value,
                          poll.value, from.value, to.value))
  }

  /** The modes whose scans have enrichment and season phases. */
  predicate Phased(mode: Mode) {
    mode.FullSweep? || mode.Recovery? || mode.Reconcile? || mode.MissingOnly?
  }

  predicate ValidWindow(from: Option<int>, to: Option<int>) {
    from.Some? == to.Some? && (from.Some? ==> from.value <= to.value <= from.value + 13)
  }

  /** The value checks of the `ADMIN_SCAN_JOB` arm. */
  predicate ValidScan(j: ScanJob) {
    && 1 <= |j.media| <= 2 && (|j.media| == 2 ==> j.media[0] != j.media[1])
    && j.cursor <= I64_MAX
    && (j.phase.Enrichment? || j.phase.Seasons? ==> Phased(j.mode) && |j.media| == 1)
    && (j.phase.Completion? ==> Phased(j.mode) || j.mode.DailySync?)
    && (j.phase.Start? ==> j.poll == 0 && (j.mode.MissingOnly? || j.cursor == 0))
    && ValidWindow(j.windowStart, j.windowEnd)
    && (j.windowStart.Some? ==> j.mode.DailySync?)
  }

  function ParseScan(payload: Value): ParseResult<ScanJob> {
    match DecodeScan(payload)
    case None => Refused(InvalidPayload)
    case Some(job) => if ValidScan(job) then Parsed(job) else Refused(InvalidValue)
  }

  function DayValue(d: Option<int>): Value {
    match d case None => Null case Some(n) => Day(n)
  }

  /** `admin_scan_job_with_window` */
  function ScanPayload(j: ScanJob): Value {
    Object(map["mode" := Text(ModeName(j.mode)), "mediaTypes" := Array(MediaValues(j.media)),
               "phase" := Text(PhaseName(j.phase)), "cursor" := Integer(j.cursor), "poll" := Integer(j.poll),
               "windowStart" := DayValue(j.windowStart), "windowEnd" := DayValue(j.windowEnd)])
  }

  /** What a step writes, the parser reads back: exactly when the job passes the value checks. */
  lemma ScanRoundTrip(j: ScanJob)
    ensures ParseScan(ScanPayload(j)) == if ValidScan(j) then Parsed(j) else Refused(InvalidValue)
  {
    MediaListRoundTrip(j.media);
    NamesRoundTrip(j.mode, j.phase, Movie);
    hide MediaList, MediaValues, MediaOf, ModeOf, ModeName, PhaseOf, PhaseName, ValidScan;
    var f := ScanPayload(j).fields;
    assert f.Keys == SCAN_KEYS;
    assert f["cursor"] == Integer(j.cursor) && f["poll"] == Integer(j.poll);
    assert f["windowStart"] == DayValue(j.windowStart) && f["windowEnd"] == DayValue(j.windowEnd);
    assert DecodeScan(ScanPayload(j)) == Some(j);
  }

  // ---- the other payloads a scan submits ----------------------------------------------------------

  datatype ChangesJob = ChangesJob(medium: Media, page: u32, from: Option<int>, to: Option<int>)

  function ParseChanges(payload: Value): ParseResult<ChangesJob> {
    if !payload.Object? || !(payload.fields.Keys <= {"media_type", "page", "start_date", "end_date"}) then
      Refused(InvalidPayload)
    else
      var f := payload.fields;
      var page, from, to := RequiredNat(f, "page", U32_MAX), DayField(f, "start_date"), DayField(f, "end_date");
      if "media_type" !in f || MediaOf(f["media_type"]).None? || page.None? || from.None? || to.None? then
        Refused(InvalidPayload)
      else if page.value == 0 || !ValidWindow(from.value, to.value) then Refused(InvalidValue)
      else Parsed(ChangesJob(MediaOf(f["media_type"]).value, page.value, from.value, to.value))
  }

  function ChangesPayload(j: ChangesJob): Value {
    Object(map["media_type" := Text(MediaName(j.medium)), "page" := Integer(j.page),
               "start_date" := DayValue(j.from), "end_date" := DayValue(j.to)])
  }

  lemma ChangesRoundTrip(j: ChangesJob)
    ensures ParseChanges(ChangesPayload(j))
         == if j.page > 0 && ValidWindow(j.from, j.to) then Parsed(j) else Refused(InvalidValue)
  {
  }

  datatype RefreshJob = RefreshJob(tmdbId: u32, scope: Scope)

  /** The payload of the two title refreshes and of the two title enrichments. */
  function ParseRefresh(payload: Value): ParseResult<RefreshJob> {
    if !payload.Object? || !(payload.fields.Keys <= {"tmdb_id", "scope"}) then Refused(InvalidPayload)
    else
      var f := payload.fields;
      var id := RequiredNat(f, "tmdb_id", U32_MAX);
      var scope := if "scope" in f then ScopeOf(f["scope"]) else Some(Full);
      if id.None? || scope.None? then Refused(InvalidPayload)
      else if id.value == 0 then Refused(InvalidValue)
      else Parsed(RefreshJob(id.value, scope.value))
  }

  datatype SeasonJob = SeasonJob(tvId: u32, number: u32)

  /** `RefreshSeasonPayload` has two fields and denies every other. */
  function ParseSeason(payload: Value): ParseResult<SeasonJob> {
    if !payload.Object? || !(payload.fields.Keys <= {"tv_id", "season_number"}) then Refused(InvalidPayload)
    else
      var f := payload.fields;
      var id, number := RequiredNat(f, "tv_id", U32_MAX), RequiredNat(f, "season_number", U32_MAX);
      if id.None? || number.None? then Refused(InvalidPayload)
      else if id.value == 0 then Refused(InvalidValue)
      else Parsed(SeasonJob(id.value, number.value))
  }

  /** What the missing-title batch and the enrichment batch submit for one row. */
  function RefreshPayload(tmdbId: int, scoped: bool): Value {
    if scoped then Object(map["tmdb_id" := Integer(tmdbId), "scope" := Text("catalog_only")])
    else Object(map["tmdb_id" := Integer(tmdbId)])
  }

  /** What the season batch submits for one row. */
  function SeasonPayload(tvId: int, number: int): Value {
    Object(map["tv_id" := Integer(tvId), "season_number" := Integer(number), "scope" := Text("catalog_only")])
  }

  lemma RefreshAcceptedIff(tmdbId: u32, scoped: bool)
    ensures ParseRefresh(RefreshPayload(tmdbId, scoped))
         == if tmdbId > 0 then Parsed(RefreshJob(tmdbId, if scoped then CatalogOnly else Full))
           else Refused(InvalidValue)
  {
  }

  /** Without its `scope`, what the season batch writes would be read as the season it was written for. */
  lemma SeasonWouldBeReadIff(tvId: int, number: int, job: SeasonJob)
    ensures var Object(fields) := SeasonPayload(tvId, number);
            ParseSeason(Object(fields - {"scope"})) == Parsed(job)
            <==> tvId > 0 && tvId == job.tvId as int && number == job.number as int
  {
  }

  /** The season batch writes a field that the season parser denies, so none of its jobs is ever accepted. */
  lemma SeasonBatchIsRefused(tvId: int, number: int)
    ensures ParseSeason(SeasonPayload(tvId, number)) == Refused(InvalidPayload)
  {
    assert "scope"[0] == 's' && "season_number"[1] == 'e' && "scope"[1] == 'c' && "tv_id"[0] == 't';
    assert "scope" in SeasonPayload(tvId, number).fields.Keys;
  }

  // ---- one step of the coordinator ----------------------------------------------------------------

  /** A submitted job. `Export` is a daily export, without its URL; `enrich` tells enrichments from refreshes. */
  datatype Child =
    | Scan(payload: Value)
    | Changes(payload: Value)
    | Export(medium: Media, refreshAll: bool, offset: nat)
    | Trending(medium: Media, day: bool)
    | Refresh(medium: Media, enrich: bool, payload: Value)
    | SeasonRefresh(payload: Value)
    | Configuration

  /**
   * What the step reads: whether its gate sees active work and unresolved failures, the `daily_sync` state row,
   * today's date, and the outcome of its keyset batch on the table of that moment.
   */
  datatype World = World(active: bool, failures: bool, lastWindowEnd: Option<int>, sweepRequired: bool, today: int,
                         table: Keyset.Table, batch: Keyset.BatchResult)

  /** A step succeeds or its job dead-letters, with its children submitted. A retry leaves the job as it was. */
  datatype Outcome = Emitted(children: seq<Child>, waiting: bool, advances: bool) | DeadLettered(children: seq<Child>)

  /** The batch that a phase runs. */
  function QueryOf(j: ScanJob): Keyset.Query
    requires j.phase.Start? || j.media != []
  {
    if j.phase.Start? then Keyset.MissingTitles(j.media)
    else if j.phase.Enrichment? then Keyset.TitlesToEnrich(j.mode, j.media[0])
    else Keyset.SeasonsToRefresh(j.mode)
  }

  /** The batch result is one that `EnqueueBatch` can return for this job. */
  ghost predicate Answers(w: World, j: ScanJob) {
    w.batch.Ok? && j.media != [] ==>
      && Keyset.IsBatch(w.batch.batch, w.table, QueryOf(j), j.cursor)
      && j.cursor <= w.batch.batch.nextCursor <= I64_MAX
  }

  function Next(j: ScanJob, media: seq<Media>, phase: Phase, cursor: u64): ScanJob {
    ScanJob(j.mode, media, phase, cursor, 0, None, None)
  }

  /** `catalog_sync_window` */
  function SyncWindow(j: ScanJob, w: World): Option<(int, int)> {
    var end := if j.windowEnd.Some? then j.windowEnd.value else w.today;
    var start := if j.windowStart.Some? then j.windowStart else w.lastWindowEnd;
    if w.sweepRequired || start.None? || start.value > end || end - start.value > 13 then None
    else Some((start.value, end))
  }

  function SweepChildren(media: seq<Media>): seq<Child> {
    if media == [] then []
    else [Trending(media[0], true), Trending(media[0], false), Export(media[0], true, 0)] + SweepChildren(media[1..])
  }

  function ChangesChildren(media: seq<Media>, from: int, to: int): seq<Child> {
    if media == [] then []
    else
      [Changes(ChangesPayload(ChangesJob(media[0], 1, Some(from), Some(to))))] + ChangesChildren(media[1..], from, to)
  }

  function EnrichmentChildren(j: ScanJob, media: seq<Media>, withExport: bool): seq<Child> {
    if media == [] then []
    else
      (if withExport then [Export(media[0], false, 0)] else [])
      + [Scan(ScanPayload(Next(j, [media[0]], Enrichment, 0)))] + EnrichmentChildren(j, media[1..], withExport)
  }

  function TitleChildren(t: Keyset.Table, rows: seq<int>, scoped: bool): seq<Child>
    requires forall i :: 0 <= i < |rows| ==> rows[i] in t.titles
  {
    if rows == [] then []
    else
      var title := t.titles[rows[0]];
      [Refresh(title.media, scoped, RefreshPayload(title.tmdbId, scoped))] + TitleChildren(t, rows[1..], scoped)
  }

  function SeasonChildren(t: Keyset.Table, rows: seq<int>): seq<Child>
    requires forall i :: 0 <= i < |rows| ==> rows[i] in t.seasons && t.seasons[rows[i]].title in t.titles
  {
    if rows == [] then []
    else
      var season := t.seasons[rows[0]];
      [SeasonRefresh(SeasonPayload(t.titles[season.title].tmdbId, season.number))] + SeasonChildren(t, rows[1..])
  }

  /** The `Start` phase, by mode. */
  ghost function StartStep(j: ScanJob, w: World): Outcome
    requires ValidScan(j) && j.phase.Start? && Answers(w, j)
  {
    var configuration := if !j.mode.PruneCleanup? && j.cursor == 0 then [Configuration] else [];
    match j.mode
    case FullSweep => Emitted(configuration + SweepChildren(j.media), false, false)
    case DailySync =>
      var window := SyncWindow(j, w);
      if window.None? then Emitted(configuration, false, false)
      else
        var (from, to) := window.value;
        var completion := ScanJob(j.mode, j.media, Completion, 0, 0, Some(from), Some(to));
        Emitted(configuration + ChangesChildren(j.media, from, to) + [Scan(ScanPayload(completion))], false, false)
    case PruneCleanup => Emitted([], false, false)
    case MissingOnly =>
      if w.batch.InvalidPayload? then DeadLettered(configuration)
      else
        var batch := w.batch.batch;
        var next := if batch.done then EnrichmentChildren(j, j.media, false)
                    else [Scan(ScanPayload(Next(j, j.media, Start, batch.nextCursor)))];
        Emitted(configuration + TitleChildren(w.table, batch.rows, false) + next, false, false)
    case Recovery => Emitted(configuration + EnrichmentChildren(j, j.media, true), false, false)
    case Reconcile => Emitted(configuration + EnrichmentChildren(j, j.media, true), false, false)
  }

  /** `execute_catalog_scan_phase` */
  ghost function PhaseStep(j: ScanJob, w: World): Outcome
    requires ValidScan(j) && !j.phase.Start? && Answers(w, j)
  {
    if w.active then
      if j.poll == U32_MAX then DeadLettered([])
      else Emitted([Scan(ScanPayload(j.(poll := j.poll + 1)))], true, false)
    else if j.phase.Completion? then Emitted([], false, !w.failures && !j.mode.Recovery?)
    else if j.phase.Seasons? && !j.media[0].Tv? then DeadLettered([])
    else if w.batch.InvalidPayload? then DeadLettered([])
    else
      var batch := w.batch.batch;
      var work := if j.phase.Enrichment? then TitleChildren(w.table, batch.rows, true)
        else SeasonChildren(w.table, batch.rows);
      var next := if !batch.done then j.(cursor := batch.nextCursor, poll := 0)
                  else if j.phase.Enrichment? && j.media[0].Tv? then Next(j, j.media, Seasons, 0)
                  else j.(phase := Completion, cursor := 0, poll := 0);
      Emitted(work + [Scan(ScanPayload(next))], false, false)
  }

  ghost function Step(j: ScanJob, w: World): Outcome
    requires ValidScan(j) && Answers(w, j)
  {
    if j.phase.Start? then StartStep(j, w) else PhaseStep(j, w)
  }

  predicate Waits(r: Outcome) {
    r.Emitted? && r.waiting
  }

  // ---- what a step may emit -----------------------------------------------------------------------

  function PhaseRank(p: Phase): nat {
    match p case Start => 0 case Enrichment => 1 case Seasons => 2 case Completion => 3
  }

  /** The phases left and the keys above the cursor, as one number. */
  function Measure(j: ScanJob): nat
    requires j.cursor <= I64_MAX
  {
    (3 - PhaseRank(j.phase)) * (I64_MAX + 1) + (I64_MAX - j.cursor)
  }

  /** Valid, and its phase has a batch to run: a season phase is about television. */
  predicate Runnable(j: ScanJob) {
    ValidScan(j) && (j.phase.Seasons? ==> j.media == [Tv])
  }

  /** The relation of a scan payload to the job that emitted it. */
  ghost predicate Succeeds(next: ScanJob, j: ScanJob, waiting: bool) {
    && ValidScan(j) && ValidScan(next)
    && next.mode == j.mode && (forall m :: m in next.media ==> m in j.media)
    && PhaseRank(next.phase) >= PhaseRank(j.phase)
    && (Runnable(j) ==> Runnable(next))
    && (if waiting then j.poll < U32_MAX && next == j.(poll := j.poll + 1)
        else Runnable(next) && next.poll == 0 && Measure(next) < Measure(j))
  }

  /** What holds of every child of a step. */
  ghost predicate GoodChild(c: Child, j: ScanJob, waiting: bool) {
    match c
    case Scan(payload) =>
      exists next :: payload == ScanPayload(next) && ParseScan(payload) == Parsed(next) && Succeeds(next, j, waiting)
    case Changes(payload) => ParseChanges(payload).Parsed?
    case Refresh(m, enrich, payload) => m in j.media && exists id: u32 :: payload == RefreshPayload(id, enrich)
    case SeasonRefresh(payload) => ParseSeason(payload) == Refused(InvalidPayload)
    case Export(m, refreshAll, _) => m in j.media && (refreshAll ==> j.mode.FullSweep?)
    case Trending(m, _) => m in j.media
    case Configuration => true
  }

  lemma SuccessorIsGood(next: ScanJob, j: ScanJob, waiting: bool)
    requires Succeeds(next, j, waiting)
    ensures GoodChild(Scan(ScanPayload(next)), j, waiting)
  {
    ScanRoundTrip(next);
  }

  lemma {:induction false} EnrichmentChildrenGood(j: ScanJob, media: seq<Media>, withExport: bool)
    requires ValidScan(j) && j.phase.Start? && Phased(j.mode) && forall m :: m in media ==> m in j.media
    ensures forall c :: c in EnrichmentChildren(j, media, withExport) ==> GoodChild(c, j, false)
  {
    if media != [] {
      assert media[0] in media;
      var next := Next(j, [media[0]], Enrichment, 0);
      assert Measure(next) < Measure(j);
      SuccessorIsGood(next, j, false);
      EnrichmentChildrenGood(j, media[1..], withExport);
    }
  }

  lemma {:induction false} SweepChildrenGood(j: ScanJob, media: seq<Media>)
    requires j.mode.FullSweep? && forall m :: m in media ==> m in j.media
    ensures forall c :: c in SweepChildren(media) ==> GoodChild(c, j, false)
  {
    if media != [] {
      assert media[0] in media;
      SweepChildrenGood(j, media[1..]);
    }
  }

  lemma {:induction false} ChangesChildrenGood(j: ScanJob, media: seq<Media>, from: int, to: int)
    requires ValidWindow(Some(from), Some(to))
    ensures forall c :: c in ChangesChildren(media, from, to) ==> GoodChild(c, j, false)
  {
    if media != [] {
      ChangesRoundTrip(ChangesJob(media[0], 1, Some(from), Some(to)));
      ChangesChildrenGood(j, media[1..], from, to);
    }
  }

  lemma {:induction false} TitleChildrenGood(j: ScanJob, t: Keyset.Table, rows: seq<int>, scoped: bool)
    requires forall i :: 0 <= i < |rows| ==> rows[i] in t.titles && Keyset.FitsU32(t.titles[rows[i]].tmdbId)
    requires forall i :: 0 <= i < |rows| ==> t.titles[rows[i]].media in j.media
    ensures forall c :: c in TitleChildren(t, rows, scoped) ==> GoodChild(c, j, false)
  {
    if rows != [] {
      var id: u32 := t.titles[rows[0]].tmdbId;
      assert GoodChild(Refresh(t.titles[rows[0]].media, scoped, RefreshPayload(id, scoped)), j, false);
      TitleChildrenGood(j, t, rows[1..], scoped);
    }
  }

  lemma {:induction false} SeasonChildrenGood(j: ScanJob, t: Keyset.Table, rows: seq<int>)
    requires forall i :: 0 <= i < |rows| ==> rows[i] in t.seasons && t.seasons[rows[i]].title in t.titles
    ensures forall c :: c in SeasonChildren(t, rows) ==> GoodChild(c, j, false)
  {
    if rows != [] {
      var season := t.seasons[rows[0]];
      SeasonBatchIsRefused(t.titles[season.title].tmdbId, season.number);
      SeasonChildrenGood(j, t, rows[1..]);
    }
  }

  /** A batch that is not the last moves the cursor. */
  lemma CursorMoves(b: Keyset.Batch, t: Keyset.Table, q: Keyset.Query, cursor: u64)
    requires Keyset.IsBatch(b, t, q, cursor) && !b.done
    ensures b.nextCursor > cursor
  {
  }

  lemma ConfigurationIsGood(j: ScanJob)
    ensures GoodChild(Configuration, j, false)
  {
  }

  lemma MissingStepGood(j: ScanJob, w: World)
    requires ValidScan(j) && j.phase.Start? && j.mode.MissingOnly? && Answers(w, j) && w.batch.Ok?
    ensures forall c :: c in StartStep(j, w).children ==> GoodChild(c, j, false)
  {
    hide GoodChild, ScanPayload, TitleChildren, EnrichmentChildren;
    var batch := w.batch.batch;
    ConfigurationIsGood(j);
    TitleChildrenGood(j, w.table, batch.rows, false);
    if batch.done {
      EnrichmentChildrenGood(j, j.media, false);
    } else {
      CursorMoves(batch, w.table, QueryOf(j), j.cursor);
      SuccessorIsGood(Next(j, j.media, Start, batch.nextCursor), j, false);
    }
  }

  lemma SyncStepGood(j: ScanJob, w: World)
    requires ValidScan(j) && j.phase.Start? && j.mode.DailySync?
    ensures Answers(w, j) ==> forall c :: c in StartStep(j, w).children ==> GoodChild(c, j, false)
  {
    var window := SyncWindow(j, w);
    if window.Some? {
      var (from, to) := window.value;
      var completion := ScanJob(j.mode, j.media, Completion, 0, 0, Some(from), Some(to));
      ChangesChildrenGood(j, j.media, from, to);
      assert Measure(completion) < Measure(j);
      SuccessorIsGood(completion, j, false);
    }
  }

  lemma StartStepGood(j: ScanJob, w: World)
    requires ValidScan(j) && j.phase.Start? && Answers(w, j)
    ensures !Waits(StartStep(j, w)) && forall c :: c in StartStep(j, w).children ==> GoodChild(c, j, false)
  {
    ConfigurationIsGood(j);
    match j.mode
    case FullSweep => SweepChildrenGood(j, j.media);
    case DailySync => SyncStepGood(j, w);
    case PruneCleanup =>
    case MissingOnly => if w.batch.Ok? { MissingStepGood(j, w); }
    case Recovery => EnrichmentChildrenGood(j, j.media, true);
    case Reconcile => EnrichmentChildrenGood(j, j.media, true);
  }

  lemma PhaseStepGood(j: ScanJob, w: World)
    requires ValidScan(j) && !j.phase.Start? && Answers(w, j)
    ensures var r := PhaseStep(j, w); forall c :: c in r.children ==> GoodChild(c, j, Waits(r))
  {
    hide GoodChild, ScanPayload, TitleChildren, SeasonChildren;
    if w.active {
      if j.poll < U32_MAX { SuccessorIsGood(j.(poll := j.poll + 1), j, true); }
    } else if !j.phase.Completion? && (j.phase.Seasons? ==> j.media[0].Tv?) && w.batch.Ok? {
      var batch := w.batch.batch;
      if j.phase.Enrichment? {
        TitleChildrenGood(j, w.table, batch.rows, true);
      } else {
        SeasonChildrenGood(j, w.table, batch.rows);
      }
      if !batch.done {
        CursorMoves(batch, w.table, QueryOf(j), j.cursor);
        assert j.phase.Seasons? ==> j.media == [j.media[0]];
        SuccessorIsGood(j.(cursor := batch.nextCursor, poll := 0), j, false);
      } else if j.phase.Enrichment? && j.media[0].Tv? {
        SuccessorIsGood(Next(j, j.media, Seasons, 0), j, false);
      } else {
        SuccessorIsGood(j.(phase := Completion, cursor := 0, poll := 0), j, false);
      }
    }
  }

  /**
   * Closure: from a job that the parser accepts, whatever the step reads, every scan payload it writes is accepted and
   * parses back to a job of the same mode that is never behind it; a step that does not wait strictly decreases the
   * measure; every other child is well formed, except that season children are always refused.
   */
  lemma StepIsClosed(j: ScanJob, w: World)
    requires ValidScan(j) && Answers(w, j)
    ensures var r := Step(j, w); forall c :: c in r.children ==> GoodChild(c, j, Waits(r))
  {
    if j.phase.Start? {
      StartStepGood(j, w);
    } else {
      PhaseStepGood(j, w);
    }
  }

  // ---- nothing is dropped -------------------------------------------------------------------------

  lemma {:induction false} EnrichmentForEach(j: ScanJob, media: seq<Media>, withExport: bool, m: Media)
    requires m in media
    ensures Scan(ScanPayload(Next(j, [m], Enrichment, 0))) in EnrichmentChildren(j, media, withExport)
    ensures withExport ==> Export(m, false, 0) in EnrichmentChildren(j, media, withExport)
  {
    if m != media[0] { EnrichmentForEach(j, media[1..], withExport, m); }
  }

  lemma {:induction false} ExportForEach(media: seq<Media>, m: Media)
    requires m in media
    ensures Export(m, true, 0) in SweepChildren(media)
  {
    if m != media[0] { ExportForEach(media[1..], m); }
  }

  lemma {:induction false} FirstPageForEach(media: seq<Media>, from: int, to: int, m: Media)
    requires m in media
    ensures Changes(ChangesPayload(ChangesJob(m, 1, Some(from), Some(to)))) in ChangesChildren(media, from, to)
  {
    if m != media[0] { FirstPageForEach(media[1..], from, to, m); }
  }

  /** The work that a start step owes to one medium. */
  ghost predicate Started(children: seq<Child>, j: ScanJob, w: World, m: Media) {
    match j.mode
    case FullSweep => Export(m, true, 0) in children
    case DailySync =>
      var from := if j.windowStart.Some? then j.windowStart else w.lastWindowEnd;
      var to := if j.windowEnd.Some? then j.windowEnd.value else w.today;
      !w.sweepRequired && from.Some? && from.value <= to <= from.value + 13 ==>
        && Changes(ChangesPayload(ChangesJob(m, 1, from, Some(to)))) in children
        && children[|children| - 1] == Scan(ScanPayload(ScanJob(DailySync, j.media, Completion, 0, 0, from, Some(to))))
    case PruneCleanup => true
    case MissingOnly =>
      if w.batch.Ok? && !w.batch.batch.done then
        Scan(ScanPayload(Next(j, j.media, Start, w.batch.batch.nextCursor))) in children
      else
        Scan(ScanPayload(Next(j, [m], Enrichment, 0))) in children
    case _ => Export(m, false, 0) in children && Scan(ScanPayload(Next(j, [m], Enrichment, 0))) in children
  }

  /** A start step that succeeds starts the work of every medium, and a daily scan queues its completion last. */
  lemma StartCoversEveryMedium(j: ScanJob, w: World, m: Media)
    requires ValidScan(j) && j.phase.Start? && Answers(w, j) && m in j.media && StartStep(j, w).Emitted?
    ensures Started(StartStep(j, w).children, j, w, m)
  {
    hide ScanPayload, ChangesPayload;
    match j.mode
    case FullSweep => ExportForEach(j.media, m);
    case DailySync =>
      var window := SyncWindow(j, w);
      if window.Some? { FirstPageForEach(j.media, window.value.0, window.value.1, m); }
    case PruneCleanup =>
    case MissingOnly => EnrichmentForEach(j, j.media, false, m);
    case Recovery => EnrichmentForEach(j, j.media, true, m);
    case Reconcile => EnrichmentForEach(j, j.media, true, m);
  }

  lemma {:induction false} TitleForEach(t: Keyset.Table, rows: seq<int>, scoped: bool, i: nat)
    requires (forall i :: 0 <= i < |rows| ==> rows[i] in t.titles) && i < |rows|
    ensures |TitleChildren(t, rows, scoped)| == |rows|
    ensures var title := t.titles[rows[i]];
            TitleChildren(t, rows, scoped)[i] == Refresh(title.media, scoped, RefreshPayload(title.tmdbId, scoped))
  {
    if i > 0 { TitleForEach(t, rows[1..], scoped, i - 1); } else { TitleCount(t, rows, scoped); }
  }

  lemma {:induction false} TitleCount(t: Keyset.Table, rows: seq<int>, scoped: bool)
    requires forall i :: 0 <= i < |rows| ==> rows[i] in t.titles
    ensures |TitleChildren(t, rows, scoped)| == |rows|
  {
    if rows != [] { TitleCount(t, rows[1..], scoped); }
  }

  /** An enrichment step that does not wait submits the rows of its batch, in order, and then one scan. */
  lemma EnrichmentSubmitsItsBatch(j: ScanJob, w: World, i: nat)
    requires ValidScan(j) && j.phase.Enrichment? && Answers(w, j) && !w.active && w.batch.Ok?
    requires i < |w.batch.batch.rows|
    ensures var r, rows := PhaseStep(j, w), w.batch.batch.rows;
            && r.Emitted? && |r.children| == |rows| + 1 && r.children[|rows|].Scan?
            && r.children[i] == Refresh(j.media[0], true, RefreshPayload(w.table.titles[rows[i]].tmdbId, true))
  {
    hide ScanPayload, RefreshPayload;
    TitleForEach(w.table, w.batch.batch.rows, true, i);
  }

  // ---- a chain of successors ----------------------------------------------------------------------

  /** Each job was emitted by a step of the one before it; `waits[i]` tells whether step `i` waited. */
  ghost predicate Chain(jobs: seq<ScanJob>, waits: seq<bool>) {
    && |jobs| == |waits| + 1
    && forall i :: 0 <= i < |waits| ==> Succeeds(jobs[i + 1], jobs[i], waits[i])
  }

  function Moves(waits: seq<bool>): nat {
    if waits == [] then 0 else (if waits[0] then 0 else 1) + Moves(waits[1..])
  }

  /** Every chain makes at most `Measure` steps that are not waits, and its phase never goes back. */
  lemma {:induction false} ChainsEnd(jobs: seq<ScanJob>, waits: seq<bool>)
    requires Chain(jobs, waits) && ValidScan(jobs[0])
    ensures ValidScan(jobs[|waits|]) && Moves(waits) + Measure(jobs[|waits|]) <= Measure(jobs[0])
    ensures PhaseRank(jobs[0].phase) <= PhaseRank(jobs[|waits|].phase) && jobs[|waits|].mode == jobs[0].mode
    decreases |waits|
  {
    if waits != [] {
      assert Succeeds(jobs[1], jobs[0], waits[0]);
      forall i | 0 <= i < |waits[1..]| ensures Succeeds(jobs[1..][i + 1], jobs[1..][i], waits[1..][i]) {
        assert Succeeds(jobs[i + 1 + 1], jobs[i + 1], waits[i + 1]);
      }
      ChainsEnd(jobs[1..], waits[1..]);
    }
  }
}
