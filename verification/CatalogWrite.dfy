// The catalog write transactions: what a write validates and locks before it begins, and the rows it then
// touches, in the order it touches them. Rows owned by one title (its details and link rows) are written only
// under the title's advisory name and are not listed.
module CatalogWrite {
  import opened JobQueue
  import opened LockOrder
  import opened Sorting
  import opened Text
  import opened Widths

  /** `Invalid` is `dead_letter("invalid_payload")`; `began` tells whether a transaction had begun. */
  datatype Outcome<+T> = Ok(value: T) | Invalid(began: bool) | EntityNotReady

  /** `fieldsOk`: the release date parses and the vote count fits in 64 signed bits. */
  datatype Movie = Movie(id: u64, fieldsOk: bool, genres: seq<u64>, keywords: seq<u64>, cast: seq<u64>, crew: seq<u64>,
                         companies: seq<u64>, language: Option<string>, collection: Option<u64>)

  /** `airDateOk` stands for the success of `parse_source_date`. */
  datatype SeasonSummary = SeasonSummary(id: u64, number: u32, airDateOk: bool)

  /** `fieldsOk`: the first air date parses, and the vote and episode counts fit their columns. */
  datatype Tv = Tv(id: u64, fieldsOk: bool, genres: seq<u64>, keywords: seq<u64>, cast: seq<u64>, crew: seq<u64>,
                   seasons: seq<SeasonSummary>, companies: seq<u64>, networks: seq<u64>, language: Option<string>)

  /** `fieldsOk`: the air date parses and the vote count fits its column. */
  datatype Episode = Episode(id: u64, fieldsOk: bool, credits: seq<u64>)

  /** `fieldsOk`: the air date parses and the season number fits its column. */
  datatype Season = Season(tvId: u32, id: u64, fieldsOk: bool, episodes: seq<Episode>)

  // ---- validation ---------------------------------------------------------------------------------

  predicate ValidId(raw: u64) {
    0 < raw <= I64_MAX
  }

  predicate ValidIds(ids: seq<u64>) {
    forall i :: 0 <= i < |ids| ==> ValidId(ids[i])
  }

  /** `normalize_language`, on a trimmed value */
  function NormalizeLanguage(value: string): Option<string> {
    var v := LowerAscii(Trim(value));
    if 2 <= Utf8Len(v) <= 3 && (forall i :: 0 <= i < |v| ==> IsAsciiLetter(v[i])) then Some(v) else None
  }

  /** The language row a title names: none when the field is absent or blank. */
  function LanguageText(language: Option<string>): Option<string> {
    if language.Some? && Trim(language.value) != [] then Some(Trim(language.value)) else None
  }

  predicate ValidLanguage(language: Option<string>) {
    LanguageText(language).Some? ==> NormalizeLanguage(LanguageText(language).value).Some?
  }

  predicate MovieValid(m: Movie) {
    && ValidIds(m.genres) && ValidIds(m.keywords) && ValidIds(m.cast) && ValidIds(m.crew) && ValidIds(m.companies)
    && ValidLanguage(m.language) && (m.collection.Some? ==> ValidId(m.collection.value))
  }

  predicate TvValid(t: Tv) {
    && ValidIds(t.genres) && ValidIds(t.keywords) && ValidIds(t.cast) && ValidIds(t.crew)
    && (forall i :: 0 <= i < |t.seasons| ==> ValidId(t.seasons[i].id))
    && ValidIds(t.companies) && ValidIds(t.networks) && ValidLanguage(t.language)
  }

  function TitleName(mediaType: string, id: nat): string {
    "catalog:title:" + mediaType + ":" + Decimal(id)
  }

  function SeasonName(id: nat): string {
    "catalog:season:" + Decimal(id)
  }

  function EpisodeName(id: nat): string {
    "catalog:episode:" + Decimal(id)
  }

  // ---- the ordered set of names -------------------------------------------------------------------

  /** The iteration order of a `BTreeSet<String>`. */
  predicate Ascending(names: seq<string>) {
    forall i, j :: 0 <= i < j < |names| ==> StringLeq(names[i], names[j]) && names[i] != names[j]
  }

  function InsertName(names: seq<string>, name: string): (r: seq<string>)
    ensures forall n :: n in r <==> n in names || n == name
  {
    if names == [] then [name]
    else if names[0] == name then names
    else if StringLeq(name, names[0]) then [name] + names
    else [names[0]] + InsertName(names[1..], name)
  }

  lemma {:induction false} InsertKeepsAscending(names: seq<string>, name: string)
    requires Ascending(names)
    ensures Ascending(InsertName(names, name))
  {
    if names != [] && names[0] != name {
      var r := InsertName(names, name);
      if StringLeq(name, names[0]) {
        forall j | 0 < j < |r| ensures StringLeq(r[0], r[j]) && r[0] != r[j] {
          if j > 1 { StringLeqTransitive(name, names[0], names[j - 1]); }
          StringLeqTotal(name, names[0]);
          if name == names[j - 1] { StringLeqTotal(names[0], names[j - 1]); }
        }
      } else {
        InsertKeepsAscending(names[1..], name);
        StringLeqTotal(name, names[0]);
        forall j | 0 < j < |r| ensures StringLeq(r[0], r[j]) && r[0] != r[j] {
          assert r[j] == InsertName(names[1..], name)[j - 1];
          assert r[j] in InsertName(names[1..], name);
        }
      }
    }
  }

  method ValidateSourceIds(ids: seq<u64>) returns (ok: bool)
    ensures ok <==> ValidIds(ids)
  {
    for i := 0 to |ids|
      invariant forall k :: 0 <= k < i ==> ValidId(ids[k])
    {
      if !ValidId(ids[i]) { return false; }
    }
    return true;
  }

  method MovieWriteResources(m: Movie, tmdbId: nat) returns (r: Outcome<seq<string>>)
    ensures r == if MovieValid(m) then Ok([TitleName("movie", tmdbId)]) else Invalid(false)
  {
    var genres := ValidateSourceIds(m.genres);
    var keywords := ValidateSourceIds(m.keywords);
    var cast := ValidateSourceIds(m.cast);
    var crew := ValidateSourceIds(m.crew);
    var companies := ValidateSourceIds(m.companies);
    if genres && keywords && cast && crew && companies && ValidLanguage(m.language)
       && (m.collection.None? || ValidId(m.collection.value)) {
      return Ok([TitleName("movie", tmdbId)]);
    }
    return Invalid(false);
  }

  method TvWriteResources(t: Tv, tmdbId: nat) returns (r: Outcome<seq<string>>)
    ensures if TvValid(t) then r.Ok? && Ascending(r.value) else r == Invalid(false)
    ensures r.Ok? ==> forall n :: n in r.value <==>
              n == TitleName("tv", tmdbId) || exists i :: 0 <= i < |t.seasons| && n == SeasonName(t.seasons[i].id)
  {
    var genres := ValidateSourceIds(t.genres);
    var keywords := ValidateSourceIds(t.keywords);
    var cast := ValidateSourceIds(t.cast);
    var crew := ValidateSourceIds(t.crew);
    var companies := ValidateSourceIds(t.companies);
    var networks := ValidateSourceIds(t.networks);
    var names := [TitleName("tv", tmdbId)];
    for i := 0 to |t.seasons|
      invariant forall k :: 0 <= k < i ==> ValidId(t.seasons[k].id)
      invariant Ascending(names)
      invariant forall n :: n in names <==>
                  n == TitleName("tv", tmdbId) || exists k :: 0 <= k < i && n == SeasonName(t.seasons[k].id)
    {
      if !ValidId(t.seasons[i].id) { return Invalid(false); }
      InsertKeepsAscending(names, SeasonName(t.seasons[i].id));
      names := InsertName(names, SeasonName(t.seasons[i].id));
    }
    if genres && keywords && cast && crew && companies && networks && ValidLanguage(t.language) {
      return Ok(names);
    }
    return Invalid(false);
  }

  // ---- the writes ---------------------------------------------------------------------------------

  /** Every name and shared row so far ranks below `rank`. */
  predicate Below(plan: seq<Lock>, rank: nat) {
    forall k :: 0 <= k < |plan| && !Owned(plan[k]) ==> Rank(plan[k]) < rank
  }

  predicate SharedTable(t: Table) {
    !t.Titles? && !t.Seasons? && !t.Episodes?
  }

  lemma AppendKeepsDiscipline(plan: seq<Lock>, l: Lock)
    requires Disciplined(plan)
    requires if Owned(l) then Advisory(l.key.s) in plan
             else forall k :: 0 <= k < |plan| && !Owned(plan[k]) ==> Leq(plan[k], l)
    ensures Disciplined(plan + [l])
  {
    var longer := plan + [l];
    forall j | 0 <= j < |longer| && Owned(longer[j]) ensures Advisory(longer[j].key.s) in longer[..j] {
      assert longer[..j] == plan[..j];
      if j == |plan| { assert plan[..j] == plan; }
    }
  }

  method PlanNames(names: seq<string>) returns (plan: seq<Lock>)
    requires Ascending(names)
    ensures Disciplined(plan) && Below(plan, 1)
    ensures forall l :: l in plan <==> l.Advisory? && l.name in names
  {
    plan := [];
    for i := 0 to |names|
      invariant |plan| == i && forall k :: 0 <= k < i ==> plan[k] == Advisory(names[k])
    {
      plan := plan + [Advisory(names[i])];
    }
    assert forall n :: n in names ==> exists k :: 0 <= k < |names| && plan[k] == Advisory(n);
  }

  predicate TouchesIds(table: Table, ids: seq<u64>, l: Lock) {
    exists i :: 0 <= i < |ids| && l == Row(table, Num(ids[i]))
  }

  /** The loop of `replace_genres`, `replace_keywords`, `replace_companies`, `replace_networks` and the credits. */
  method TouchSorted(plan: seq<Lock>, table: Table, ids: seq<u64>) returns (ok: bool, r: seq<Lock>)
    requires Disciplined(plan) && SharedTable(table) && Below(plan, Rank(Row(table, Num(0))))
    ensures ok <==> ValidIds(ids)
    ensures ok ==> Disciplined(r) && Below(r, Rank(Row(table, Num(0))) + 1)
    ensures ok ==> forall l :: l in r <==> l in plan || TouchesIds(table, ids, l)
  {
    var sorted := Sort(ids);
    var rank := Rank(Row(table, Num(0)));
    r := plan;
    for i := 0 to |sorted|
      invariant forall k :: 0 <= k < i ==> 0 < sorted[k] <= I64_MAX
      invariant Disciplined(r) && Below(r, rank + 1)
      invariant forall k :: 0 <= k < |r| && !Owned(r[k]) && Rank(r[k]) == rank ==>
                  exists m :: 0 <= m < i && r[k] == Row(table, Num(sorted[m]))
      invariant forall l :: l in r <==> l in plan || exists k :: 0 <= k < i && l == Row(table, Num(sorted[k]))
    {
      if !(0 < sorted[i] <= I64_MAX) {
        assert sorted[i] in sorted && sorted[i] in ids;
        return false, r;
      }
      AppendKeepsDiscipline(r, Row(table, Num(sorted[i])));
      r := r + [Row(table, Num(sorted[i]))];
    }
    forall k | 0 <= k < |ids| ensures ValidId(ids[k]) {
      assert ids[k] in ids && ids[k] in sorted;
    }
    forall l ensures l in r <==> l in plan || TouchesIds(table, ids, l) {
      if l in r && l !in plan {
        var k :| 0 <= k < |sorted| && l == Row(table, Num(sorted[k]));
        assert sorted[k] in sorted && sorted[k] in ids;
      }
      if TouchesIds(table, ids, l) {
        var i :| 0 <= i < |ids| && l == Row(table, Num(ids[i]));
        assert ids[i] in ids && ids[i] in sorted;
      }
    }
    ok := true;
  }

  method TouchOwned(plan: seq<Lock>, table: Table, name: string) returns (r: seq<Lock>)
    requires Disciplined(plan) && !SharedTable(table) && Advisory(name) in plan
    ensures r == plan + [Row(table, Text(name))] && Disciplined(r)
    ensures forall rank: nat :: Below(plan, rank) ==> Below(r, rank)
  {
    AppendKeepsDiscipline(plan, Row(table, Text(name)));
    r := plan + [Row(table, Text(name))];
  }

  method TouchLanguage(plan: seq<Lock>, language: Option<string>) returns (ok: bool, r: seq<Lock>)
    requires Disciplined(plan) && Below(plan, Rank(Row(Languages, Num(0))))
    ensures ok <==> ValidLanguage(language)
    ensures ok ==> Disciplined(r) && Below(r, Rank(Row(Languages, Num(0))) + 1)
    ensures ok ==> forall l :: l in r <==> l in plan || TouchesLanguage(language, l)
  {
    var text := LanguageText(language);
    if text.None? { return true, plan; }
    var code := NormalizeLanguage(text.value);
    if code.None? { return false, plan; }
    AppendKeepsDiscipline(plan, Row(Languages, Text(code.value)));
    return true, plan + [Row(Languages, Text(code.value))];
  }

  method TouchCollection(plan: seq<Lock>, collection: Option<u64>) returns (ok: bool, r: seq<Lock>)
    requires Disciplined(plan) && Below(plan, Rank(Row(Collections, Num(0))))
    ensures ok <==> (collection.Some? ==> ValidId(collection.value))
    ensures ok ==> Disciplined(r)
    ensures ok ==>
      forall l :: l in r <==> l in plan || (collection.Some? && l == Row(Collections, Num(collection.value)))
  {
    if collection.None? { return true, plan; }
    if !ValidId(collection.value) { return false, plan; }
    AppendKeepsDiscipline(plan, Row(Collections, Num(collection.value)));
    return true, plan + [Row(Collections, Num(collection.value))];
  }

  predicate TouchesLanguage(language: Option<string>, l: Lock) {
    LanguageText(language).Some? && NormalizeLanguage(LanguageText(language).value).Some?
    && l == Row(Languages, Text(NormalizeLanguage(LanguageText(language).value).value))
  }

  /** The locks of a movie write: its own name and row, and the lookup rows its fields name. */
  predicate MovieTouches(m: Movie, l: Lock) {
    || l == Advisory(TitleName("movie", m.id))
    || l == Row(Titles, Text(TitleName("movie", m.id)))
    || TouchesIds(Genres, m.genres, l) || TouchesIds(Keywords, m.keywords, l)
    || TouchesIds(People, m.cast + m.crew, l) || TouchesIds(Companies, m.companies, l)
    || TouchesLanguage(m.language, l)
    || (m.collection.Some? && l == Row(Collections, Num(m.collection.value)))
  }

  /**
   * `persist_movie_with_options`: succeeds exactly when validation does, so nothing it looks up fails once the
   * transaction has begun; its locks are disciplined, and are those of the fields.
   */
  method PersistMovie(m: Movie) returns (r: Outcome<seq<Lock>>)
    ensures r.Ok? <==> ValidId(m.id) && m.fieldsOk && MovieValid(m)
    ensures !r.Ok? ==> r == Invalid(false)
    ensures r.Ok? ==> Disciplined(r.value) && forall l :: l in r.value <==> MovieTouches(m, l)
  {
    if !ValidId(m.id) || !m.fieldsOk { return Invalid(false); }
    var resources := MovieWriteResources(m, m.id);
    if resources.Invalid? { return Invalid(false); }
    var plan := PlanNames(resources.value);
    plan := TouchOwned(plan, Titles, TitleName("movie", m.id));
    var ok;
    ok, plan := TouchSorted(plan, Genres, m.genres);
    if !ok { return Invalid(true); }
    ok, plan := TouchSorted(plan, Keywords, m.keywords);
    if !ok { return Invalid(true); }
    ok, plan := TouchSorted(plan, People, m.cast + m.crew);
    if !ok { return Invalid(true); }
    ok, plan := TouchSorted(plan, Companies, m.companies);
    if !ok { return Invalid(true); }
    ok, plan := TouchLanguage(plan, m.language);
    if !ok { return Invalid(true); }
    ok, plan := TouchCollection(plan, m.collection);
    if !ok { return Invalid(true); }
    return Ok(plan);
  }

  predicate SeasonsAscend(s: seq<SeasonSummary>) {
    forall i, j :: 0 <= i < j < |s| ==> s[i].id <= s[j].id
  }

  function InsertSeason(x: SeasonSummary, s: seq<SeasonSummary>): (r: seq<SeasonSummary>)
    ensures forall y :: y in r <==> y == x || y in s
    ensures SeasonsAscend(s) ==> SeasonsAscend(r)
  {
    if s == [] || x.id <= s[0].id then [x] + s
    else
      var t := InsertSeason(x, s[1..]);
      assert forall k :: 0 <= k < |t| ==> t[k] in t && (t[k] == x || t[k] in s[1..]);
      [s[0]] + t
  }

  function SortSeasons(s: seq<SeasonSummary>): (r: seq<SeasonSummary>)
    ensures forall y :: y in r <==> y in s
    ensures SeasonsAscend(r)
  {
    if s == [] then [] else InsertSeason(s[0], SortSeasons(s[1..]))
  }

  /** What `replace_season_summaries` converts but `tv_write_resources` does not check. */
  predicate Writable(s: SeasonSummary) {
    s.number <= I32_MAX && s.airDateOk
  }

  predicate TouchesSeasons(seasons: seq<SeasonSummary>, l: Lock) {
    exists i :: 0 <= i < |seasons| && l == Row(Seasons, Text(SeasonName(seasons[i].id)))
  }

  /** The writes stop at season `b`: it cannot be written, and the seasons of smaller ids are what is locked of them. */
  predicate StopsAt(seasons: seq<SeasonSummary>, b: nat, plan: seq<Lock>, r: seq<Lock>) {
    && b < |seasons| && !Writable(seasons[b])
    && (forall k :: 0 <= k < |seasons| && seasons[k].id < seasons[b].id ==>
                      Writable(seasons[k]) && Row(Seasons, Text(SeasonName(seasons[k].id))) in r)
    && forall l :: l in r ==> l in plan || exists k :: 0 <= k < |seasons| && seasons[k].id <= seasons[b].id
                                                       && l == Row(Seasons, Text(SeasonName(seasons[k].id)))
  }

  lemma StopsInOrder(seasons: seq<SeasonSummary>, sorted: seq<SeasonSummary>, i: nat, plan: seq<Lock>, r: seq<Lock>)
    requires SeasonsAscend(sorted) && forall y :: y in sorted <==> y in seasons
    requires i < |sorted| && !Writable(sorted[i]) && forall k :: 0 <= k < i ==> Writable(sorted[k])
    requires forall l :: l in r <==>
                           l in plan || exists k :: 0 <= k < i && l == Row(Seasons, Text(SeasonName(sorted[k].id)))
    ensures exists b: nat :: StopsAt(seasons, b, plan, r)
  {
    assert sorted[i] in seasons;
    var b: nat :| b < |seasons| && seasons[b] == sorted[i];
    forall k | 0 <= k < |seasons| && seasons[k].id < seasons[b].id
      ensures Writable(seasons[k]) && Row(Seasons, Text(SeasonName(seasons[k].id))) in r
    {
      assert seasons[k] in sorted;
      var m :| 0 <= m < |sorted| && sorted[m] == seasons[k];
    }
    forall l | l in r && l !in plan
      ensures exists k :: 0 <= k < |seasons| && seasons[k].id <= seasons[b].id
                          && l == Row(Seasons, Text(SeasonName(seasons[k].id)))
    {
      var m :| 0 <= m < i && l == Row(Seasons, Text(SeasonName(sorted[m].id)));
      assert sorted[m] in seasons;
    }
    assert StopsAt(seasons, b, plan, r);
  }

  method TouchSeasons(plan: seq<Lock>, seasons: seq<SeasonSummary>) returns (ok: bool, r: seq<Lock>)
    requires Disciplined(plan)
    requires forall i :: 0 <= i < |seasons| ==> ValidId(seasons[i].id) && Advisory(SeasonName(seasons[i].id)) in plan
    ensures ok <==> forall i :: 0 <= i < |seasons| ==> Writable(seasons[i])
    ensures Disciplined(r) && forall l :: l in r ==> l in plan || TouchesSeasons(seasons, l)
    ensures ok ==> forall rank: nat :: Below(plan, rank) ==> Below(r, rank)
    ensures ok ==> forall l :: l in r <==> l in plan || TouchesSeasons(seasons, l)
    ensures !ok ==> exists b: nat :: StopsAt(seasons, b, plan, r)
  {
    var sorted := SortSeasons(seasons);
    r := plan;
    for i := 0 to |sorted|
      invariant forall k :: 0 <= k < i ==> Writable(sorted[k])
      invariant Disciplined(r) && forall rank: nat :: Below(plan, rank) ==> Below(r, rank)
      invariant forall l :: l in r <==>
                  l in plan || exists k :: 0 <= k < i && l == Row(Seasons, Text(SeasonName(sorted[k].id)))
      invariant forall l :: l in r ==> l in plan || TouchesSeasons(seasons, l)
    {
      assert sorted[i] in sorted && sorted[i] in seasons;
      if !ValidId(sorted[i].id) || !Writable(sorted[i]) {
        StopsInOrder(seasons, sorted, i, plan, r);
        return false, r;
      }
      r := TouchOwned(r, Seasons, SeasonName(sorted[i].id));
      assert TouchesSeasons(seasons, Row(Seasons, Text(SeasonName(sorted[i].id))));
    }
    forall k | 0 <= k < |seasons| ensures Writable(seasons[k]) {
      assert seasons[k] in seasons && seasons[k] in sorted;
    }
    forall l ensures l in r <==> l in plan || TouchesSeasons(seasons, l) {
      if l in r && l !in plan {
        var k :| 0 <= k < |sorted| && l == Row(Seasons, Text(SeasonName(sorted[k].id)));
        assert sorted[k] in sorted && sorted[k] in seasons;
      }
      if TouchesSeasons(seasons, l) {
        var i :| 0 <= i < |seasons| && l == Row(Seasons, Text(SeasonName(seasons[i].id)));
        assert seasons[i] in seasons && seasons[i] in sorted;
      }
    }
    ok := true;
  }

  predicate TvTouches(t: Tv, l: Lock) {
    || l == Advisory(TitleName("tv", t.id))
    || (exists i :: 0 <= i < |t.seasons| && l == Advisory(SeasonName(t.seasons[i].id)))
    || l == Row(Titles, Text(TitleName("tv", t.id)))
    || TouchesIds(Genres, t.genres, l) || TouchesIds(Keywords, t.keywords, l)
    || TouchesIds(People, t.cast + t.crew, l)
    || TouchesSeasons(t.seasons, l)
    || TouchesIds(Companies, t.companies, l) || TouchesIds(Networks, t.networks, l)
    || TouchesLanguage(t.language, l)
  }

  /**
   * `persist_tv_with_options`: after validation the only failure left is a season summary's number or date; the
   * locks are disciplined, and every title and season row is covered by a name that was locked first. `taken` are the
   * locks of a transaction that began, up to its failure if it failed.
   */
  method PersistTv(t: Tv) returns (r: Outcome<seq<Lock>>, taken: seq<Lock>)
    ensures r.Ok? <==> ValidId(t.id) && t.fieldsOk && TvValid(t)
                       && forall i :: 0 <= i < |t.seasons| ==>
                            t.seasons[i].number < 0x8000_0000 && t.seasons[i].airDateOk
    ensures !r.Ok? ==> r == Invalid(ValidId(t.id) && t.fieldsOk && TvValid(t))
    ensures r.Ok? ==> r.value == taken && forall l :: TvTouches(t, l) ==> l in taken
    ensures r == Invalid(true) ==> exists b: nat, before: seq<Lock> :: StopsAt(t.seasons, b, before, taken)
    ensures Disciplined(taken) && forall l :: l in taken ==> TvTouches(t, l)
  {
    taken := [];
    hide TouchesIds, TouchesSeasons, TouchesLanguage, StopsAt;
    if !ValidId(t.id) || !t.fieldsOk { return Invalid(false), taken; }
    var resources := TvWriteResources(t, t.id);
    if resources.Invalid? { return Invalid(false), taken; }
    var plan := PlanNames(resources.value);
    plan := TouchOwned(plan, Titles, TitleName("tv", t.id));
    var ok;
    ok, plan := TouchSorted(plan, Genres, t.genres);
    if !ok { return Invalid(true), taken; }
    ok, plan := TouchSorted(plan, Keywords, t.keywords);
    if !ok { return Invalid(true), taken; }
    ok, plan := TouchSorted(plan, People, t.cast + t.crew);
    if !ok { return Invalid(true), taken; }
    ok, plan := TouchSeasons(plan, t.seasons);
    if !ok { return Invalid(true), plan; }
    ok, plan := TouchSorted(plan, Companies, t.companies);
    if !ok { return Invalid(true), taken; }
    ok, plan := TouchSorted(plan, Networks, t.networks);
    if !ok { return Invalid(true), taken; }
    ok, plan := TouchLanguage(plan, t.language);
    if !ok { return Invalid(true), taken; }
    return Ok(plan), plan;
  }

  /** `persist_changes`: the title rows come in page order, each under its own name. */
  method PersistChanges(mediaType: string, changed: seq<u64>) returns (r: Outcome<seq<Lock>>)
    ensures r.Ok? <==> ValidIds(changed)
    ensures !r.Ok? ==> r == Invalid(false)
    ensures r.Ok? ==> Disciplined(r.value) && forall l :: l in r.value <==>
              exists i :: 0 <= i < |changed| && (l == Advisory(TitleName(mediaType, changed[i]))
                                                 || l == Row(Titles, Text(TitleName(mediaType, changed[i]))))
  {
    var names := [];
    for i := 0 to |changed|
      invariant forall k :: 0 <= k < i ==> ValidId(changed[k])
      invariant Ascending(names)
      invariant forall n :: n in names <==> exists k :: 0 <= k < i && n == TitleName(mediaType, changed[k])
    {
      if !ValidId(changed[i]) { return Invalid(false); }
      InsertKeepsAscending(names, TitleName(mediaType, changed[i]));
      names := InsertName(names, TitleName(mediaType, changed[i]));
    }
    var plan := PlanNames(names);
    for i := 0 to |changed|
      invariant Disciplined(plan)
      invariant forall l :: l in plan <==>
                  (l.Advisory? && l.name in names)
                  || exists k :: 0 <= k < i && l == Row(Titles, Text(TitleName(mediaType, changed[k])))
    {
      plan := TouchOwned(plan, Titles, TitleName(mediaType, changed[i]));
    }
    return Ok(plan);
  }

  // ---- season writers: people are sorted inside an episode, not across episodes ------------------

  function PeopleRows(ids: seq<u64>): seq<Lock> {
    var sorted := Sort(ids);
    seq(|sorted|, i requires 0 <= i < |sorted| => Row(People, Num(sorted[i])))
  }

  function EpisodeRows(episodes: seq<Episode>): seq<Lock> {
    if episodes == [] then []
    else
      [Row(Episodes, Text(EpisodeName(episodes[0].id)))] + PeopleRows(episodes[0].credits) + EpisodeRows(episodes[1..])
  }

  /** `season_write_resources`, as the set that is sorted before it is locked */
  ghost predicate SeasonNames(names: seq<string>, s: Season) {
    && Ascending(names)
    && forall n :: n in names <==> n == TitleName("tv", s.tvId) || n == SeasonName(s.id)
                                   || exists i :: 0 <= i < |s.episodes| && n == EpisodeName(s.episodes[i].id)
  }

  predicate SeasonValid(s: Season) {
    forall i :: 0 <= i < |s.episodes| ==> ValidId(s.episodes[i].id) && ValidIds(s.episodes[i].credits)
  }

  method SeasonWriteResources(s: Season) returns (r: Outcome<seq<string>>)
    ensures if SeasonValid(s) then r.Ok? && SeasonNames(r.value, s) else r == Invalid(false)
  {
    var names := [TitleName("tv", s.tvId)];
    InsertKeepsAscending(names, SeasonName(s.id));
    names := InsertName(names, SeasonName(s.id));
    for i := 0 to |s.episodes|
      invariant forall k :: 0 <= k < i ==> ValidId(s.episodes[k].id) && ValidIds(s.episodes[k].credits)
      invariant Ascending(names)
      invariant forall n :: n in names <==> n == TitleName("tv", s.tvId) || n == SeasonName(s.id)
                                            || exists k :: 0 <= k < i && n == EpisodeName(s.episodes[k].id)
    {
      var credits := ValidateSourceIds(s.episodes[i].credits);
      if !ValidId(s.episodes[i].id) || !credits { return Invalid(false); }
      InsertKeepsAscending(names, EpisodeName(s.episodes[i].id));
      names := InsertName(names, EpisodeName(s.episodes[i].id));
    }
    return Ok(names);
  }

  function NamePlan(names: seq<string>): seq<Lock> {
    seq(|names|, i requires 0 <= i < |names| => Advisory(names[i]))
  }

  function SeasonPlan(names: seq<string>, s: Season): seq<Lock> {
    NamePlan(names) + [Row(Titles, Text(TitleName("tv", s.tvId))), Row(Seasons, Text(SeasonName(s.id)))]
    + EpisodeRows(s.episodes)
  }

  /** `persist_episode` and `replace_episode_credits` */
  method PersistEpisode(plan: seq<Lock>, e: Episode) returns (ok: bool, r: seq<Lock>)
    ensures ok <==> ValidId(e.id) && e.fieldsOk && ValidIds(e.credits)
    ensures ok ==> r == plan + [Row(Episodes, Text(EpisodeName(e.id)))] + PeopleRows(e.credits)
  {
    if !ValidId(e.id) || !e.fieldsOk { return false, plan; }
    var head := plan + [Row(Episodes, Text(EpisodeName(e.id)))];
    r := head;
    var sorted := Sort(e.credits);
    for i := 0 to |sorted|
      invariant r == head + PeopleRows(e.credits)[..i]
      invariant forall k :: 0 <= k < i ==> 0 < sorted[k] <= I64_MAX
    {
      if !(0 < sorted[i] <= I64_MAX) {
        assert sorted[i] in sorted && sorted[i] in e.credits;
        return false, plan;
      }
      assert PeopleRows(e.credits)[..i + 1] == PeopleRows(e.credits)[..i] + [Row(People, Num(sorted[i]))];
      r := r + [Row(People, Num(sorted[i]))];
    }
    forall k | 0 <= k < |e.credits| ensures ValidId(e.credits[k]) {
      assert e.credits[k] in e.credits && e.credits[k] in sorted;
    }
    ok := true;
  }

  lemma NextEpisode(plan: seq<Lock>, episodes: seq<Episode>, i: nat)
    requires i < |episodes|
    ensures plan + EpisodeRows(episodes[i..]) ==
            (plan + [Row(Episodes, Text(EpisodeName(episodes[i].id)))] + PeopleRows(episodes[i].credits))
            + EpisodeRows(episodes[i + 1..])
  {
  }

  /**
   * `persist_season`: every id is checked before the transaction begins; afterwards it can fail only because the
   * parent title is missing, or because of an episode's date or vote count.
   */
  method PersistSeason(s: Season, parentActive: bool) returns (r: Outcome<seq<Lock>>)
    ensures !(ValidId(s.tvId) && ValidId(s.id) && s.fieldsOk && SeasonValid(s)) <==> r == Invalid(false)
    ensures r != Invalid(false) ==> (r == EntityNotReady <==> !parentActive)
    ensures r != Invalid(false) && parentActive ==>
              (r.Ok? <==> forall i :: 0 <= i < |s.episodes| ==> s.episodes[i].fieldsOk)
    ensures r.Ok? ==> exists names :: SeasonNames(names, s) && r.value == SeasonPlan(names, s)
  {
    if !ValidId(s.tvId) || !ValidId(s.id) || !s.fieldsOk { return Invalid(false); }
    var resources := SeasonWriteResources(s);
    if resources.Invalid? { return Invalid(false); }
    var plan := NamePlan(resources.value);
    if !parentActive { return EntityNotReady; }
    plan := plan + [Row(Titles, Text(TitleName("tv", s.tvId))), Row(Seasons, Text(SeasonName(s.id)))];
    ghost var whole := SeasonPlan(resources.value, s);
    assert s.episodes[0..] == s.episodes;
    for i := 0 to |s.episodes|
      invariant forall k :: 0 <= k < i ==> s.episodes[k].fieldsOk
      invariant plan + EpisodeRows(s.episodes[i..]) == whole
    {
      var ok;
      NextEpisode(plan, s.episodes, i);
      ok, plan := PersistEpisode(plan, s.episodes[i]);
      if !ok { return Invalid(true); }
    }
    assert EpisodeRows(s.episodes[|s.episodes|..]) == [];
    return Ok(plan);
  }

  /** The people of a season write, in the order their rows are locked. */
  function SeasonPeople(episodes: seq<Episode>): seq<int> {
    if episodes == [] then [] else Sort(episodes[0].credits) + SeasonPeople(episodes[1..])
  }

  predicate SharedOrdered(plan: seq<Lock>) {
    forall i, j :: 0 <= i < j < |plan| && !Owned(plan[i]) && !Owned(plan[j]) ==> Leq(plan[i], plan[j])
  }

  lemma SharedOrderedConcat(a: seq<Lock>, b: seq<Lock>)
    ensures SharedOrdered(a + b) <==>
            SharedOrdered(a) && SharedOrdered(b)
            && forall x, y :: x in a && y in b && !Owned(x) && !Owned(y) ==> Leq(x, y)
  {
    var c := a + b;
    if SharedOrdered(c) {
      forall x, y | x in a && y in b && !Owned(x) && !Owned(y) ensures Leq(x, y) {
        var i :| 0 <= i < |a| && a[i] == x;
        var j :| 0 <= j < |b| && b[j] == y;
        assert c[i] == x && c[|a| + j] == y;
      }
      assert forall i :: 0 <= i < |a| ==> a[i] == c[i];
      assert forall j :: 0 <= j < |b| ==> b[j] == c[|a| + j];
    }
  }

  lemma SortedConcat(a: seq<int>, b: seq<int>)
    ensures Sorted(a + b) <==> Sorted(a) && Sorted(b) && forall x, y :: x in a && y in b ==> x <= y
  {
    var c := a + b;
    if Sorted(c) {
      forall x, y | x in a && y in b ensures x <= y {
        var i :| 0 <= i < |a| && a[i] == x;
        var j :| 0 <= j < |b| && b[j] == y;
        assert c[i] == x && c[|a| + j] == y;
      }
      assert forall i :: 0 <= i < |a| ==> a[i] == c[i];
      assert forall j :: 0 <= j < |b| ==> b[j] == c[|a| + j];
    }
    if Sorted(a) && Sorted(b) && forall x, y :: x in a && y in b ==> x <= y {
      forall i, j | 0 <= i < j < |c| ensures c[i] <= c[j] {
        if i < |a| <= j { assert c[i] in a && c[j] in b; }
      }
    }
  }

  lemma PeopleRowsOrdered(ids: seq<u64>)
    ensures SharedOrdered(PeopleRows(ids))
    ensures forall l :: l in PeopleRows(ids) <==> l.Row? && l.table.People? && l.key.Num? && l.key.n in Sort(ids)
  {
    var rows, sorted := PeopleRows(ids), Sort(ids);
    forall l: Lock | l.Row? && l.table.People? && l.key.Num? && l.key.n in sorted ensures l in rows {
      var i :| 0 <= i < |sorted| && sorted[i] == l.key.n;
      assert rows[i] == l;
    }
  }

  lemma {:induction false} EpisodeRowsShared(episodes: seq<Episode>)
    ensures forall l :: l in EpisodeRows(episodes) && !Owned(l) <==>
              l.Row? && l.table.People? && l.key.Num? && l.key.n in SeasonPeople(episodes)
  {
    if episodes != [] {
      EpisodeRowsShared(episodes[1..]);
      PeopleRowsOrdered(episodes[0].credits);
    }
  }

  lemma {:induction false} EpisodeRowsOrderedIff(episodes: seq<Episode>)
    ensures SharedOrdered(EpisodeRows(episodes)) <==> Sorted(SeasonPeople(episodes))
  {
    if episodes != [] {
      var rest := episodes[1..];
      EpisodeRowsOrderedIff(rest);
      var head := [Row(Episodes, Text(EpisodeName(episodes[0].id)))] + PeopleRows(episodes[0].credits);
      SharedOrderedConcat([Row(Episodes, Text(EpisodeName(episodes[0].id)))], PeopleRows(episodes[0].credits));
      PeopleRowsOrdered(episodes[0].credits);
      SharedOrderedConcat(head, EpisodeRows(rest));
      var ids, more := Sort(episodes[0].credits), SeasonPeople(rest);
      SortedConcat(ids, more);
      EpisodeRowsShared(rest);
      CrossingOrder(head, EpisodeRows(rest), ids, more);
    }
  }

  /** Comparing the people rows of two stretches of a plan is comparing their ids. */
  lemma CrossingOrder(a: seq<Lock>, b: seq<Lock>, ids: seq<int>, more: seq<int>)
    requires forall l :: l in a && !Owned(l) <==> l.Row? && l.table.People? && l.key.Num? && l.key.n in ids
    requires forall l :: l in b && !Owned(l) <==> l.Row? && l.table.People? && l.key.Num? && l.key.n in more
    ensures (forall x, y :: x in a && y in b && !Owned(x) && !Owned(y) ==> Leq(x, y))
            <==> forall m, n :: m in ids && n in more ==> m <= n
  {
    if forall x, y :: x in a && y in b && !Owned(x) && !Owned(y) ==> Leq(x, y) {
      forall m, n | m in ids && n in more ensures m <= n {
        assert Row(People, Num(m)) in a && Row(People, Num(n)) in b;
        assert Leq(Row(People, Num(m)), Row(People, Num(n)));
      }
    }
  }

  lemma {:induction false} EpisodeRowsOwned(episodes: seq<Episode>, l: Lock)
    requires l in EpisodeRows(episodes) && Owned(l)
    ensures exists i :: 0 <= i < |episodes| && l == Row(Episodes, Text(EpisodeName(episodes[i].id)))
  {
    PeopleRowsOrdered(episodes[0].credits);
    if l != Row(Episodes, Text(EpisodeName(episodes[0].id))) {
      EpisodeRowsOwned(episodes[1..], l);
      var i :| 0 <= i < |episodes[1..]| && l == Row(Episodes, Text(EpisodeName(episodes[1..][i].id)));
      assert episodes[1..][i] == episodes[i + 1];
    }
  }

  lemma NamePlanOrdered(names: seq<string>, owned: seq<Lock>)
    requires Ascending(names) && forall l :: l in owned ==> Owned(l)
    ensures SharedOrdered(NamePlan(names) + owned)
    ensures forall l :: l in NamePlan(names) + owned && !Owned(l) ==> l.Advisory?
    ensures forall n :: n in names ==> Advisory(n) in NamePlan(names)
  {
    var prefix := NamePlan(names);
    forall n | n in names ensures Advisory(n) in prefix {
      var k :| 0 <= k < |names| && names[k] == n;
      assert prefix[k] == Advisory(n);
    }
    assert forall k :: 0 <= k < |prefix| ==> prefix[k].Advisory?;
    var plan := prefix + owned;
    forall i | |prefix| <= i < |plan| ensures Owned(plan[i]) { assert plan[i] in owned; }
  }

  lemma SeasonOwnedRowsAreNamed(names: seq<string>, s: Season, j: nat)
    requires SeasonNames(names, s) && j < |SeasonPlan(names, s)| && Owned(SeasonPlan(names, s)[j])
    ensures Advisory(SeasonPlan(names, s)[j].key.s) in SeasonPlan(names, s)[..j]
  {
    var plan := SeasonPlan(names, s);
    assert j >= |names|;
    if j >= |names| + 2 {
      assert plan[j] == EpisodeRows(s.episodes)[j - |names| - 2];
      EpisodeRowsOwned(s.episodes, plan[j]);
    }
    assert plan[j].key.s in names;
    var k :| 0 <= k < |names| && names[k] == plan[j].key.s;
    assert plan[..j][k] == Advisory(names[k]);
  }

  /** A season writer keeps the lock discipline exactly when its people happen to ascend across its episodes. */
  lemma SeasonDisciplinedIff(names: seq<string>, s: Season)
    requires SeasonNames(names, s)
    ensures Disciplined(SeasonPlan(names, s)) <==> Sorted(SeasonPeople(s.episodes))
  {
    var plan := SeasonPlan(names, s);
    var owned := [Row(Titles, Text(TitleName("tv", s.tvId))), Row(Seasons, Text(SeasonName(s.id)))];
    NamePlanOrdered(names, owned);
    EpisodeRowsOrderedIff(s.episodes);
    EpisodeRowsShared(s.episodes);
    SharedOrderedConcat(NamePlan(names) + owned, EpisodeRows(s.episodes));
    assert SharedOrdered(plan) <==> Sorted(SeasonPeople(s.episodes));
    forall j | 0 <= j < |plan| && Owned(plan[j]) ensures Advisory(plan[j].key.s) in plan[..j] {
      SeasonOwnedRowsAreNamed(names, s, j);
    }
  }

  lemma PrefixedDecimalsDiffer(prefix: string, m: nat, n: nat)
    requires m != n
    ensures prefix + Decimal(m) != prefix + Decimal(n)
  {
    var a, b := prefix + Decimal(m), prefix + Decimal(n);
    assert a[|prefix|..] == Decimal(m) && b[|prefix|..] == Decimal(n);
    if Decimal(m) == Decimal(n) { DecimalInjective(m, n); }
  }

  lemma NamesDiffer(m: nat, n: nat)
    requires m != n
    ensures TitleName("tv", m) != TitleName("tv", n) && SeasonName(m) != SeasonName(n)
    ensures EpisodeName(m) != EpisodeName(n)
  {
    PrefixedDecimalsDiffer("catalog:title:tv:", m, n);
    assert TitleName("tv", m) == "catalog:title:tv:" + Decimal(m)
      && TitleName("tv", n) == "catalog:title:tv:" + Decimal(n);
    PrefixedDecimalsDiffer("catalog:season:", m, n);
    PrefixedDecimalsDiffer("catalog:episode:", m, n);
  }

  lemma NamesDisjoint(a: Season, b: Season, an: seq<string>, bn: seq<string>)
    requires SeasonNames(an, a) && SeasonNames(bn, b) && a.tvId != b.tvId && a.id != b.id
    requires forall i, j :: 0 <= i < |a.episodes| && 0 <= j < |b.episodes| ==> a.episodes[i].id != b.episodes[j].id
    ensures forall n :: n in an ==> n !in bn
  {
    NamesDiffer(a.tvId, b.tvId);
    NamesDiffer(a.id, b.id);
    forall i, j | 0 <= i < |a.episodes| && 0 <= j < |b.episodes|
      ensures EpisodeName(a.episodes[i].id) != EpisodeName(b.episodes[j].id)
    {
      NamesDiffer(a.episodes[i].id, b.episodes[j].id);
    }
    forall m: nat ensures TitleName("tv", m)[8] == 't' && SeasonName(m)[8] == 's' && EpisodeName(m)[8] == 'e' {
    }
  }

  /** Two season writes of different shows that name two people in opposite episode orders can block each other. */
  lemma SeasonWritersCanDeadlock(a: Season, b: Season, an: seq<string>, bn: seq<string>, x: u64, y: u64)
    requires x != y && a.tvId != b.tvId && a.id != b.id && |a.episodes| == 2 && |b.episodes| == 2
    requires a.episodes[0].credits == b.episodes[1].credits == [x]
    requires a.episodes[1].credits == b.episodes[0].credits == [y]
    requires forall i, j :: 0 <= i < 2 && 0 <= j < 2 ==> a.episodes[i].id != b.episodes[j].id
    requires SeasonNames(an, a) && SeasonNames(bn, b)
    ensures exists s: State :: Reachable(s) && Stuck(s) && |s| == 2
                               && s[0].plan == SeasonPlan(an, a) && s[1].plan == SeasonPlan(bn, b)
  {
    hide SeasonPlan, PrefixLocks, SeasonNames, Reachable, Stuck;
    var p, q := SeasonPlan(an, a), SeasonPlan(bn, b);
    var i, j := |an| + 5, |bn| + 5;
    NamesDisjoint(a, b, an, bn);
    TwoEpisodePrefix(a, an, x, y);
    TwoEpisodePrefix(b, bn, y, x);
    PrefixesDisjoint(p[..i], q[..j], an, bn, x, y);
    assert p[..i][|an| + 3] == q[j] && q[..j][|bn| + 3] == p[i];
    CrossedPlansDeadlock(p, q, i, j);
  }

  /** What a season write has locked before its second person. */
  ghost predicate PrefixLocks(locks: seq<Lock>, names: seq<string>, x: u64) {
    forall l :: l in locks ==> l == Row(People, Num(x)) || (l.Advisory? && l.name in names)
                               || (l.Row? && !l.table.People? && l.key.Text? && l.key.s in names)
  }

  lemma PrefixesDisjoint(p: seq<Lock>, q: seq<Lock>, an: seq<string>, bn: seq<string>, x: u64, y: u64)
    requires PrefixLocks(p, an, x) && PrefixLocks(q, bn, y) && x != y
    requires forall n :: n in an ==> n !in bn
    ensures forall l :: l in p ==> l !in q
  {
  }

  lemma {:induction false} TwoEpisodeRows(episodes: seq<Episode>, x: u64, y: u64)
    requires |episodes| == 2 && episodes[0].credits == [x] && episodes[1].credits == [y]
    ensures EpisodeRows(episodes) == [Row(Episodes, Text(EpisodeName(episodes[0].id))), Row(People, Num(x)),
                                      Row(Episodes, Text(EpisodeName(episodes[1].id))), Row(People, Num(y))]
  {
    OnePersonRow(x);
    OnePersonRow(y);
    var rest := episodes[1..];
    assert rest[0] == episodes[1] && rest[1..] == [];
    assert EpisodeRows(rest) == [Row(Episodes, Text(EpisodeName(episodes[1].id))), Row(People, Num(y))];
  }

  lemma OnePersonRow(x: u64)
    ensures PeopleRows([x]) == [Row(People, Num(x))]
  {
    assert Sort([x]) == [x];
  }

  /** Up to its second person, a two-episode season write has taken its own names and rows, and one person. */
  lemma TwoEpisodePrefix(s: Season, names: seq<string>, x: u64, y: u64)
    requires SeasonNames(names, s) && |s.episodes| == 2
    requires s.episodes[0].credits == [x] && s.episodes[1].credits == [y]
    ensures |SeasonPlan(names, s)| == |names| + 6 && PrefixLocks(SeasonPlan(names, s)[..|names| + 5], names, x)
    ensures SeasonPlan(names, s)[|names| + 3] == Row(People, Num(x))
    ensures SeasonPlan(names, s)[|names| + 5] == Row(People, Num(y))
  {
    TwoEpisodeRows(s.episodes, x, y);
    var plan := SeasonPlan(names, s);
    assert s.episodes[0] in s.episodes && s.episodes[1] in s.episodes;
    forall k | 0 <= k < |names| + 5
      ensures plan[k] == Row(People, Num(x)) || (plan[k].Advisory? && plan[k].name in names)
              || (plan[k].Row? && !plan[k].table.People? && plan[k].key.Text? && plan[k].key.s in names)
    {
      if k >= |names| + 2 { assert plan[k] == EpisodeRows(s.episodes)[k - |names| - 2]; }
    }
  }
}
