// Local image paths in API responses: one walk over a JSON tree collects the image keys it mentions, the database is
// asked for those keys only, and a second walk writes a local path beside each image path.
module LocalMedia {
  import opened JobQueue
  import opened Text

  datatype Json =
    | Null
    | Flag(b: bool)
    | Number(text: string)
    | Str(s: string)
    | Arr(items: seq<Json>)
    | Obj(fields: map<string, Json>)

  datatype LocalPath = LocalPath(storagePath: string, sha256: string)

  // ---- the fields and the checks ------------------------------------------------------------------

  function LocalField(key: string): Option<string> {
    if key == "backdrop_path" then Some("local_backdrop_path")
    else if key == "file_path" then Some("local_file_path")
    else if key == "logo_path" then Some("local_logo_path")
    else if key == "poster_path" then Some("local_poster_path")
    else if key == "profile_path" then Some("local_profile_path")
    else if key == "still_path" then Some("local_still_path")
    else None
  }

  /** The upstream field that a local field belongs to. */
  function UpstreamOf(key: string): Option<string> {
    if key == "local_backdrop_path" then Some("backdrop_path")
    else if key == "local_file_path" then Some("file_path")
    else if key == "local_logo_path" then Some("logo_path")
    else if key == "local_poster_path" then Some("poster_path")
    else if key == "local_profile_path" then Some("profile_path")
    else if key == "local_still_path" then Some("still_path")
    else None
  }

  /** Each local field belongs to one upstream field, and is not itself one. */
  lemma FieldsPairUp(key: string)
    ensures LocalField(key).Some? ==>
      UpstreamOf(LocalField(key).value) == Some(key) && LocalField(LocalField(key).value).None?
    ensures UpstreamOf(key).Some? ==> LocalField(UpstreamOf(key).value) == Some(key) && LocalField(key).None?
    ensures !(LocalField(key).Some? && UpstreamOf(key).Some?)
  {
  }

  predicate HasDelimiter(s: string) {
    exists i :: 0 <= i < |s| && (s[i] == '?' || s[i] == '#' || s[i] == '\\')
  }

  /** `is_tmdb_source_key` */
  predicate IsSourceKey(s: string) {
    && s != [] && s[0] == '/' && Utf8Len(s) <= 512 && !HasControl(s) && !HasDelimiter(s)
    && !exists i :: 0 <= i < |s| - 1 && s[i] == '.' && s[i + 1] == '.'
  }

  /** `str::split('/')` */
  function Parts(s: string): seq<string> {
    if s == [] then [[]]
    else if s[0] == '/' then [[]] + Parts(s[1..])
    else var rest := Parts(s[1..]); [[s[0]] + rest[0]] + rest[1..]
  }

  /** `is_safe_storage_path` */
  predicate IsSafePath(s: string) {
    && s != [] && Utf8Len(s) <= 512 && s[0] != '/' && !HasControl(s) && !HasDelimiter(s)
    && forall i :: 0 <= i < |Parts(s)| ==> Parts(s)[i] != [] && Parts(s)[i] != "." && Parts(s)[i] != ".."
  }

  predicate IsHex(c: char) {
    '0' <= c <= '9' || 'a' <= c <= 'f' || 'A' <= c <= 'F'
  }

  predicate IsDigest(s: string) {
    |s| == 64 && forall i :: 0 <= i < 64 ==> IsHex(s[i])
  }

  /** The value written beside an image path: a URL when the key is known and its row is well formed, otherwise null. */
  function LocalUrl(value: Json, base: Option<string>, table: map<string, LocalPath>): Json {
    if value.Str? && IsSourceKey(value.s) && value.s in table && base.Some?
       && IsSafePath(table[value.s].storagePath) && IsDigest(table[value.s].sha256)
    then Str(base.value + "/" + table[value.s].storagePath + "?v=" + table[value.s].sha256[..16])
    else Null
  }

  // ---- the two walks, as functions ----------------------------------------------------------------

  /** Every image key that the tree mentions. The value of an image field is not descended into. */
  ghost function SourceKeys(v: Json): set<string>
    decreases v, 2
  {
    match v
    case Arr(items) => ItemKeys(v, |items|)
    case Obj(fields) => KeysUnder(v, fields.Keys)
    case _ => {}
  }

  /** The keys that the first `n` items mention. */
  ghost function ItemKeys(v: Json, n: nat): set<string>
    requires v.Arr? && n <= |v.items|
    decreases v, 1
  {
    set i, s | 0 <= i < n && s in SourceKeys(v.items[i]) :: s
  }

  /** The keys that these fields mention. */
  ghost function KeysUnder(v: Json, names: set<string>): set<string>
    requires v.Obj? && names <= v.fields.Keys
    decreases v, 1
  {
    set k, s | k in names && s in FieldKeys(k, v.fields[k]) :: s
  }

  ghost function FieldKeys(key: string, value: Json): set<string>
    decreases value, 3
  {
    if LocalField(key).None? then SourceKeys(value)
    else if value.Str? && IsSourceKey(value.s) then {value.s}
    else {}
  }

  /** The keys of an object once its additions are in. */
  ghost function AnnotatedKeys(fields: map<string, Json>): set<string> {
    fields.Keys + set k | k in fields && LocalField(k).Some? :: LocalField(k).value
  }

  ghost function Annotate(v: Json, base: Option<string>, table: map<string, LocalPath>): Json {
    match v
    case Arr(items) => Arr(seq(|items|, i requires 0 <= i < |items| => Annotate(items[i], base, table)))
    case Obj(fields) =>
      Obj(map k | k in AnnotatedKeys(fields) ::
            if UpstreamOf(k).Some? && UpstreamOf(k).value in fields
              then LocalUrl(fields[UpstreamOf(k).value], base, table)
            else if k !in fields then Null
            else if LocalField(k).Some? then fields[k]
            else Annotate(fields[k], base, table))
    case _ => v
  }

  /** What becomes of one key of an object. */
  lemma AnnotatedField(fields: map<string, Json>, base: Option<string>, table: map<string, LocalPath>, k: string)
    ensures k in Annotate(Obj(fields), base, table).fields <==>
            k in fields || (UpstreamOf(k).Some? && UpstreamOf(k).value in fields)
    ensures UpstreamOf(k).Some? && UpstreamOf(k).value in fields ==>
              Annotate(Obj(fields), base, table).fields[k] == LocalUrl(fields[UpstreamOf(k).value], base, table)
    ensures (UpstreamOf(k).Some? ==> UpstreamOf(k).value !in fields) && k in fields ==>
              Annotate(Obj(fields), base, table).fields[k] ==
              if LocalField(k).Some? then fields[k] else Annotate(fields[k], base, table)
  {
    FieldsPairUp(k);
    if UpstreamOf(k).Some? && UpstreamOf(k).value in fields {
      assert LocalField(UpstreamOf(k).value) == Some(k);
    }
    if k in AnnotatedKeys(fields) && k !in fields {
      var u :| u in fields && LocalField(u) == Some(k);
      FieldsPairUp(u);
    }
  }

  // ---- the two walks, as the loops of the source --------------------------------------------------

  method AnyKey(keys: set<string>) returns (k: string)
    requires |keys| > 0
    ensures k in keys
  {
    if forall k: string :: k !in keys { assert false; }
    k :| k in keys;
  }

  lemma OneMoreItem(v: Json, i: nat)
    requires v.Arr? && i < |v.items|
    ensures ItemKeys(v, i + 1) == ItemKeys(v, i) + SourceKeys(v.items[i])
  {
  }

  lemma OneMoreField(v: Json, names: set<string>, k: string)
    requires v.Obj? && names <= v.fields.Keys && k in v.fields
    ensures KeysUnder(v, names + {k}) == KeysUnder(v, names) + FieldKeys(k, v.fields[k])
  {
  }

  lemma KeysOfTree(v: Json)
    ensures v.Arr? ==> ItemKeys(v, 0) == {} && SourceKeys(v) == ItemKeys(v, |v.items|)
    ensures v.Obj? ==> KeysUnder(v, {}) == {} && SourceKeys(v) == KeysUnder(v, v.fields.Keys)
    ensures !v.Arr? && !v.Obj? ==> SourceKeys(v) == {}
  {
  }

  lemma KeysOfField(key: string, value: Json)
    ensures FieldKeys(key, value) ==
            if LocalField(key).None? then SourceKeys(value)
            else if value.Str? && IsSourceKey(value.s) then {value.s}
            else {}
  {
  }

  /** `collect_media_source_keys` */
  method CollectMediaSourceKeys(v: Json, found: set<string>) returns (keys: set<string>)
    ensures keys == found + SourceKeys(v)
    decreases v, 1
  {
    hide LocalField, IsSourceKey, ItemKeys, KeysUnder, FieldKeys, SourceKeys;
    KeysOfTree(v);
    match v {
      case Arr(items) =>
        keys := found;
        for i := 0 to |items|
          invariant keys == found + ItemKeys(v, i)
        {
          OneMoreItem(v, i);
          keys := CollectMediaSourceKeys(items[i], keys);
        }
      case Obj(fields) =>
        keys := CollectFromObject(v, found);
      case _ =>
        keys := found;
    }
  }

  method CollectFromObject(v: Json, found: set<string>) returns (keys: set<string>)
    requires v.Obj?
    ensures keys == found + KeysUnder(v, v.fields.Keys)
    decreases v, 0
  {
    hide LocalField, IsSourceKey, ItemKeys, KeysUnder, FieldKeys, SourceKeys;
    KeysOfTree(v);
    var todo: set<string> := v.fields.Keys;
    ghost var seen: set<string> := {};
    keys := found;
    while |todo| > 0
      invariant todo + seen == v.fields.Keys
      invariant keys == found + KeysUnder(v, seen)
      decreases |todo|
    {
      var k := AnyKey(todo);
      KeysOfField(k, v.fields[k]);
      var more: set<string> := {};
      if LocalField(k).None? {
        more := CollectMediaSourceKeys(v.fields[k], {});
      } else if v.fields[k].Str? && IsSourceKey(v.fields[k].s) {
        more := {v.fields[k].s};
      }
      OneMoreField(v, seen, k);
      keys, todo, seen := keys + more, todo - {k}, seen + {k};
    }
    assert seen == v.fields.Keys;
  }

  /** `insert_local_media_paths`, returning the edited tree */
  method InsertLocalMediaPaths(v: Json, base: Option<string>, table: map<string, LocalPath>) returns (r: Json)
    ensures r == Annotate(v, base, table)
    decreases v, 1
  {
    match v {
      case Arr(items) =>
        var edited := items;
        for i := 0 to |items|
          invariant |edited| == |items|
          invariant forall j :: 0 <= j < i ==> edited[j] == Annotate(items[j], base, table)
          invariant forall j :: i <= j < |items| ==> edited[j] == items[j]
        {
          var item := InsertLocalMediaPaths(items[i], base, table);
          edited := edited[i := item];
        }
        return Arr(edited);
      case Obj(fields) =>
        r := InsertIntoObject(v, base, table);
      case _ =>
        return v;
    }
  }

  method InsertIntoObject(v: Json, base: Option<string>, table: map<string, LocalPath>) returns (r: Json)
    requires v.Obj?
    ensures r == Annotate(v, base, table)
    decreases v, 0
  {
    hide LocalField, UpstreamOf, LocalUrl, Progress, Annotate;
    var fields := v.fields;
    var edited, additions, todo := fields, map[], fields.Keys;
    NothingVisited(fields, base, table);
    while |todo| > 0
      invariant Progress(fields, edited, additions, todo, base, table)
      decreases |todo|
    {
      ProgressInFields(fields, edited, additions, todo, base, table);
      var k := AnyKey(todo);
      if LocalField(k).Some? {
        var url := LocalUrl(fields[k], base, table);
        AddedLocalField(fields, edited, additions, todo, base, table, k);
        additions := additions[LocalField(k).value := url];
      } else {
        var item := InsertLocalMediaPaths(fields[k], base, table);
        EditedField(fields, edited, additions, todo, base, table, k);
        edited := edited[k := item];
      }
      todo := todo - {k};
    }
    ObjectIsAnnotated(fields, edited, additions, todo, base, table);
    return Obj(edited + additions);
  }

  /** The fields outside `todo` have been visited. */
  ghost predicate Progress(fields: map<string, Json>, edited: map<string, Json>, additions: map<string, Json>,
                           todo: set<string>, base: Option<string>, table: map<string, LocalPath>)
  {
    && todo <= fields.Keys == edited.Keys
    && (forall k :: k in fields ==>
          edited[k] == if k in todo || LocalField(k).Some? then fields[k] else Annotate(fields[k], base, table))
    && (forall k :: k in additions <==>
          UpstreamOf(k).Some? && UpstreamOf(k).value in fields && UpstreamOf(k).value !in todo)
    && (forall k :: k in additions ==> additions[k] == LocalUrl(fields[UpstreamOf(k).value], base, table))
  }

  lemma NothingVisited(fields: map<string, Json>, base: Option<string>, table: map<string, LocalPath>)
    ensures Progress(fields, fields, map[], fields.Keys, base, table)
  {
  }

  lemma ProgressInFields(fields: map<string, Json>, edited: map<string, Json>, additions: map<string, Json>,
                         todo: set<string>, base: Option<string>, table: map<string, LocalPath>)
    requires Progress(fields, edited, additions, todo, base, table)
    ensures todo <= fields.Keys
  {
  }

  lemma EditedField(fields: map<string, Json>, edited: map<string, Json>, additions: map<string, Json>,
                    todo: set<string>, base: Option<string>, table: map<string, LocalPath>, k: string)
    requires Progress(fields, edited, additions, todo, base, table) && k in todo && LocalField(k).None?
    ensures Progress(fields, edited[k := Annotate(fields[k], base, table)], additions, todo - {k}, base, table)
  {
  }

  lemma AddedLocalField(fields: map<string, Json>, edited: map<string, Json>, additions: map<string, Json>,
                        todo: set<string>, base: Option<string>, table: map<string, LocalPath>, k: string)
    requires Progress(fields, edited, additions, todo, base, table) && k in todo && LocalField(k).Some?
    ensures Progress(fields, edited, additions[LocalField(k).value := LocalUrl(fields[k], base, table)],
                     todo - {k}, base, table)
  {
    hide LocalUrl;
    PairsUp(k);
  }

  lemma EntryIsAnnotated(fields: map<string, Json>, edited: map<string, Json>, additions: map<string, Json>,
                         todo: set<string>, base: Option<string>, table: map<string, LocalPath>, k: string)
    requires Progress(fields, edited, additions, todo, base, table) && |todo| == 0
    ensures k in edited + additions <==> k in Annotate(Obj(fields), base, table).fields
    ensures k in edited + additions ==> (edited + additions)[k] == Annotate(Obj(fields), base, table).fields[k]
  {
    hide LocalField, UpstreamOf, LocalUrl;
    AnnotatedField(fields, base, table, k);
  }

  lemma ObjectIsAnnotated(fields: map<string, Json>, edited: map<string, Json>, additions: map<string, Json>,
                          todo: set<string>, base: Option<string>, table: map<string, LocalPath>)
    requires Progress(fields, edited, additions, todo, base, table) && |todo| == 0
    ensures Obj(edited + additions) == Annotate(Obj(fields), base, table)
  {
    assert Annotate(Obj(fields), base, table).Obj?;
    hide LocalField, UpstreamOf, LocalUrl, Progress, Annotate;
    forall k: string
      ensures k in edited + additions <==> k in Annotate(Obj(fields), base, table).fields
      ensures k in edited + additions ==> (edited + additions)[k] == Annotate(Obj(fields), base, table).fields[k]
    {
      EntryIsAnnotated(fields, edited, additions, todo, base, table, k);
    }
    assert edited + additions == Annotate(Obj(fields), base, table).fields;
  }

  /** The local field of `k` is the only key whose upstream field is `k`. */
  lemma PairsUp(k: string)
    ensures forall l :: UpstreamOf(l) == Some(k) <==> LocalField(k) == Some(l)
  {
  }

  // ---- restricted lookup equals full lookup -------------------------------------------------------

  ghost predicate AgreeOn(keys: set<string>, a: map<string, LocalPath>, b: map<string, LocalPath>) {
    forall k :: k in keys ==> (k in a <==> k in b) && (k in a ==> a[k] == b[k])
  }

  lemma {:induction false} OnlyMentionedKeysMatter(v: Json, base: Option<string>, a: map<string, LocalPath>,
                                                   b: map<string, LocalPath>)
    requires AgreeOn(SourceKeys(v), a, b)
    ensures Annotate(v, base, a) == Annotate(v, base, b)
  {
    hide LocalField, UpstreamOf, LocalUrl;
    match v
    case Arr(items) =>
      forall i | 0 <= i < |items| ensures Annotate(items[i], base, a) == Annotate(items[i], base, b) {
        assert SourceKeys(items[i]) <= SourceKeys(v);
        OnlyMentionedKeysMatter(items[i], base, a, b);
      }
    case Obj(fields) =>
      forall k | k in fields && LocalField(k).None?
        ensures Annotate(fields[k], base, a) == Annotate(fields[k], base, b)
      {
        assert FieldKeys(k, fields[k]) <= SourceKeys(v);
        OnlyMentionedKeysMatter(fields[k], base, a, b);
      }
      var x, y := Annotate(v, base, a).fields, Annotate(v, base, b).fields;
      forall k ensures (k in x <==> k in y) && (k in x ==> x[k] == y[k]) {
        AnnotatedField(fields, base, a, k);
        AnnotatedField(fields, base, b, k);
        if UpstreamOf(k).Some? && UpstreamOf(k).value in fields { SameUrl(v, UpstreamOf(k).value, k, base, a, b); }
      }
      assert x == y;
    case _ =>
  }

  lemma SameUrl(v: Json, k: string, local: string, base: Option<string>, a: map<string, LocalPath>,
                b: map<string, LocalPath>)
    requires v.Obj? && k in v.fields && UpstreamOf(local) == Some(k) && AgreeOn(SourceKeys(v), a, b)
    ensures LocalUrl(v.fields[k], base, a) == LocalUrl(v.fields[k], base, b)
  {
    FieldsPairUp(local);
    assert FieldKeys(k, v.fields[k]) <= SourceKeys(v);
  }

  /** One row of `assets.image_assets`, in `id` order. */
  datatype AssetRow = AssetRow(key: string, ready: bool, storagePath: Option<string>, sha256: Option<string>)

  predicate Usable(row: AssetRow) {
    row.ready && row.storagePath.Some? && row.sha256.Some?
  }

  /** The local path of every key: the first usable row wins. */
  function FullTable(rows: seq<AssetRow>): map<string, LocalPath> {
    if rows == [] then map[]
    else
      var row, table := rows[|rows| - 1], FullTable(rows[..|rows| - 1]);
      if Usable(row) && row.key !in table then table[row.key := LocalPath(row.storagePath.value, row.sha256.value)]
      else table
  }

  /** The query: usable rows of the requested keys, in order. */
  function Queried(rows: seq<AssetRow>, keys: set<string>): (r: seq<AssetRow>)
    ensures forall i :: 0 <= i < |r| ==> Usable(r[i])
  {
    if rows == [] then []
    else
      var row := rows[|rows| - 1];
      Queried(rows[..|rows| - 1], keys) + if Usable(row) && row.key in keys then [row] else []
  }

  lemma {:induction false} QueriedTableAgrees(rows: seq<AssetRow>, keys: set<string>)
    ensures AgreeOn(keys, FullTable(Queried(rows, keys)), FullTable(rows))
    ensures FullTable(Queried(rows, keys)).Keys <= keys
    decreases |rows|
  {
    if rows != [] {
      var n, row := |rows| - 1, rows[|rows| - 1];
      QueriedTableAgrees(rows[..n], keys);
      var q := Queried(rows[..n], keys);
      assert q + [] == q;
      if Usable(row) && row.key in keys {
        var longer := q + [row];
        assert Queried(rows, keys) == longer && longer[..|q|] == q && longer[|longer| - 1] == row;
      }
    }
  }

  /**
   * `add_local_media_paths`: although only the mentioned keys are looked up, the answer is the one that a table of
   * every asset would give.
   */
  method AddLocalMediaPaths(v: Json, base: Option<string>, rows: seq<AssetRow>) returns (r: Json)
    ensures r == Annotate(v, base, FullTable(rows))
  {
    var keys := CollectMediaSourceKeys(v, {});
    var table: map<string, LocalPath> := map[];
    if keys != {} {
      var found := Queried(rows, keys);
      for i := 0 to |found|
        invariant table == FullTable(found[..i])
      {
        assert found[..i + 1][..i] == found[..i];
        if found[i].key !in table {
          table := table[found[i].key := LocalPath(found[i].storagePath.value, found[i].sha256.value)];
        }
      }
      assert found[..|found|] == found;
      QueriedTableAgrees(rows, keys);
    }
    OnlyMentionedKeysMatter(v, base, table, FullTable(rows));
    r := InsertLocalMediaPaths(v, base, table);
  }

  // ---- idempotence and erasure --------------------------------------------------------------------

  lemma {:induction false} AnnotateTwice(v: Json, base: Option<string>, table: map<string, LocalPath>)
    ensures Annotate(Annotate(v, base, table), base, table) == Annotate(v, base, table)
  {
    hide LocalField, UpstreamOf, LocalUrl;
    var w := Annotate(v, base, table);
    match v
    case Arr(items) =>
      forall i | 0 <= i < |items| { AnnotateTwice(items[i], base, table); }
      assert Annotate(w, base, table).items == w.items;
    case Obj(fields) =>
      forall k | k in fields { AnnotateTwice(fields[k], base, table); }
      forall k ensures k in Annotate(w, base, table).fields <==> k in w.fields {
        AnnotatedField(fields, base, table, k);
        AnnotatedField(w.fields, base, table, k);
        UpstreamUnchanged(fields, base, table, k);
      }
      forall k | k in w.fields ensures Annotate(w, base, table).fields[k] == w.fields[k] {
        AnnotatedField(fields, base, table, k);
        AnnotatedField(w.fields, base, table, k);
        UpstreamUnchanged(fields, base, table, k);
      }
      assert Annotate(w, base, table).fields == w.fields;
    case _ =>
  }

  /** Annotation keeps the presence and the value of every upstream image field. */
  lemma UpstreamUnchanged(fields: map<string, Json>, base: Option<string>, table: map<string, LocalPath>, k: string)
    ensures UpstreamOf(k).Some? ==>
              var u, w := UpstreamOf(k).value, Annotate(Obj(fields), base, table).fields;
              (u in w <==> u in fields) && (u in fields ==> w[u] == fields[u])
  {
    FieldsPairUp(k);
    if UpstreamOf(k).Some? {
      AnnotatedField(fields, base, table, UpstreamOf(k).value);
      FieldsPairUp(UpstreamOf(k).value);
    }
  }

  /** No object that the walk visits has a local field yet. */
  ghost predicate Plain(v: Json) {
    match v
    case Arr(items) => forall i :: 0 <= i < |items| ==> Plain(items[i])
    case Obj(fields) => forall k :: k in fields ==> UpstreamOf(k).None? && (LocalField(k).None? ==> Plain(fields[k]))
    case _ => true
  }

  /** Removes the local fields from every object that the walk visits. */
  ghost function Erase(v: Json): Json {
    match v
    case Arr(items) => Arr(seq(|items|, i requires 0 <= i < |items| => Erase(items[i])))
    case Obj(fields) =>
      Obj(map k | k in fields && UpstreamOf(k).None? :: if LocalField(k).Some? then fields[k] else Erase(fields[k]))
    case _ => v
  }

  /** Nothing but the local fields is changed: taking them out again gives back the original. */
  lemma {:induction false} EraseUndoesAnnotate(v: Json, base: Option<string>, table: map<string, LocalPath>)
    requires Plain(v)
    ensures Erase(Annotate(v, base, table)) == v
  {
    hide LocalField, UpstreamOf, LocalUrl;
    var w := Annotate(v, base, table);
    match v
    case Arr(items) =>
      forall i | 0 <= i < |items| { EraseUndoesAnnotate(items[i], base, table); }
      assert Erase(w).items == items;
    case Obj(fields) =>
      forall k | k in fields && LocalField(k).None? { EraseUndoesAnnotate(fields[k], base, table); }
      forall k ensures k in Erase(w).fields <==> k in fields {
        AnnotatedField(fields, base, table, k);
      }
      forall k | k in fields ensures Erase(w).fields[k] == fields[k] {
        AnnotatedField(fields, base, table, k);
      }
      assert Erase(w).fields == fields;
    case _ =>
  }
}
