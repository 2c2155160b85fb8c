// What the annotator writes beside an image path, told from the characters of the key, the path and the digest, and
// from the columns of the asset rows.
module LocalMediaUrls {
  import opened JobQueue
  import opened LocalMedia
  import opened Text

  // ---- the parts of a path ------------------------------------------------------------------------

  /** A stretch between slashes, or between a slash and an end. */
  predicate Component(s: string, i: nat, j: nat) {
    && i <= j <= |s| && (i == 0 || s[i - 1] == '/') && (j == |s| || s[j] == '/')
    && forall k :: i <= k < j ==> s[k] != '/'
  }

  lemma Shift(s: string, i: nat, j: nat)
    requires 1 <= i <= j <= |s|
    ensures s[1..][i - 1..j - 1] == s[i..j]
  {
  }

  lemma {:induction false} PartIsComponent(s: string, n: nat) returns (i: nat, j: nat)
    requires n < |Parts(s)|
    ensures Component(s, i, j) && s[i..j] == Parts(s)[n] && (n == 0 <==> i == 0)
  {
    if s == [] {
      i, j := 0, 0;
    } else if s[0] == '/' {
      if n == 0 {
        i, j := 0, 0;
      } else {
        i, j := PartIsComponent(s[1..], n - 1);
        i, j := i + 1, j + 1;
        Shift(s, i, j);
      }
    } else {
      i, j := PartIsComponent(s[1..], n);
      if n == 0 {
        j := j + 1;
        assert s[0..j] == [s[0]] + s[1..][0..j - 1];
      } else {
        assert Parts(s)[n] == Parts(s[1..])[n] && s[1..][i - 1] == '/';
        i, j := i + 1, j + 1;
        Shift(s, i, j);
      }
    }
  }

  lemma {:induction false} ComponentIsPart(s: string, i: nat, j: nat) returns (n: nat)
    requires Component(s, i, j)
    ensures n < |Parts(s)| && Parts(s)[n] == s[i..j] && (n == 0 <==> i == 0)
  {
    if s == [] {
      n := 0;
    } else if s[0] == '/' {
      if i == 0 {
        n := 0;
        assert j == 0;
      } else {
        assert Component(s[1..], i - 1, j - 1);
        n := ComponentIsPart(s[1..], i - 1, j - 1);
        n := n + 1;
        Shift(s, i, j);
      }
    } else if i == 0 {
      assert j > 0;
      assert Component(s[1..], 0, j - 1);
      n := ComponentIsPart(s[1..], 0, j - 1);
      assert s[0..j] == [s[0]] + s[1..][0..j - 1];
    } else {
      assert i > 1;
      assert Component(s[1..], i - 1, j - 1);
      n := ComponentIsPart(s[1..], i - 1, j - 1);
      Shift(s, i, j);
      assert Parts(s)[n] == Parts(s[1..])[n];
    }
  }

  /** Not a control character, nor one that would end the path of a URL. */
  predicate Harmless(c: char) {
    !IsControl(c) && c != '?' && c != '#' && c != '\\'
  }

  /** No component is empty or names a directory above or in place. */
  ghost predicate Descends(s: string) {
    forall i: nat, j: nat :: Component(s, i, j) ==> i < j && s[i..j] != "." && s[i..j] != ".."
  }

  predicate PartsDescend(s: string) {
    forall n :: 0 <= n < |Parts(s)| ==> Parts(s)[n] != [] && Parts(s)[n] != "." && Parts(s)[n] != ".."
  }

  lemma PartsDescendIff(s: string)
    ensures PartsDescend(s) <==> Descends(s)
  {
    if Descends(s) {
      forall n | 0 <= n < |Parts(s)| ensures Parts(s)[n] != [] && Parts(s)[n] != "." && Parts(s)[n] != ".." {
        var i, j := PartIsComponent(s, n);
      }
    }
    if PartsDescend(s) {
      forall i: nat, j: nat | Component(s, i, j) ensures i < j && s[i..j] != "." && s[i..j] != ".." {
        var n := ComponentIsPart(s, i, j);
      }
    }
  }

  lemma HarmlessIff(s: string)
    ensures !HasControl(s) && !HasDelimiter(s) <==> forall k :: 0 <= k < |s| ==> Harmless(s[k])
  {
    if !HasControl(s) && !HasDelimiter(s) {
      forall k | 0 <= k < |s| ensures Harmless(s[k]) { }
    }
  }

  /** A storage path is safe when it is relative, at most 512 bytes long, harmless throughout and only descends. */
  lemma SafePathIff(s: string)
    ensures IsSafePath(s) <==>
            && s != [] && Utf8Len(s) <= 512 && s[0] != '/' && (forall k :: 0 <= k < |s| ==> Harmless(s[k]))
            && Descends(s)
  {
    PartsDescendIff(s);
    HarmlessIff(s);
    hide Descends, HasControl, HasDelimiter, Harmless, Utf8Len, Parts;
  }

  /** A source key is a slash and harmless characters, at most 512 bytes, without two dots in a row. */
  lemma SourceKeyIff(s: string)
    ensures IsSourceKey(s) <==>
            && s != [] && Utf8Len(s) <= 512 && s[0] == '/' && (forall k :: 0 <= k < |s| ==> Harmless(s[k]))
            && forall k :: 0 < k < |s| ==> s[k - 1] != '.' || s[k] != '.'
  {
    HarmlessIff(s);
    hide HasControl, HasDelimiter, Harmless, Utf8Len;
    if forall k :: 0 < k < |s| ==> s[k - 1] != '.' || s[k] != '.' {
      forall i | 0 <= i < |s| - 1 ensures !(s[i] == '.' && s[i + 1] == '.') { assert s[i + 1 - 1] == s[i]; }
    }
  }

  /** A digest is 64 hexadecimal digits, small or capital. */
  lemma DigestIff(s: string)
    ensures IsDigest(s) <==>
            |s| == 64 && forall i :: 0 <= i < |s| ==> s[i] in "0123456789" || s[i] in "abcdef" || s[i] in "ABCDEF"
  {
    forall c: char ensures IsHex(c) <==> c in "0123456789" || c in "abcdef" || c in "ABCDEF" { HexIsListed(c); }
  }

  lemma HexIsListed(c: char)
    ensures IsHex(c) <==> c in "0123456789" || c in "abcdef" || c in "ABCDEF"
  {
    var d, s, l := "0123456789", "abcdef", "ABCDEF";
    assert d == ['0', '1', '2', '3', '4', '5', '6', '7', '8', '9'];
    assert s == ['a', 'b', 'c', 'd', 'e', 'f'] && l == ['A', 'B', 'C', 'D', 'E', 'F'];
    if IsHex(c) {
      if c <= '9' { assert c == d[c as int - '0' as int]; }
      else if c >= 'a' { assert c == s[c as int - 'a' as int]; }
      else { assert c == l[c as int - 'A' as int]; }
    }
  }

  // ---- the text of a local URL --------------------------------------------------------------------

  /** The base, a slash, the storage path, and the first sixteen characters of the digest as the version. */
  predicate Spells(url: string, base: string, path: string, digest: string) {
    var n, m := |base| + 1, |base| + 1 + |path|;
    && |digest| >= 16 && |url| == m + 19
    && url[..|base|] == base && url[|base|] == '/' && url[n..m] == path
    && url[m] == '?' && url[m + 1] == 'v' && url[m + 2] == '=' && url[m + 3..] == digest[..16]
  }

  /** A field gets a URL exactly when its key is known and well formed, and the row of the key is; else it gets null. */
  lemma LocalUrlIff(value: Json, base: Option<string>, table: map<string, LocalPath>, url: string)
    ensures LocalUrl(value, base, table) == Str(url) <==>
            && value.Str? && base.Some? && value.s in table
            && IsSourceKey(value.s) && IsSafePath(table[value.s].storagePath) && IsDigest(table[value.s].sha256)
            && Spells(url, base.value, table[value.s].storagePath, table[value.s].sha256)
    ensures !LocalUrl(value, base, table).Str? ==> LocalUrl(value, base, table) == Null
  {
    hide IsSourceKey, IsSafePath, IsHex;
    if value.Str? && base.Some? && value.s in table && IsDigest(table[value.s].sha256) {
      var path, digest := table[value.s].storagePath, table[value.s].sha256;
      var text := base.value + "/" + path + "?v=" + digest[..16];
      assert Spells(text, base.value, path, digest);
      if Spells(url, base.value, path, digest) { SpelledOnce(url, text, base.value, path, digest); }
    }
  }

  lemma SpelledOnce(a: string, b: string, base: string, path: string, digest: string)
    requires Spells(a, base, path, digest) && Spells(b, base, path, digest)
    ensures a == b
  {
    var n, m := |base| + 1, |base| + 1 + |path|;
    assert a == a[..|base|] + [a[|base|]] + a[n..m] + [a[m], a[m + 1], a[m + 2]] + a[m + 3..];
    assert b == b[..|base|] + [b[|base|]] + b[n..m] + [b[m], b[m + 1], b[m + 2]] + b[m + 3..];
  }

  /** Under one base, a URL names one file and one version of it. */
  lemma UrlNamesOneFile(url: string, base: string, p: string, d: string, q: string, e: string)
    requires Spells(url, base, p, d) && Spells(url, base, q, e)
    ensures p == q && d[..16] == e[..16]
  {
  }

  // ---- the table of local paths -------------------------------------------------------------------

  /** Row `i` is the first of its key that is ready and has a path and a digest. */
  predicate FirstReady(rows: seq<AssetRow>, i: nat)
    requires i < |rows|
  {
    && rows[i].ready && rows[i].storagePath.Some? && rows[i].sha256.Some?
    && forall j :: 0 <= j < i && rows[j].key == rows[i].key ==>
         !rows[j].ready || rows[j].storagePath.None? || rows[j].sha256.None?
  }

  lemma {:induction false} EntryIsFirstReady(rows: seq<AssetRow>, k: string) returns (i: nat)
    requires k in FullTable(rows)
    ensures i < |rows| && rows[i].key == k && FirstReady(rows, i)
    ensures FullTable(rows)[k] == LocalPath(rows[i].storagePath.value, rows[i].sha256.value)
  {
    var n := |rows| - 1;
    if k in FullTable(rows[..n]) {
      i := EntryIsFirstReady(rows[..n], k);
    } else {
      i := n;
      forall j | 0 <= j < n && rows[j].key == k ensures !Usable(rows[j]) {
        if Usable(rows[j]) { ReadyIsEntered(rows[..n], j); }
      }
    }
  }

  lemma {:induction false} ReadyIsEntered(rows: seq<AssetRow>, i: nat)
    requires i < |rows| && Usable(rows[i])
    ensures rows[i].key in FullTable(rows)
  {
    var n := |rows| - 1;
    if i < n { ReadyIsEntered(rows[..n], i); }
  }

  /** The table has the first ready row of each key, and nothing for a key that has none. */
  lemma TableHasFirstReady(rows: seq<AssetRow>, i: nat, k: string)
    requires i < |rows|
    ensures FirstReady(rows, i) ==>
              rows[i].key in FullTable(rows)
              && FullTable(rows)[rows[i].key] == LocalPath(rows[i].storagePath.value, rows[i].sha256.value)
    ensures k in FullTable(rows) ==> exists j :: 0 <= j < |rows| && rows[j].key == k && FirstReady(rows, j)
  {
    if k in FullTable(rows) { var j := EntryIsFirstReady(rows, k); }
    if FirstReady(rows, i) {
      ReadyIsEntered(rows, i);
      var j := EntryIsFirstReady(rows, rows[i].key);
      assert i == j;
    }
  }
}
