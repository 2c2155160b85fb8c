// Which language row a title write touches, told from the field's text: two or three ASCII letters up to case, with
// white space around them.
module CatalogLanguages {
  import opened CatalogWrite
  import opened JobQueue
  import opened LockOrder
  import Text
  import opened Trimming

  /** The same character, or the same ASCII letter in the other case. */
  predicate SameLetter(a: char, b: char) {
    || a == b
    || ('A' <= a <= 'Z' && 'a' <= b <= 'z' && b as int - 'a' as int == a as int - 'A' as int)
    || ('a' <= a <= 'z' && 'A' <= b <= 'Z' && a as int - 'a' as int == b as int - 'A' as int)
  }

  predicate UpToCase(a: string, b: string) {
    |a| == |b| && forall i :: 0 <= i < |a| ==> SameLetter(a[i], b[i])
  }

  /** Two or three small ASCII letters that the text spells, up to case and the white space around it. */
  ghost predicate IsCodeOf(text: string, code: string) {
    && 2 <= |code| <= 3 && (forall i :: 0 <= i < |code| ==> 'a' <= code[i] <= 'z')
    && exists p, core, q :: Pads(text, p, core, q) && UpToCase(core, code)
  }

  lemma {:induction false} LettersAreNarrow(s: string)
    requires forall i :: 0 <= i < |s| ==> Text.IsAsciiLetter(s[i])
    ensures Text.Utf8Len(s) == |s|
  {
    if s != [] { LettersAreNarrow(s[1..]); }
  }

  // ---- the language row ---------------------------------------------------------------------------

  lemma NormalIsCode(text: string)
    requires NormalizeLanguage(text).Some?
    ensures IsCodeOf(text, NormalizeLanguage(text).value)
  {
    var core, code := Text.Trim(text), NormalizeLanguage(text).value;
    var p, q := TrimPads(text);
    LettersAreNarrow(code);
    assert UpToCase(core, code);
  }

  lemma CodeIsNormal(text: string, code: string)
    requires IsCodeOf(text, code)
    ensures Text.Trim(text) != [] && NormalizeLanguage(text) == Some(code)
  {
    var p, core, q :| Pads(text, p, core, q) && UpToCase(core, code);
    assert SameLetter(core[0], code[0]) && SameLetter(core[|core| - 1], code[|code| - 1]);
    TrimOf(text, p, core, q);
    assert Text.LowerAscii(core) == code;
    LettersAreNarrow(code);
  }

  /** The row of a language field is the code that its text spells, if it spells one. */
  lemma TouchesItsCode(language: Option<string>, l: Lock)
    ensures TouchesLanguage(language, l) <==>
            language.Some? && l.Row? && l.table.Languages? && l.key.Text? && IsCodeOf(language.value, l.key.s)
  {
    if language.Some? {
      var text := language.value;
      TrimTwice(text);
      if NormalizeLanguage(text).Some? { NormalIsCode(text); }
      if l.Row? && l.key.Text? && IsCodeOf(text, l.key.s) { CodeIsNormal(text, l.key.s); }
    }
  }

  /** The language row of a movie write is the code that its field spells, and there is no other. */
  lemma MovieLanguageRow(m: Movie, l: Lock)
    requires l.Row? && l.table.Languages?
    ensures MovieTouches(m, l) <==> m.language.Some? && l.key.Text? && IsCodeOf(m.language.value, l.key.s)
  {
    TouchesItsCode(m.language, l);
    hide TouchesLanguage, IsCodeOf;
  }

  /** Likewise for television. */
  lemma TvLanguageRow(t: Tv, l: Lock)
    requires l.Row? && l.table.Languages?
    ensures TvTouches(t, l) <==> t.language.Some? && l.key.Text? && IsCodeOf(t.language.value, l.key.s)
  {
    TouchesItsCode(t.language, l);
    hide TouchesLanguage, IsCodeOf;
  }

  /** A write accepts a language field exactly when it is absent, blank, or spells a code. */
  lemma LanguageIsValidIff(language: Option<string>)
    ensures ValidLanguage(language) <==>
            language.None? || Blank(language.value) || exists code :: IsCodeOf(language.value, code)
  {
    if language.Some? {
      var text := language.value;
      TrimTwice(text);
      var p, q := TrimPads(text);
      if Blank(text) {
        BlankTrims(text);
      } else {
        assert Text.Trim(text) != [];
      }
      if NormalizeLanguage(text).Some? { NormalIsCode(text); }
      if code :| IsCodeOf(text, code) { CodeIsNormal(text, code); }
    }
  }

  /** One text is the other up to the case of ASCII letters and the white space around it. */
  ghost predicate SameField(a: string, b: string) {
    exists p, x, q, r, y, s :: Pads(a, p, x, q) && Pads(b, r, y, s) && UpToCase(x, y)
  }

  /** The other text keeps white space and letters where the first has them. */
  lemma CoreUpToCase(x: string, y: string, u: string, core: string, v: string, code: string)
    requires UpToCase(x, y) && Pads(x, u, core, v) && Text.LowerAscii(core) == code
    requires forall i :: 0 <= i < |code| ==> 'a' <= code[i] <= 'z'
    ensures var i, j := |u|, |u| + |core|;
            j <= |y| && Blank(y[..i]) && Blank(y[j..]) && UpToCase(y[i..j], code)
  {
    var i, j := |u|, |u| + |core|;
    assert forall k :: 0 <= k < i ==> x[k] == u[k] && SameLetter(x[k], y[k]);
    assert forall k :: j <= k < |x| ==> x[k] == v[k - j] && SameLetter(x[k], y[k]);
    assert forall k :: 0 <= k < |core| ==> core[k] == x[i + k] && SameLetter(x[i + k], y[i + k]);
  }

  lemma SameFieldSpells(a: string, b: string, code: string)
    requires SameField(a, b) && IsCodeOf(a, code)
    ensures IsCodeOf(b, code)
  {
    hide Blank, UpToCase;
    var p, x, q, r, y, s :| Pads(a, p, x, q) && Pads(b, r, y, s) && UpToCase(x, y);
    CodeIsNormal(a, code);
    var u, v := TrimPads(x);
    var core := Text.Trim(x);
    TrimInside(a, p, x, q);
    CoreUpToCase(x, y, u, core, v, code);
    var i, j := |u|, |u| + |core|;
    PadsMore(b, r, y, s, i, j);
    assert Pads(b, r + y[..i], y[i..j], y[j..] + s);
  }

  lemma PadsMore(b: string, r: string, y: string, s: string, i: nat, j: nat)
    requires Pads(b, r, y, s) && i <= j <= |y| && Blank(y[..i]) && Blank(y[j..])
    ensures Pads(b, r + y[..i], y[i..j], y[j..] + s)
  {
    assert y == y[..i] + y[i..j] + y[j..];
  }

  lemma SameFieldIsSymmetric(a: string, b: string)
    requires SameField(a, b)
    ensures SameField(b, a)
  {
    var p, x, q, r, y, s :| Pads(a, p, x, q) && Pads(b, r, y, s) && UpToCase(x, y);
    assert Pads(b, r, y, s) && Pads(a, p, x, q) && UpToCase(y, x);
  }

  /** Fields that differ only in ASCII case and in the white space around them touch the same row. */
  lemma SameLanguageSameRow(a: string, b: string, l: Lock)
    requires SameField(a, b)
    ensures TouchesLanguage(Some(a), l) <==> TouchesLanguage(Some(b), l)
  {
    TouchesItsCode(Some(a), l);
    TouchesItsCode(Some(b), l);
    SameFieldIsSymmetric(a, b);
    hide TouchesLanguage, SameField;
    if l.Row? && l.key.Text? {
      if IsCodeOf(a, l.key.s) { SameFieldSpells(a, b, l.key.s); }
      if IsCodeOf(b, l.key.s) { SameFieldSpells(b, a, l.key.s); }
    }
  }
}
