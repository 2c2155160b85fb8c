// What trimming leaves of a text: what lies between the white space at its ends.
module Trimming {
  import opened Text

  predicate Blank(s: string) {
    forall i :: 0 <= i < |s| ==> IsWhitespace(s[i])
  }

  /** `core` with white space around it. */
  predicate Pads(text: string, p: string, core: string, q: string) {
    text == p + core + q && Blank(p) && Blank(q)
  }

  lemma {:induction false} TrimStartDrops(s: string) returns (p: string)
    ensures s == p + TrimStart(s) && Blank(p)
    ensures TrimStart(s) == [] || !IsWhitespace(TrimStart(s)[0])
  {
    if s != [] && IsWhitespace(s[0]) {
      var rest := TrimStartDrops(s[1..]);
      p := [s[0]] + rest;
      assert s == [s[0]] + s[1..];
    } else {
      p := [];
    }
  }

  lemma {:induction false} TrimEndDrops(s: string) returns (q: string)
    ensures s == TrimEnd(s) + q && Blank(q)
    ensures TrimEnd(s) == [] || !IsWhitespace(TrimEnd(s)[|TrimEnd(s)| - 1])
  {
    if s != [] && IsWhitespace(s[|s| - 1]) {
      var rest := TrimEndDrops(s[..|s| - 1]);
      q := rest + [s[|s| - 1]];
      assert s == s[..|s| - 1] + [s[|s| - 1]];
    } else {
      q := [];
    }
  }

  /** It neither begins nor ends with white space. */
  predicate Tight(s: string) {
    s != [] && !IsWhitespace(s[0]) && !IsWhitespace(s[|s| - 1])
  }

  lemma TrimPads(s: string) returns (p: string, q: string)
    ensures Pads(s, p, Trim(s), q)
    ensures Trim(s) == [] || Tight(Trim(s))
  {
    p := TrimStartDrops(s);
    q := TrimEndDrops(TrimStart(s));
    var start, core := TrimStart(s), Trim(s);
    if core != [] { assert core[0] == start[0]; }
  }

  lemma {:induction false} TrimStartOf(p: string, s: string)
    requires Blank(p) && (s == [] || !IsWhitespace(s[0]))
    ensures TrimStart(p + s) == s
  {
    if p == [] {
      assert p + s == s;
    } else {
      assert (p + s)[1..] == p[1..] + s;
      TrimStartOf(p[1..], s);
    }
  }

  lemma {:induction false} TrimEndOf(s: string, q: string)
    requires Blank(q) && (s == [] || !IsWhitespace(s[|s| - 1]))
    ensures TrimEnd(s + q) == s
  {
    if q == [] {
      assert s + q == s;
    } else {
      assert (s + q)[..|s + q| - 1] == s + q[..|q| - 1];
      TrimEndOf(s, q[..|q| - 1]);
    }
  }

  /** What lies between the white space is what trimming leaves, when it neither begins nor ends with any. */
  lemma TrimOf(text: string, p: string, core: string, q: string)
    requires Pads(text, p, core, q) && Tight(core)
    ensures Trim(text) == core
  {
    assert text == p + (core + q);
    TrimStartOf(p, core + q);
    TrimEndOf(core, q);
  }

  lemma BlankTrims(s: string)
    requires Blank(s)
    ensures Trim(s) == []
  {
    assert s + [] == s;
    TrimStartOf(s, []);
  }

  lemma PadsInside(text: string, p: string, x: string, q: string, u: string, core: string, v: string)
    requires Pads(text, p, x, q) && Pads(x, u, core, v)
    ensures Pads(text, p + u, core, v + q)
  {
  }

  lemma TrimInside(text: string, p: string, x: string, q: string)
    requires Pads(text, p, x, q)
    ensures Trim(text) == Trim(x)
  {
    var u, v := TrimPads(x);
    PadsInside(text, p, x, q, u, Trim(x), v);
    if Trim(x) == [] {
      BlankTrims(text);
    } else {
      TrimOf(text, p + u, Trim(x), v + q);
    }
  }

  lemma TrimTwice(text: string)
    ensures Trim(Trim(text)) == Trim(text)
  {
    var p, q := TrimPads(text);
    TrimInside(text, p, Trim(text), q);
  }
}
