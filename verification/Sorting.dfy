// Orders and sorting used by the catalog writers and the fan-out loops.
module Sorting {

  predicate StringLeq(a: string, b: string) {
    a == [] || (b != [] && (a[0] < b[0] || (a[0] == b[0] && StringLeq(a[1..], b[1..]))))
  }

  lemma {:induction false} StringLeqTotal(a: string, b: string)
    ensures StringLeq(a, b) || StringLeq(b, a)
    ensures StringLeq(a, b) && StringLeq(b, a) ==> a == b
    decreases |a|
  {
    if a != [] && b != [] && a[0] == b[0] {
      StringLeqTotal(a[1..], b[1..]);
      assert a == [a[0]] + a[1..] && b == [b[0]] + b[1..];
    }
  }

  lemma {:induction false} StringLeqTransitive(a: string, b: string, c: string)
    requires StringLeq(a, b) && StringLeq(b, c)
    ensures StringLeq(a, c)
    decreases |a|
  {
    if a != [] && a[0] == b[0] && b[0] == c[0] { StringLeqTransitive(a[1..], b[1..], c[1..]); }
  }

  predicate Sorted(s: seq<int>) {
    forall i, j :: 0 <= i < j < |s| ==> s[i] <= s[j]
  }

  function Insert(x: int, s: seq<int>): (r: seq<int>)
    requires Sorted(s)
    ensures Sorted(r) && |r| == |s| + 1 && forall y :: y in r <==> y == x || y in s
  {
    if s == [] || x <= s[0] then [x] + s
    else
      var rest := Insert(x, s[1..]);
      assert forall y :: y in s[1..] ==> s[0] <= y;
      assert forall y :: y in rest ==> s[0] <= y;
      assert forall k :: 0 <= k < |rest| ==> s[0] <= rest[k] by {
        forall k | 0 <= k < |rest| ensures s[0] <= rest[k] { assert rest[k] in rest; }
      }
      [s[0]] + rest
  }

  lemma {:induction false} InsertAdds(x: int, s: seq<int>)
    requires Sorted(s)
    ensures multiset(Insert(x, s)) == multiset(s) + multiset{x}
  {
    if s != [] && x > s[0] {
      InsertAdds(x, s[1..]);
      assert s == [s[0]] + s[1..];
    }
  }

  /** `sort_unstable_by_key` on ids: the order of equal ids is immaterial. */
  function Sort(s: seq<int>): (r: seq<int>)
    ensures Sorted(r) && forall y :: y in r <==> y in s
  {
    if s == [] then [] else Insert(s[0], Sort(s[1..]))
  }

  lemma {:induction false} SortPermutes(s: seq<int>)
    ensures multiset(Sort(s)) == multiset(s)
  {
    hide Insert;
    if s != [] {
      SortPermutes(s[1..]);
      InsertAdds(s[0], Sort(s[1..]));
      assert s == [s[0]] + s[1..];
    }
  }

  /** The last element of `x` found in a permutation of it, and what is left on both sides. */
  lemma TakeOutLast<T>(x: seq<T>, y: seq<T>) returns (a: seq<T>, b: seq<T>)
    requires multiset(x) == multiset(y) && x != []
    ensures y == a + [x[|x| - 1]] + b && multiset(x[..|x| - 1]) == multiset(a + b)
    ensures |a + b| == |x| - 1
  {
    var n := |x| - 1;
    assert x == x[..n] + [x[n]];
    assert x[n] in multiset(y);
    var k :| 0 <= k < |y| && y[k] == x[n];
    a, b := y[..k], y[k + 1..];
    assert y == a + [x[n]] + b;
    assert multiset(y) == multiset(a) + multiset{x[n]} + multiset(b);
    assert multiset(x[..n]) == multiset(x) - multiset{x[n]} == multiset(a) + multiset(b);
    assert |multiset(x[..n])| == |multiset(a + b)|;
  }

  lemma SameLength<T>(x: seq<T>, y: seq<T>)
    requires multiset(x) == multiset(y)
    ensures |x| == |y|
  {
    assert |multiset(x)| == |multiset(y)|;
  }
}
