// Counting how many of a series of well-separated times can fall inside one window.
module Spacing {

  /** Each time is at least `gap` after the one before it. */
  predicate Spaced(times: seq<nat>, gap: nat) {
    forall i :: 0 < i < |times| ==> times[i - 1] + gap <= times[i]
  }

  /** How many of `times` lie in the half-open window from `lo` to `hi`. */
  function CountIn(times: seq<nat>, lo: nat, hi: nat): nat {
    if times == [] then 0
    else
      var last := times[|times| - 1];
      CountIn(times[..|times| - 1], lo, hi) + if lo <= last < hi then 1 else 0
  }

  lemma {:induction false} SpacedAscends(times: seq<nat>, gap: nat, i: nat, j: nat)
    requires Spaced(times, gap) && i < j < |times|
    ensures times[i] + gap <= times[j]
    decreases j
  {
    if i < j - 1 { SpacedAscends(times, gap, i, j - 1); }
  }

  lemma OneMore(a: nat, b: nat)
    ensures (a + 1) * b == a * b + b
  {
  }

  /** The latest counted time is as many gaps above `lo` as there are earlier counted ones. */
  lemma {:induction false} LatestCounted(times: seq<nat>, gap: nat, lo: nat, hi: nat) returns (i: nat)
    requires Spaced(times, gap) && CountIn(times, lo, hi) > 0
    ensures i < |times| && lo <= times[i] < hi
    ensures (CountIn(times, lo, hi) - 1) * gap <= times[i] - lo
    decreases |times|
  {
    var n := |times| - 1;
    var earlier := times[..n];
    if lo <= times[n] < hi {
      i := n;
      if CountIn(earlier, lo, hi) > 0 {
        var k := LatestCounted(earlier, gap, lo, hi);
        SpacedAscends(times, gap, k, n);
        var c := CountIn(earlier, lo, hi);
        OneMore(c - 1, gap);
      }
    } else {
      i := LatestCounted(earlier, gap, lo, hi);
    }
  }

  /** At most one time for each gap that the window holds, rounded up. */
  lemma WindowBound(times: seq<nat>, gap: nat, lo: nat, width: nat)
    requires Spaced(times, gap) && gap > 0
    ensures CountIn(times, lo, lo + width) <= (width + gap - 1) / gap
  {
    var c := CountIn(times, lo, lo + width);
    if c > 0 {
      var i := LatestCounted(times, gap, lo, lo + width);
      FewGaps(c, gap, width);
    }
  }

  lemma FewGaps(c: nat, gap: nat, width: nat)
    requires c > 0 && gap > 0 && (c - 1) * gap < width
    ensures c <= (width + gap - 1) / gap
  {
    var q := (width + gap - 1) / gap;
    Quotient(width + gap - 1, gap);
    if c > q { TimesMonotone(q, c - 1, gap); }
  }

  lemma Quotient(n: nat, d: nat)
    requires d > 0
    ensures (n / d) * d <= n < (n / d) * d + d
  {
  }

  lemma TimesMonotone(a: nat, b: nat, d: nat)
    requires a <= b
    ensures a * d <= b * d
  {
  }

  /** An evenly spaced burst from zero puts every time below `hi` in the window. */
  lemma {:induction false} EvenBurst(times: seq<nat>, gap: nat, hi: nat)
    requires forall k :: 0 <= k < |times| ==> times[k] == k * gap
    requires times != [] ==> (|times| - 1) * gap < hi
    ensures CountIn(times, 0, hi) == |times|
    decreases |times|
  {
    if times != [] {
      var n := |times| - 1;
      assert (n - 1) * gap + gap == n * gap;
      EvenBurst(times[..n], gap, hi);
    }
  }
}
