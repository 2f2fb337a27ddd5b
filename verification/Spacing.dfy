/** Instants kept a minimum distance apart, and how many of them fit a window. */
module Spacing {

  ghost predicate Spaced(times: seq<int>, gap: nat)
  {
    forall i :: 0 <= i < |times| - 1 ==> times[i] + gap <= times[i + 1]
  }

  /** How many of the instants lie in [from, from + width]. */
  function InWindow(times: seq<int>, from: int, width: nat): nat
  {
    if times == [] then 0
    else
      var last := times[|times| - 1];
      InWindow(times[..|times| - 1], from, width) + (if from <= last <= from + width then 1 else 0)
  }

  function Gaps(k: nat, gap: nat): nat
  {
    if k == 0 then 0 else Gaps(k - 1, gap) + gap
  }

  /** With k instants in the window, the latest of them is k - 1 gaps into it. */
  lemma {:induction false} LatestInWindow(times: seq<int>, gap: nat, from: int, width: nat) returns (t: int)
    requires Spaced(times, gap)
    ensures var k := InWindow(times, from, width);
      k > 0 ==> times != [] && from + Gaps(k - 1, gap) <= t <= from + width && t <= times[|times| - 1]
  {
    t := from;
    if times != [] {
      var n := |times| - 1;
      var init := times[..n];
      t := LatestInWindow(init, gap, from, width);
      if n > 0 {
        assert init[n - 1] == times[n - 1] && times[n - 1] + gap <= times[n];
      }
      if from <= times[n] <= from + width {
        t := times[n];
      }
    }
  }

  lemma {:induction false} GapsIsProduct(k: nat, gap: nat)
    ensures Gaps(k, gap) == k * gap
  {
    if k > 0 {
      GapsIsProduct(k - 1, gap);
    }
  }

  /** Instants at least a gap apart: a window of width W holds at most 1 + W / gap of them. */
  lemma WindowHolds(times: seq<int>, gap: nat, from: int, width: nat)
    requires Spaced(times, gap)
    ensures (InWindow(times, from, width) - 1) * gap <= width
  {
    var t := LatestInWindow(times, gap, from, width);
    var k := InWindow(times, from, width);
    if k > 0 {
      GapsIsProduct(k - 1, gap);
    }
  }
}
