/** Choosing segment boundaries among keyframes (FilterKeyframes in src/Demuxer.cpp). */
module Keyframes {

  /** The number of whole targets that have passed at the latest of raw[1..n], and at least none. */
  function Reached(raw: seq<int>, target: int, n: nat): (r: nat)
    requires target > 0 && n <= |raw|
  {
    if n <= 1 then 0
    else Max(Reached(raw, target, n - 1), raw[n - 1] / target)
  }

  function Max(a: int, b: int): int {
    if a < b then b else a
  }

  /** Whether the selection loop keeps raw[i]: it passes a multiple of the target that none of raw[1..i] passed. */
  predicate Kept(raw: seq<int>, target: int, i: nat)
    requires target > 0 && i < |raw|
  {
    i == 0 || raw[i] / target > Reached(raw, target, i)
  }

  /** The keyframes kept among the first `n`. */
  function Selected(raw: seq<int>, target: int, n: nat): seq<int>
    requires target > 0 && n <= |raw|
  {
    if n == 0 then []
    else Selected(raw, target, n - 1) + (if Kept(raw, target, n - 1) then [raw[n - 1]] else [])
  }

  function Filtered(raw: seq<int>, target: int): seq<int>
    requires target > 0
  {
    if |raw| < 2 then raw
    else
      var s := Selected(raw, target, |raw|);
      if s != [] && s[|s| - 1] != raw[|raw| - 1] then s + [raw[|raw| - 1]] else s
  }

  lemma DivTimes(v: int, target: int)
    requires target > 0
    ensures v == v / target * target + v % target && 0 <= v % target < target
  {
  }

  lemma TimesMonotone(a: int, b: int, target: int)
    requires a <= b && target >= 0
    ensures a * target <= b * target
  {
    assert (b - a) * target >= 0;
    assert (b - a) * target == b * target - a * target;
  }

  /** v reaches the k-th multiple of the target exactly when k whole targets fit below it. */
  lemma ReachesMultiple(v: int, target: int, k: int)
    requires target > 0
    ensures v >= k * target <==> v / target >= k
  {
    DivTimes(v, target);
    if v / target >= k {
      TimesMonotone(k, v / target, target);
    } else {
      TimesMonotone(v / target + 1, k, target);
      assert (v / target + 1) * target == v / target * target + target;
    }
  }

  method FilterKeyframes(raw: seq<int>, target: int) returns (filtered: seq<int>)
    requires target > 0
    ensures filtered == Filtered(raw, target)
  {
    if |raw| < 2 {
      return raw;
    }
    filtered := [raw[0]];
    var nextTarget := target;
    ghost var k := 1;
    assert Selected(raw, target, 0) == [];
    assert Selected(raw, target, 1) == [raw[0]];
    for i := 1 to |raw|
      invariant filtered == Selected(raw, target, i)
      invariant k == Reached(raw, target, i) + 1 && nextTarget == k * target
      invariant filtered != []
    {
      hide Selected;
      ReachesMultiple(raw[i], target, k);
      if raw[i] >= nextTarget {
        filtered := filtered + [raw[i]];
        while nextTarget <= raw[i]
          invariant nextTarget == k * target && k <= raw[i] / target + 1
          decreases raw[i] / target + 1 - k
        {
          ReachesMultiple(raw[i], target, k);
          ReachesMultiple(raw[i], target, k + 1);
          assert (k + 1) * target == k * target + target;
          nextTarget := nextTarget + target;
          k := k + 1;
        }
        ReachesMultiple(raw[i], target, k);
      }
      SelectedNext(raw, target, i);
    }
    if filtered[|filtered| - 1] != raw[|raw| - 1] {
      filtered := filtered + [raw[|raw| - 1]];
    }
  }

  lemma SelectedNext(raw: seq<int>, target: int, i: nat)
    requires target > 0 && i < |raw|
    ensures Selected(raw, target, i + 1)
         == Selected(raw, target, i) + (if Kept(raw, target, i) then [raw[i]] else [])
  {
    hide Kept;
  }

  // ---- which keyframes are kept ----

  predicate StrictlyIncreasing(s: seq<int>) {
    forall i, j :: 0 <= i < j < |s| ==> s[i] < s[j]
  }

  /** The first keyframe, the last one, and every one that lies in a later target-long interval than the one before. */
  predicate Wanted(raw: seq<int>, target: int, i: nat)
    requires target > 0 && i < |raw|
  {
    i == 0 || i == |raw| - 1 || raw[i] / target > raw[i - 1] / target
  }

  function WantedAmong(raw: seq<int>, target: int, n: nat): seq<int>
    requires target > 0 && n <= |raw|
  {
    if n == 0 then []
    else WantedAmong(raw, target, n - 1) + (if Wanted(raw, target, n - 1) then [raw[n - 1]] else [])
  }

  lemma DivMonotone(a: int, b: int, target: int)
    requires target > 0 && a <= b
    ensures a / target <= b / target
  {
    DivTimes(a, target);
    ReachesMultiple(b, target, a / target);
  }

  lemma {:induction false} ReachedIsLast(raw: seq<int>, target: int, n: nat)
    requires target > 0 && 1 <= n <= |raw| && StrictlyIncreasing(raw) && raw[0] >= 0
    ensures Reached(raw, target, n) == if n == 1 then 0 else raw[n - 1] / target
  {
    if n > 1 {
      ReachedIsLast(raw, target, n - 1);
      DivMonotone(raw[n - 2], raw[n - 1], target);
      DivMonotone(0, raw[n - 1], target);
    }
  }

  lemma {:induction false} SelectedIsWanted(raw: seq<int>, target: int, n: nat)
    requires target > 0 && n < |raw| && StrictlyIncreasing(raw) && raw[0] >= 0
    requires |raw| < 3 || raw[0] < target || raw[1] / target > raw[0] / target
    ensures Selected(raw, target, n) == WantedAmong(raw, target, n)
  {
    if n > 1 {
      SelectedIsWanted(raw, target, n - 1);
      ReachedIsLast(raw, target, n - 1);
      DivMonotone(0, raw[0], target);
      ReachesMultiple(raw[0], target, 1);
      ReachesMultiple(raw[1], target, 1);
    } else if n == 1 {
      SelectedIsWanted(raw, target, 0);
    }
  }

  lemma {:induction false} SelectedMembers(raw: seq<int>, target: int, n: nat, i: nat)
    requires target > 0 && i < n <= |raw|
    ensures Kept(raw, target, i) ==> raw[i] in Selected(raw, target, n)
  {
    if i < n - 1 {
      SelectedMembers(raw, target, n - 1, i);
    }
  }

  lemma {:induction false} WantedMembers(raw: seq<int>, target: int, n: nat, v: int)
    requires target > 0 && n <= |raw| && v in WantedAmong(raw, target, n)
    ensures exists i :: 0 <= i < n && raw[i] == v && Wanted(raw, target, i)
  {
    hide Wanted;
    if v in WantedAmong(raw, target, n - 1) {
      WantedMembers(raw, target, n - 1, v);
    } else {
      assert raw[n - 1] == v && Wanted(raw, target, n - 1);
    }
  }

  /** The filter keeps exactly the wanted keyframes, unless the first one lies past the target and the second one in
      the same interval: the second is then kept although it should not be. */
  lemma KeepsWantedExactly(raw: seq<int>, target: int)
    requires target > 0 && raw != [] && StrictlyIncreasing(raw) && raw[0] >= 0
    ensures Filtered(raw, target) == WantedAmong(raw, target, |raw|)
       <==> |raw| < 3 || raw[0] < target || raw[1] / target > raw[0] / target
  {
    var n := |raw|;
    if n == 1 {
      assert WantedAmong(raw, target, 0) == [];
    } else if n < 3 || raw[0] < target || raw[1] / target > raw[0] / target {
      SelectedIsWanted(raw, target, n - 1);
      LastIsIn(raw, target);
    } else {
      SecondIsKept(raw, target);
      DivMonotone(raw[0], raw[1], target);
      if raw[1] in WantedAmong(raw, target, n) {
        WantedMembers(raw, target, n, raw[1]);
      }
    }
  }

  lemma LastIsIn(raw: seq<int>, target: int)
    requires target > 0 && |raw| >= 2 && StrictlyIncreasing(raw)
    ensures Filtered(raw, target) == Selected(raw, target, |raw| - 1) + [raw[|raw| - 1]]
  {
    hide Kept;
    SelectedBelow(raw, target, |raw| - 1);
  }

  lemma SecondIsKept(raw: seq<int>, target: int)
    requires target > 0 && |raw| >= 2 && StrictlyIncreasing(raw) && raw[0] >= target
    ensures raw[1] in Filtered(raw, target)
  {
    ReachesMultiple(raw[1], target, 1);
    assert Kept(raw, target, 1);
    SelectedMembers(raw, target, |raw|, 1);
  }

  /** A stream whose first keyframe lies past the target: the second keyframe, two seconds later, becomes a boundary. */
  lemma LateFirstKeyframe()
    ensures Filtered([12000, 14000, 23000], 10000) == [12000, 14000, 23000]
    ensures WantedAmong([12000, 14000, 23000], 10000, 3) == [12000, 23000]
  {
    var raw := [12000, 14000, 23000];
    assert Reached(raw, 10000, 1) == 0 && Reached(raw, 10000, 2) == 1;
    assert Selected(raw, 10000, 1) == [12000];
    assert Selected(raw, 10000, 2) == [12000, 14000];
    assert WantedAmong(raw, 10000, 1) == [12000];
    assert WantedAmong(raw, 10000, 2) == [12000];
  }

  lemma FirstIsKept(raw: seq<int>, target: int)
    requires target > 0 && raw != []
    ensures Kept(raw, target, 0)
  {
  }

  lemma {:induction false} SelectedBelow(raw: seq<int>, target: int, n: nat)
    requires target > 0 && n <= |raw| && StrictlyIncreasing(raw)
    ensures var s := Selected(raw, target, n);
            && StrictlyIncreasing(s)
            && (n > 0 ==> s != [] && s[0] == raw[0] && forall k :: 0 <= k < |s| ==> s[k] <= raw[n - 1])
  {
    hide Kept;
    if n > 0 {
      SelectedBelow(raw, target, n - 1);
      FirstIsKept(raw, target);
      var s, before := Selected(raw, target, n), Selected(raw, target, n - 1);
      if n > 1 {
        assert raw[n - 2] < raw[n - 1];
        assert forall k :: 0 <= k < |before| ==> before[k] < raw[n - 1];
      }
    }
  }

  /** The boundaries are strictly increasing, and run from the first keyframe to the last. */
  lemma FilteredIncreases(raw: seq<int>, target: int)
    requires target > 0 && raw != [] && StrictlyIncreasing(raw)
    ensures var f := Filtered(raw, target);
            StrictlyIncreasing(f) && f != [] && f[0] == raw[0] && f[|f| - 1] == raw[|raw| - 1]
  {
    SelectedBelow(raw, target, |raw|);
    var s, last := Selected(raw, target, |raw|), raw[|raw| - 1];
    hide Selected;
    if s[|s| - 1] != last {
      assert forall k :: 0 <= k < |s| ==> s[k] <= s[|s| - 1] < last;
    }
  }

  // ---- how long segments get ----

  predicate GapsAtMost(s: seq<int>, gap: int) {
    forall i {:trigger s[i]} :: 0 < i < |s| ==> s[i] - s[i - 1] <= gap
  }

  predicate GapsBelow(s: seq<int>, gap: int) {
    forall i {:trigger s[i]} :: 0 < i < |s| ==> s[i] - s[i - 1] < gap
  }

  lemma {:induction false} SelectedGaps(raw: seq<int>, target: int, gap: int, n: nat)
    requires target > 0 && 1 <= n <= |raw| && raw[0] >= 0 && GapsAtMost(raw, gap)
    ensures var s := Selected(raw, target, n);
            && s != [] && GapsBelow(s, target + gap)
            && Reached(raw, target, n) * target <= s[|s| - 1]
            && (s[|s| - 1] == raw[n - 1] || raw[n - 1] < Reached(raw, target, n) * target + target)
  {
    if n == 1 {
      assert Selected(raw, target, 0) == [];
    } else {
      SelectedGaps(raw, target, gap, n - 1);
      var r := Reached(raw, target, n - 1);
      ReachesMultiple(raw[n - 1], target, r + 1);
      DivTimes(raw[n - 1], target);
      assert (r + 1) * target == r * target + target;
      assert raw[n - 1] - raw[n - 2] <= gap;
    }
  }

  /** If keyframes are at most `gap` apart, every segment is shorter than the target and one gap. */
  lemma SegmentLengths(raw: seq<int>, target: int, gap: nat)
    requires target > 0 && raw != [] && raw[0] >= 0 && GapsAtMost(raw, gap)
    ensures GapsBelow(Filtered(raw, target), target + gap)
  {
    if |raw| >= 2 {
      SelectedGaps(raw, target, gap, |raw|);
      assert raw[1] - raw[0] <= gap;
    }
  }
}
