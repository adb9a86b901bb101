/** The durations and the target duration that a manifest gives the segments between boundaries
    (src/HlsManifest.cpp; RFC 8216, section 4.3.3.1). */
module HlsManifest {
  import opened Keyframes
  import opened Wrappers

  /** The numbers of a manifest with at least one segment. */
  datatype Manifest = Manifest(targetDuration: int, durations: seq<real>)

  function Seconds(ms: int): real {
    ms as real / 1000.0
  }

  function Ceil(x: real): int {
    -((-x).Floor)
  }

  /** The nearest integer, halves up. */
  function Round(x: real): int {
    (x + 0.5).Floor
  }

  function Durations(keyframes: seq<int>): (d: seq<real>)
    ensures |d| == if keyframes == [] then 0 else |keyframes| - 1
  {
    seq(if keyframes == [] then 0 else |keyframes| - 1,
        i requires 0 <= i && i + 1 < |keyframes| => Seconds(keyframes[i + 1] - keyframes[i]))
  }

  function Total(durations: seq<real>): real {
    if durations == [] then 0.0 else Total(durations[..|durations| - 1]) + durations[|durations| - 1]
  }

  method SegmentDurations(keyframes: seq<int>) returns (durations: seq<real>)
    ensures durations == Durations(keyframes)
  {
    durations := [];
    if |keyframes| < 2 {
      return;
    }
    for i := 1 to |keyframes|
      invariant |durations| == i - 1
      invariant forall j :: 0 <= j < i - 1 ==> durations[j] == Seconds(keyframes[j + 1] - keyframes[j])
    {
      var dur := (keyframes[i] - keyframes[i - 1]) as real / 1000.0;
      durations := durations + [dur];
    }
  }

  method MaxElement(s: seq<real>) returns (max: real)
    requires s != []
    ensures max in s && forall i :: 0 <= i < |s| ==> s[i] <= max
  {
    max := s[0];
    for i := 1 to |s|
      invariant max in s && forall j :: 0 <= j < i ==> s[j] <= max
    {
      if max < s[i] {
        max := s[i];
      }
    }
  }

  /** The least whole number of seconds, and at least one, that no segment exceeds. */
  ghost predicate IsTarget(keyframes: seq<int>, target: int) {
    && target >= 1
    && GapsAtMost(keyframes, 1000 * target)
    && (target > 1 ==> !GapsAtMost(keyframes, 1000 * (target - 1)))
  }

  method Generate(keyframes: seq<int>) returns (m: Option<Manifest>)
    ensures |keyframes| < 2 ==> m == None
    ensures |keyframes| >= 2 ==>
              m.Some? && m.value.durations == Durations(keyframes) && IsTarget(keyframes, m.value.targetDuration)
  {
    if |keyframes| < 2 {
      return None;
    }
    var durations := SegmentDurations(keyframes);
    var maxDuration := MaxElement(durations);
    var targetDuration := Ceil(maxDuration);
    if targetDuration < 1 {
      targetDuration := 1;
    }
    CeilingOfMax(keyframes, maxDuration);
    return Some(Manifest(targetDuration, durations));
  }

  lemma CeilingOfMax(keyframes: seq<int>, max: real)
    requires |keyframes| >= 2 && max in Durations(keyframes)
    requires forall i :: 0 <= i < |keyframes| - 1 ==> Durations(keyframes)[i] <= max
    ensures IsTarget(keyframes, if Ceil(max) < 1 then 1 else Ceil(max))
  {
    hide *;
    var d := Durations(keyframes);
    var k :| 0 <= k < |d| && d[k] == max;
    var longest := keyframes[k + 1] - keyframes[k];
    DurationAt(keyframes, k);
    CeilSeconds(longest);
    AllGaps(keyframes, longest);
    IsTargetIf(keyframes, k, if Ceil(max) < 1 then 1 else Ceil(max));
  }

  lemma DurationAt(keyframes: seq<int>, i: nat)
    requires i + 1 < |keyframes|
    ensures |Durations(keyframes)| == |keyframes| - 1
    ensures Durations(keyframes)[i] == Seconds(keyframes[i + 1] - keyframes[i])
  {
    hide Seconds;
  }

  lemma SecondsInOrder(a: int, b: int)
    ensures Seconds(a) <= Seconds(b) <==> a <= b
  {
  }

  lemma AllGaps(keyframes: seq<int>, longest: int)
    requires keyframes != [] && forall i :: 0 <= i < |keyframes| - 1 ==> Durations(keyframes)[i] <= Seconds(longest)
    ensures GapsAtMost(keyframes, longest)
  {
    hide Durations, Seconds;
    forall i {:trigger keyframes[i]} | 0 < i < |keyframes|
      ensures keyframes[i] - keyframes[i - 1] <= longest
    {
      DurationAt(keyframes, i - 1);
      SecondsInOrder(keyframes[i] - keyframes[i - 1], longest);
    }
  }

  lemma IsTargetIf(keyframes: seq<int>, k: nat, target: int)
    requires k + 1 < |keyframes| && GapsAtMost(keyframes, keyframes[k + 1] - keyframes[k])
    requires target >= 1 && keyframes[k + 1] - keyframes[k] <= 1000 * target
    requires target > 1 ==> 1000 * (target - 1) < keyframes[k + 1] - keyframes[k]
    ensures IsTarget(keyframes, target)
  {
    assert keyframes[k + 1] - keyframes[k] == keyframes[k + 1] - keyframes[k + 1 - 1];
  }

  /** Whole seconds are the ceiling of a duration in milliseconds exactly when they are the least that reach it. */
  lemma CeilSeconds(ms: int)
    ensures 1000 * (Ceil(Seconds(ms)) - 1) < ms <= 1000 * Ceil(Seconds(ms))
  {
    var x, n := Seconds(ms), Ceil(Seconds(ms));
    assert x <= n as real && x > (n - 1) as real;
    assert x * 1000.0 == ms as real;
    assert ms as real <= n as real * 1000.0 == (n * 1000) as real;
    assert ms as real > (n - 1) as real * 1000.0 == ((n - 1) * 1000) as real;
  }

  /** What a manifest needs of its target duration: it bounds each duration rounded to the nearest second, and it is
      at most the ceiling of any bound on the segments. */
  lemma TargetDuration(keyframes: seq<int>, target: int, bound: nat)
    requires |keyframes| >= 2 && GapsBelow(keyframes, bound) && bound > 0
    requires IsTarget(keyframes, target)
    ensures forall i :: 0 <= i < |keyframes| - 1 ==> Round(Durations(keyframes)[i]) <= target
    ensures target <= Ceil(Seconds(bound))
  {
    forall i | 0 <= i < |keyframes| - 1
      ensures Round(Durations(keyframes)[i]) <= target
    {
      assert keyframes[i + 1] - keyframes[i] <= 1000 * target;
      RoundSeconds(keyframes[i + 1] - keyframes[i], target);
    }
    CeilSeconds(bound);
  }

  lemma RoundSeconds(ms: int, target: int)
    requires ms <= 1000 * target
    ensures Round(Seconds(ms)) <= target
  {
    assert ms as real <= (1000 * target) as real == 1000.0 * target as real;
    assert Seconds(ms) <= target as real;
  }

  /** The segments of a filtered list: as long together as from its first keyframe to its last, each shorter than the
      target and one gap, and so is the target duration that is announced, up to rounding. */
  lemma ManifestOfFiltered(raw: seq<int>, target: int, gap: nat, announced: int)
    requires target > 0 && |raw| >= 2 && raw[0] >= 0 && StrictlyIncreasing(raw) && GapsAtMost(raw, gap)
    requires IsTarget(Filtered(raw, target), announced)
    ensures Total(Durations(Filtered(raw, target))) == Seconds(raw[|raw| - 1] - raw[0])
    ensures GapsBelow(Filtered(raw, target), target + gap)
    ensures announced <= Ceil(Seconds(target + gap))
  {
    var f := Filtered(raw, target);
    FilteredIncreases(raw, target);
    SegmentLengths(raw, target, gap);
    assert f[0] != f[|f| - 1];
    hide Filtered;
    TargetDuration(f, announced, target + gap);
    TotalOfDurations(f);
  }

  lemma {:induction false} TotalOfDurations(keyframes: seq<int>)
    requires keyframes != []
    ensures Total(Durations(keyframes)) == Seconds(keyframes[|keyframes| - 1] - keyframes[0])
  {
    var n := |keyframes| - 1;
    if n > 0 {
      TotalOfDurations(keyframes[..n]);
      assert Durations(keyframes)[..n - 1] == Durations(keyframes[..n]);
    }
  }
}
