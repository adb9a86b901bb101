/** Segments that follow one another lose, repeat and reorder nothing. */
module Tiling {
  import opened Aac
  import opened AudioSchedule
  import opened Cues
  import opened Keyframes
  import opened Demux
  import opened SessionSpec

  // ---- video ----

  /** Looking from later, but not past it, finds the same keyframe. */
  lemma {:induction false} FirstKeyFromLater(stream: seq<Packet>, from: nat, later: nat, ms: int)
    requires from <= |stream| && from <= later <= FirstKey(stream, from, ms)
    ensures FirstKey(stream, later, ms) == FirstKey(stream, from, ms)
    decreases later - from
  {
    if from < later {
      FirstKeyFromLater(stream, from + 1, later, ms);
    }
  }

  lemma {:induction false} FirstKeyMonotone(stream: seq<Packet>, from: nat, a: int, b: int)
    requires from <= |stream| && a <= b
    ensures FirstKey(stream, from, a) <= FirstKey(stream, from, b)
    decreases |stream| - from
  {
    if from < |stream| && !IsKeyFrom(stream[from], a) {
      FirstKeyMonotone(stream, from + 1, a, b);
    }
  }

  /** The keyframe at which the segments on both sides of a boundary meet. */
  function Cut(stream: seq<Packet>, ms: int): nat {
    FirstKey(stream, 0, ms)
  }

  /** A segment's video is everything between the cuts at its bounds, if reading starts early enough. */
  lemma VideoBetweenCuts(stream: seq<Packet>, from: nat, startMs: int, endMs: int)
    requires startMs <= endMs && from <= Cut(stream, startMs)
    ensures from <= |stream| && Cut(stream, startMs) <= Cut(stream, endMs) <= |stream|
    ensures VideoPackets(stream, from, startMs, endMs) == VideoIn(stream, Cut(stream, startMs), Cut(stream, endMs))
  {
    FirstKeyFromLater(stream, 0, from, startMs);
    FirstKeyMonotone(stream, 0, startMs, endMs);
    FirstKeyFromLater(stream, 0, Cut(stream, startMs), endMs);
  }

  lemma {:induction false} VideoInJoins(stream: seq<Packet>, lo: nat, mid: nat, hi: nat)
    requires lo <= mid <= hi <= |stream|
    ensures VideoIn(stream, lo, hi) == VideoIn(stream, lo, mid) + VideoIn(stream, mid, hi)
  {
    hide Timed;
    if mid < hi {
      VideoInJoins(stream, lo, mid, hi - 1);
    }
  }

  /** The video packets that have a time. */
  function TimedVideo(packets: seq<Packet>): (v: seq<Packet>)
    ensures forall p :: p in v ==> Timed(p)
  {
    if packets == [] then []
    else
      var p := packets[0];
      (if p.VideoPacket? && (p.dts.Some? || p.pts.Some?) then [p] else []) + TimedVideo(packets[1..])
  }

  /** What a build takes of a part of the stream is just these. */
  lemma {:induction false} VideoIsFiltered(stream: seq<Packet>, lo: nat, hi: nat)
    requires lo <= hi <= |stream|
    ensures VideoIn(stream, lo, hi) == TimedVideo(stream[lo..hi])
    decreases hi - lo
  {
    if lo < hi {
      VideoIsFiltered(stream, lo + 1, hi);
      VideoInJoins(stream, lo, lo + 1, hi);
      assert VideoIn(stream, lo, lo + 1) == if Timed(stream[lo]) then [stream[lo]] else [] by { NoVideo(stream, lo); }
      assert stream[lo..hi][1..] == stream[lo + 1..hi];
    }
  }

  /** Reading for every segment starts at or before its first keyframe. */
  ghost predicate ReadsInTime(stream: seq<Packet>, froms: seq<nat>, bounds: seq<int>) {
    && |froms| == |bounds| - 1
    && forall i :: 0 <= i < |froms| ==> froms[i] <= Cut(stream, bounds[i])
  }

  /** The video packets of the first `n` segments, one after another. */
  ghost function AllVideo(stream: seq<Packet>, froms: seq<nat>, bounds: seq<int>, n: nat): seq<Packet>
    requires ReadsInTime(stream, froms, bounds) && n <= |froms|
  {
    if n == 0 then []
    else AllVideo(stream, froms, bounds, n - 1) + VideoPackets(stream, froms[n - 1], bounds[n - 1], bounds[n])
  }

  /** All segments together hold exactly the stream's video from the first cut to the last: nothing is lost, repeated
      or reordered. */
  lemma {:induction false} VideoTiles(stream: seq<Packet>, froms: seq<nat>, bounds: seq<int>, n: nat)
    requires ReadsInTime(stream, froms, bounds) && n <= |froms| && StrictlyIncreasing(bounds)
    ensures Cut(stream, bounds[0]) <= Cut(stream, bounds[n]) <= |stream|
    ensures AllVideo(stream, froms, bounds, n) == TimedVideo(stream[Cut(stream, bounds[0])..Cut(stream, bounds[n])])
  {
    hide Cut, VideoIn, VideoPackets;
    CutInStream(stream, bounds[0]);
    if n > 0 {
      VideoTiles(stream, froms, bounds, n - 1);
      VideoBetweenCuts(stream, froms[n - 1], bounds[n - 1], bounds[n]);
      VideoInJoins(stream, Cut(stream, bounds[0]), Cut(stream, bounds[n - 1]), Cut(stream, bounds[n]));
      VideoIsFiltered(stream, Cut(stream, bounds[0]), Cut(stream, bounds[n - 1]));
      VideoIsFiltered(stream, Cut(stream, bounds[0]), Cut(stream, bounds[n]));
    }
  }

  lemma CutInStream(stream: seq<Packet>, ms: int)
    ensures Cut(stream, ms) <= |stream|
  {
  }

  lemma NoVideo(stream: seq<Packet>, at: nat)
    requires at <= |stream|
    ensures VideoIn(stream, at, at) == []
  {
  }

  ghost predicate VideoIsTimed(stream: seq<Packet>) {
    forall p :: p in stream && p.VideoPacket? ==> p.dts.Some? || p.pts.Some?
  }

  predicate LiesBefore(stream: seq<Packet>, at: nat, ms: int) {
    at < |stream| && stream[at].VideoPacket? && stream[at].ms < ms
  }

  /** A segment has video if and only if the first keyframe at or after its start lies before its end. */
  lemma HasVideoIff(stream: seq<Packet>, from: nat, startMs: int, endMs: int)
    requires startMs <= endMs && from <= Cut(stream, startMs) && VideoIsTimed(stream)
    ensures from <= |stream| && (VideoPackets(stream, from, startMs, endMs) != []
       <==> LiesBefore(stream, Cut(stream, startMs), endMs))
  {
    VideoBetweenCuts(stream, from, startMs, endMs);
    var first, last := Cut(stream, startMs), Cut(stream, endMs);
    FirstKeyIs(stream, 0, startMs);
    FirstKeyFromLater(stream, 0, first, endMs);
    if LiesBefore(stream, first, endMs) {
      assert first < last;
      VideoInJoins(stream, first, first + 1, last);
      assert Timed(stream[first]);
      assert VideoIn(stream, first, first + 1) == [stream[first]] by { NoVideo(stream, first); }
    } else {
      assert first == last;
      NoVideo(stream, first);
    }
  }

  lemma {:induction false} FirstKeyIs(stream: seq<Packet>, from: nat, ms: int)
    requires from <= |stream|
    ensures FirstKey(stream, from, ms) < |stream| ==> IsKeyFrom(stream[FirstKey(stream, from, ms)], ms)
    ensures forall i :: from <= i < FirstKey(stream, from, ms) ==> !IsKeyFrom(stream[i], ms)
    decreases |stream| - from
  {
    if from < |stream| && !IsKeyFrom(stream[from], ms) {
      FirstKeyIs(stream, from + 1, ms);
    }
  }

  // ---- seeking ----

  /** Cues describe the stream: each is in time order, names a keyframe by its time, and leads to a packet at or before
      it; keyframes follow one another in time. */
  ghost predicate CuesDescribe(media: Media, cues: seq<CueEntry>, keyOf: seq<nat>) {
    && |keyOf| == |cues| && TimeOrdered(cues)
    && (forall i, j :: 0 <= i < j < |media.stream| && IsKey(media.stream[i]) && IsKey(media.stream[j]) ==>
          media.stream[i].ms < media.stream[j].ms)
    && forall i :: 0 <= i < |cues| ==>
         && keyOf[i] < |media.stream| && IsKey(media.stream[keyOf[i]])
         && media.stream[keyOf[i]].ms == cues[i].timeMs
         && (cues[i].clusterPos >= 0 ==> media.packetAt(cues[i].clusterPos) <= keyOf[i])
  }

  predicate IsKey(p: Packet) {
    p.VideoPacket? && p.key
  }

  /** Seeking for a segment never starts after its first keyframe, provided that libavformat's own seek, which is used
      where no cue can be, does not either. */
  lemma SeekNeverOvershoots(media: Media, keyOf: seq<nat>, startMs: int)
    requires CuesDescribe(media, CuesOf(media.file), keyOf) && startMs >= 0
    requires media.fallback(DecodeStartMs(startMs)) <= Cut(media.stream, startMs)
    ensures SeekIndex(media, DecodeStartMs(startMs)) <= Cut(media.stream, startMs)
  {
    var cues, target := CuesOf(media.file), DecodeStartMs(startMs);
    var n, first := LeadingCues(cues, target), Cut(media.stream, startMs);
    hide CuesOf, LeadingCues, Cut;
    if n > 0 && cues[n - 1].clusterPos >= 0 {
      LookupFindsLatest(cues, target, n - 1);
      CutIsKey(media.stream, startMs);
    }
  }

  lemma CutIsKey(stream: seq<Packet>, ms: int)
    ensures Cut(stream, ms) <= |stream|
    ensures Cut(stream, ms) < |stream| ==> IsKey(stream[Cut(stream, ms)]) && stream[Cut(stream, ms)].ms >= ms
  {
    FirstKeyIs(stream, 0, ms);
  }

  // ---- audio ----

  lemma OutputStartIs(codec: Codec, index: int, startMs: int)
    ensures OutputStart(codec, index, startMs)
         == if index == 0 then (0 - codec.initialPadding) / 1024 else 48 * startMs / 1024
  {
  }

  /** Segments of at least 22 ms are given a whole frame by their bounds: the clamp to one frame never fires. */
  lemma ClampNeverFires(codec: Codec, index: int, startMs: int, endMs: int)
    requires 0 <= startMs && startMs + 22 <= endMs
    ensures OutputStart(codec, index, startMs) < 48 * endMs / 1024
    ensures OutputEnd(codec, index, startMs, endMs) == 48 * endMs / 1024
  {
    OutputStartIs(codec, index, startMs);
    FrameIndexIs(MsToAudioPts(endMs));
    hide FrameIndex;
  }

  /** The audio frames of consecutive segments join: one range ends where the next begins. */
  lemma AudioRangesJoin(codec: Codec, index: nat, bounds: seq<int>)
    requires index + 2 < |bounds| && 0 <= bounds[index] && bounds[index] + 22 <= bounds[index + 1]
    ensures OutputEnd(codec, index, bounds[index], bounds[index + 1])
         == OutputStart(codec, index + 1, bounds[index + 1])
  {
    ClampNeverFires(codec, index, bounds[index], bounds[index + 1]);
    OutputStartIs(codec, index + 1, bounds[index + 1]);
  }

  predicate LongEnough(bounds: seq<int>) {
    && bounds != [] && bounds[0] >= 0
    && forall i {:trigger bounds[i]} :: 0 < i < |bounds| ==> bounds[i - 1] + 22 <= bounds[i]
  }

  function RangeOf(codec: Codec, bounds: seq<int>, i: nat): (int, int)
    requires i + 1 < |bounds|
  {
    (OutputStart(codec, i, bounds[i]), OutputEnd(codec, i, bounds[i], bounds[i + 1]))
  }

  /** Over a whole run the ranges partition the frames from the encoder's priming to the last boundary: every frame in
      it belongs to exactly one segment. */
  lemma {:induction false} AudioTiles(codec: Codec, bounds: seq<int>, n: nat, frame: int)
    requires LongEnough(bounds) && 0 < n < |bounds|
    ensures bounds[n] >= 22 * n
    ensures (0 - codec.initialPadding) / 1024 <= frame < 48 * bounds[n] / 1024
       <==> exists i :: 0 <= i < n && RangeOf(codec, bounds, i).0 <= frame < RangeOf(codec, bounds, i).1
    ensures forall i, j :: 0 <= i < j < n ==> RangeOf(codec, bounds, i).1 <= RangeOf(codec, bounds, j).0
  {
    BoundsGrow(bounds, n - 1);
    ClampNeverFires(codec, n - 1, bounds[n - 1], bounds[n]);
    OutputStartIs(codec, n - 1, bounds[n - 1]);
    hide OutputStart, OutputEnd;
    if n > 1 {
      AudioTiles(codec, bounds, n - 1, frame);
      assert RangeOf(codec, bounds, n - 1).0 == 48 * bounds[n - 1] / 1024;
      forall i | 0 <= i < n - 1
        ensures RangeOf(codec, bounds, i).1 <= RangeOf(codec, bounds, n - 1).0
      {
        RangeEnd(codec, bounds, i, n - 1);
      }
    }
    if (0 - codec.initialPadding) / 1024 <= frame < 48 * bounds[n] / 1024 {
      if n == 1 || frame >= 48 * bounds[n - 1] / 1024 {
        assert RangeOf(codec, bounds, n - 1).0 <= frame < RangeOf(codec, bounds, n - 1).1;
      }
    }
  }

  lemma {:induction false} BoundsGrow(bounds: seq<int>, n: nat)
    requires LongEnough(bounds) && n < |bounds|
    ensures bounds[n] >= 22 * n
  {
    if n > 0 {
      BoundsGrow(bounds, n - 1);
      assert bounds[n - 1] + 22 <= bounds[n];
    }
  }

  lemma {:induction false} RangeEnd(codec: Codec, bounds: seq<int>, i: nat, n: nat)
    requires LongEnough(bounds) && i < n < |bounds|
    ensures RangeOf(codec, bounds, i).1 <= 48 * bounds[n] / 1024
  {
    BoundsGrow(bounds, n - 1);
    assert bounds[n - 1] + 22 <= bounds[n];
    if i + 1 == n {
      ClampNeverFires(codec, i, bounds[i], bounds[n]);
    } else {
      RangeEnd(codec, bounds, i, n - 1);
    }
  }
}
