/** Concrete streams on which preroll and lookahead, or the caches of a session, fall short. */
module Failures {
  import opened Bytes
  import opened Wrappers
  import opened Aac
  import opened AudioSchedule
  import opened Keyframes
  import opened Demux
  import opened Eviction
  import opened SessionSpec
  import opened Tiling
  import opened Coverage
  import opened History
  import opened EndToEnd
  import opened SmallFile
  import opened Possible

  // ---- how much is decoded ----

  lemma {:induction false} FirstTickAfter(keys: seq<Packet>, end: nat, at: nat, decodeStart: int, limit: nat)
    requires at <= limit + 1 < end
    ensures FirstAudioAfter(keys + Ticking(0, end), |keys| + at, decodeStart, limit) == |keys| + limit + 1
    decreases limit + 1 - at
  {
    assert (keys + Ticking(0, end))[|keys| + at] == AudioPacket(Some(at), []);
    if at <= limit {
      FirstTickAfter(keys, end, at + 1, decodeStart, limit);
    }
  }

  lemma {:induction false} FirstAfterKeys(keys: seq<Packet>, end: nat, at: nat, decodeStart: int, limit: nat)
    requires at <= |keys| && limit + 1 < end && forall p :: p in keys ==> p.VideoPacket?
    ensures FirstAudioAfter(keys + Ticking(0, end), at, decodeStart, limit) == |keys| + limit + 1
    decreases |keys| - at
  {
    if at < |keys| {
      assert (keys + Ticking(0, end))[at] == keys[at] && keys[at] in keys;
      FirstAfterKeys(keys, end, at + 1, decodeStart, limit);
    } else {
      FirstTickAfter(keys, end, 0, decodeStart, limit);
    }
  }

  lemma StreamLimit(times: seq<int>, at: nat, decodeStart: int, limit: nat)
    requires SmallTimes(times) && at <= |times| && limit + 1 < AUDIO_MS
    ensures FirstAudioAfter(Stream(times), at, decodeStart, limit) == |times| + limit + 1
  {
    KeysAreTimed(times);
    hide Keys, Ticking;
    FirstAfterKeys(Keys(times), AUDIO_MS, at, decodeStart, limit);
  }

  lemma BoundaryIsKey(times: seq<int>, startMs: int, endMs: int)
    requires SmallTimes(times) && startMs <= endMs && endMs in times
    ensures FirstKey(Stream(times), FirstKey(Stream(times), 0, startMs), endMs) < |times|
  {
    var k :| 0 <= k < |times| && times[k] == endMs;
    var stream := Stream(times);
    KeyIs(times, k);
    hide Stream, FirstKey, SmallTimes;
    CutBeforeKey(stream, k, endMs);
    FirstKeyMonotone(stream, 0, startMs, endMs);
    FirstKeyFromLater(stream, 0, FirstKey(stream, 0, startMs), endMs);
    CutIs(stream, startMs);
    CutIs(stream, endMs);
  }

  lemma CutIs(stream: seq<Packet>, ms: int)
    ensures Cut(stream, ms) == FirstKey(stream, 0, ms)
  {
  }

  /** A build of a segment that ends at a cue decodes exactly the packets from the decode start to the lookahead. */
  lemma StreamDecodes(times: seq<int>, startMs: int, endMs: int)
    requires SmallTimes(times) && 0 <= startMs <= endMs < 0x800_0000 && endMs in times
    ensures |DecodedIn(BuildOps(Stream(times), 0, startMs, endMs))| == endMs + 251 - DecodeStartMs(startMs)
  {
    var stream, decodeStart, limit := Stream(times), DecodeStartMs(startMs), endMs + LOOKAHEAD_MS;
    WithinAudio(startMs, endMs);
    BoundaryIsKey(times, startMs, endMs);
    var boundary := FirstKey(stream, FirstKey(stream, 0, startMs), endMs);
    StopIs(stream, startMs, endMs, boundary);
    assert |times| < |stream|;
    hide *;
    BuildDecodes(stream, 0, startMs, endMs);
    StreamLimit(times, boundary + 1, decodeStart, limit);
    StreamLimit(times, 0, decodeStart, limit);
    RelevantIs(stream, 0, decodeStart, limit);
    StreamAudio(times);
    RelevantTicks(0, AUDIO_MS, decodeStart, limit);
    RelevantLength(Ticking(0, AUDIO_MS), decodeStart, limit);
  }

  lemma RelevantLength(audio: seq<Packet>, decodeStart: int, limit: int)
    requires forall p :: p in audio ==> p.AudioPacket?
    ensures |Relevant(audio, decodeStart, limit)| == |RelevantPackets(audio, decodeStart, limit)|
  {
    hide RelevantPackets;
  }

  lemma StopIs(stream: seq<Packet>, startMs: int, endMs: int, boundary: nat)
    requires boundary == FirstKey(stream, FirstKey(stream, 0, startMs), endMs) && boundary < |stream|
    ensures DecodeStop(stream, 0, startMs, endMs)
         == FirstAudioAfter(stream, boundary + 1, DecodeStartMs(startMs), endMs + LOOKAHEAD_MS)
  {
    hide FirstKey, FirstAudioAfter, DecodeStartMs;
  }

  lemma HeldExactly(times: seq<int>, padding: nat, delay: nat, startMs: int, endMs: int)
    requires SmallTimes(times) && 0 <= startMs <= endMs < 0x800_0000 && endMs in times
    ensures var codec := SilentCodec(padding, delay);
            Held(codec, Playing(times, codec).media, startMs, endMs) == 48 * (endMs + 251 - DecodeStartMs(startMs))
  {
    var codec := SilentCodec(padding, delay);
    PlayingIs(times, codec);
    ReadsAll(times, codec, DecodeStartMs(startMs));
    hide Playing, SilentCodec, Stream, SeekIndex, BuildOps, DecodedIn, DecodeStartMs, Samples;
    StreamDecodes(times, startMs, endMs);
    SilentSamples(padding, delay, DecodedIn(BuildOps(Stream(times), 0, startMs, endMs)));
  }

  // ---- where the margin ends ----

  /** With gapless audio, a first segment of 64 ms is covered if and only if the encoder holds back no more than the margin
      of its priming: it is attained for every priming. */
  lemma FirstMarginAttained(times: seq<int>, padding: nat, delay: nat)
    requires SmallTimes(times) && 64 in times
    ensures var codec := SilentCodec(padding, delay);
            var media := Playing(times, codec).media;
            && SegmentSupplied(codec, media, 0, 64, 0, 0)
            && (Covered(codec, media, 0, 0, 64) <==> delay <= FirstMargin(padding, 0))
  {
    StartAtZero();
    hide *;
    var codec := SilentCodec(padding, delay);
    SilentIsRegular(padding, delay);
    TicksSupply(times, padding, delay, 0, 64);
    HeldExactly(times, padding, delay, 0, 64);
    CoveredIff(codec, Playing(times, codec).media, delay, 0, 0, 0, 64);
    MarginAt64(codec);
  }

  lemma StartAtZero()
    ensures DecodeStartMs(0) == 0
  {
  }

  lemma MarginAt64(codec: Codec)
    ensures Margin(codec, 0, 0, 64, 15120) == FirstMargin(codec.initialPadding, 0)
  {
    FirstMarginIs(codec, 0, 64, 15120);
    hide Margin;
  }

  /** A priming of one frame, as is usual, leaves room for ten frames and not for eleven; one of 2112 samples, for eight. */
  lemma ElevenFramesUncovered(times: seq<int>)
    requires SmallTimes(times) && 64 in times
    ensures FirstMargin(1024, 0) == 10 && FirstMargin(2112, 0) == 8
    ensures !Covered(SilentCodec(1024, 11), Playing(times, SilentCodec(1024, 11)).media, 0, 0, 64)
    ensures !Covered(SilentCodec(2112, 9), Playing(times, SilentCodec(2112, 9)).media, 0, 0, 64)
  {
    hide Playing, SilentCodec, Covered, SegmentSupplied;
    FirstMarginAttained(times, 1024, 11);
    FirstMarginAttained(times, 2112, 9);
  }

  // ---- two histories ----

  const TWO_SEGMENTS: seq<int> := [0, 10000, 10064]

  lemma TwoSegments()
    ensures SmallTimes(TWO_SEGMENTS) && Spread(TWO_SEGMENTS) && Filtered(TWO_SEGMENTS, 10000) == TWO_SEGMENTS
  {
    TwoFiltered(TWO_SEGMENTS);
    hide Filtered;
  }

  lemma TwoFiltered(raw: seq<int>)
    requires raw == [0, 10000, 10064]
    ensures Filtered(raw, 10000) == raw
  {
    assert Reached(raw, 10000, 1) == 0 && Reached(raw, 10000, 2) == 1;
    assert Kept(raw, 10000, 0) && Kept(raw, 10000, 1) && !Kept(raw, 10000, 2);
    hide Kept, Reached;
    assert Selected(raw, 10000, 0) == [];
    assert Selected(raw, 10000, 1) == [0];
    assert Selected(raw, 10000, 2) == [0, 10000];
    assert Selected(raw, 10000, 3) == [0, 10000];
  }

  /** Two segments, and an encoder that holds back twelve frames. */
  function TwelveBack(): Source {
    TwoSegments();
    Playing(TWO_SEGMENTS, SilentCodec(1024, 12))
  }

  const FRAME_LENT: int := 467

  /** The first segment's build lacks the last frame of its range ... */
  lemma FrameIsMissing()
    ensures var codec := SilentCodec(1024, 12);
            && OutputStart(codec, 0, 0) <= FRAME_LENT < OutputEnd(codec, 0, 0, 10000)
            && FRAME_LENT !in MapOf(BuildPackets(codec, TwelveBack().media, 0, 0, 10000))
  {
    var codec, media := SilentCodec(1024, 12), TwelveBack().media;
    TwoSegments();
    SilentIsRegular(1024, 12);
    HeldExactly(TWO_SEGMENTS, 1024, 12, 0, 10000);
    ClampNeverFires(codec, 0, 0, 10000);
    OutputStartIs(codec, 0, 0);
    assert DecodeStartMs(0) == 0;
    assert FedCount(codec, 0, 0, 10000, 492048) == 480 && ResetPts(codec, 0, 0) == -1024;
    hide Playing, SilentCodec, Held, MapOf, BuildPackets, OutputStart, OutputEnd, Regular, FedCount, ResetPts, TwelveBack;
    BuiltFrames(codec, media, 12, 0, 0, 0, 10000, FRAME_LENT);
  }

  /** ... which the second segment's build has. */
  lemma FrameIsBuilt()
    ensures FRAME_LENT in MapOf(BuildPackets(SilentCodec(1024, 12), TwelveBack().media, 1, 10000, 10064))
    ensures forall i :: i in MapOf(BuildPackets(SilentCodec(1024, 12), TwelveBack().media, 1, 10000, 10064)) ==> i < 471
  {
    hide *;
    TwoSegments();
    SecondCounts(SilentCodec(1024, 12));
    SecondEnds();
    TwelveBackPlays();
    var codec, media := SilentCodec(1024, 12), TwelveBack().media;
    SilentIsRegular(1024, 12);
    HeldExactly(TWO_SEGMENTS, 1024, 12, 10000, 10064);
    BuiltFrames(codec, media, 12, 0, 1, 10000, 10064, FRAME_LENT);
    forall i | i in MapOf(BuildPackets(codec, media, 1, 10000, 10064))
      ensures i < 471
    {
      BuiltFrames(codec, media, 12, 0, 1, 10000, 10064, i);
    }
  }

  lemma SecondCounts(codec: Codec)
    ensures DecodeStartMs(10000) == 8000 && ResetPts(codec, 1, 10000) == 384000
    ensures FedCount(codec, 1, 10000, 10064, 111120) == 108
  {
    FrameIndexIs(384000);
    hide FrameIndex;
  }

  lemma SecondEnds()
    ensures 10064 in TWO_SEGMENTS && FRAME_LENT == 467
  {
    assert TWO_SEGMENTS[2] == 10064;
  }

  lemma TwelveBackPlays()
    ensures SmallTimes(TWO_SEGMENTS) && TwelveBack() == Playing(TWO_SEGMENTS, SilentCodec(1024, 12))
  {
    TwoSegments();
    hide SmallTimes, Playing, SilentCodec;
  }

  lemma FewAbove(m: map<int, seq<Byte>>, frame: int)
    requires frame in m && forall i :: i in m ==> i < frame + 4
    ensures frame in KeepLargest(m, 4096)
  {
    forall i | i in Above(m, frame)
      ensures i in {frame + 1, frame + 2, frame + 3}
    {
    }
    SubsetCount(Above(m, frame), {frame + 1, frame + 2, frame + 3});
    KeptIff(m, 4096, frame);
  }

  lemma TwelveBackIs()
    ensures var source, codec := TwelveBack(), SilentCodec(1024, 12);
            && source.codec == Some(codec) && Bounds(source) == TWO_SEGMENTS && codec.initialPadding == 1024
  {
    TwoSegments();
    SilentIsRegular(1024, 12);
    hide Filtered, SmallTimes, Spread, Bounds, SilentCodec, Playing;
    PlayingIs(TWO_SEGMENTS, SilentCodec(1024, 12));
    FileHasTimes(TWO_SEGMENTS);
  }

  lemma SegmentsOfTwo()
    ensures var source := TwelveBack();
            && IsSegment(source, 0) && IsSegment(source, 1) && |Bounds(source)| == 3
            && Bounds(source)[0] == 0 && Bounds(source)[1] == 10000 && Bounds(source)[2] == 10064
  {
    TwelveBackIs();
    hide TwelveBack, Bounds;
  }

  /** The second segment lends the first one its last frame. */
  lemma SecondLends()
    ensures IsSegment(TwelveBack(), 0) && Lends(TwelveBack(), SilentCodec(1024, 12), 1, 0, FRAME_LENT)
  {
    SegmentsOfTwo();
    FrameIsMissing();
    FrameIsBuilt();
    hide TwelveBack, Bounds, SilentCodec, KeepLargest, MapOf, BuildPackets, OutputStart, OutputEnd;
    FewAbove(OwnFramesOf(TwelveBack(), SilentCodec(1024, 12), 1), FRAME_LENT);
  }

  /** Two histories of one session, two replies for the same segment: requested first, the first segment lacks its last
      frame of audio; requested after the second, it has it. */
  lemma RepliesDiffer()
    ensures IsSegment(TwelveBack(), 0)
    ensures ReplyAfter(TwelveBack(), [1], 0) != ReplyAfter(TwelveBack(), [], 0)
  {
    hide *;
    SecondLends();
    SegmentsOfTwo();
    TwelveBackIs();
    TwelveBackPlays();
    TwoSegments();
    LentFrame();
    var source, codec := TwelveBack(), SilentCodec(1024, 12);
    var frames := After(source, [1]).frames;
    FirstRequest(source, codec, 1, FRAME_LENT);
    var keyOf := IsDescribed(TWO_SEGMENTS, codec);
    SegmentVideo(source, keyOf, 0);
    FixedCount(SamplesOf(Between(source, 0, 1)));
    NothingIsSmall();
    AfterIsSmall(TWO_SEGMENTS, 1024, 12, [1]);
    FitsAlways(TWO_SEGMENTS, 1024, 12, 0, 0, 10000, map[]);
    FitsAlways(TWO_SEGMENTS, 1024, 12, 0, 0, 10000, frames);
    BorrowShows(source, codec, 0, 0, 10000, frames, FRAME_LENT);
    ReplyIsBuild(source, [1], 0);
    FirstReply(source, 0);
  }

  lemma FirstReply(source: Source, index: int)
    requires IsSegment(source, index)
    ensures ReplyAfter(source, [], index) == Some(Alone(source, index, Bounds(source)[index], Bounds(source)[index + 1]))
  {
    hide KeyframesOf, Build, CacheAfter, KeepAdded;
  }

  lemma LentFrame()
    requires IsSegment(TwelveBack(), 0) && Lends(TwelveBack(), SilentCodec(1024, 12), 1, 0, FRAME_LENT)
    requires Bounds(TwelveBack())[0] == 0 && Bounds(TwelveBack())[1] == 10000
    ensures var source, codec := TwelveBack(), SilentCodec(1024, 12);
            && FRAME_LENT in KeepLargest(OwnFramesOf(source, codec, 1), 4096)
            && OutputStart(codec, 0, 0) <= FRAME_LENT < OutputEnd(codec, 0, 0, 10000)
            && FRAME_LENT !in MapOf(BuildPackets(codec, source.media, 0, 0, 10000))
  {
    hide TwelveBack, Bounds, SilentCodec, KeepLargest, MapOf, BuildPackets, OutputStart, OutputEnd;
  }

  // ---- the segment cache ----

  /** A keyframe every ten seconds. */
  function EveryTen(n: nat): (times: seq<int>)
    ensures |times| == n && forall i :: 0 <= i < n ==> times[i] == 10000 * i
  {
    seq(n, i => 10000 * i)
  }

  lemma {:induction false} EveryTenKept(n: nat, k: nat)
    requires k <= n
    ensures Reached(EveryTen(n), 10000, k) == if k == 0 then 0 else k - 1
    ensures Selected(EveryTen(n), 10000, k) == EveryTen(n)[..k]
  {
    hide EveryTen;
    var raw := EveryTen(n);
    if k > 0 {
      EveryTenKept(n, k - 1);
      assert raw[k - 1] / 10000 == k - 1;
      assert raw[..k] == raw[..k - 1] + [raw[k - 1]];
    }
  }

  lemma EveryTenFiltered(n: nat)
    ensures Filtered(EveryTen(n), 10000) == EveryTen(n)
  {
    EveryTenKept(n, n);
    hide EveryTen, Selected;
    assert EveryTen(n)[..n] == EveryTen(n);
  }

  lemma EveryTenFits(n: nat)
    requires 0 < n <= 10000
    ensures SmallTimes(EveryTen(n)) && Spread(EveryTen(n))
  {
    hide EveryTen;
  }

  /** A stream of fifty-one segments, requested from the last to the first: the cache of fifty holds them all. */
  lemma FiftyOneStay(codec: Codec)
    ensures SmallTimes(EveryTen(52))
    ensures |After(Playing(EveryTen(52), codec), Downwards(51, 51)).segments| == 51 == MAX_SEGMENTS + 1
  {
    EveryTenFits(52);
    assert MAX_SEGMENTS == 50;
    hide *;
    EveryTenFiltered(52);
    var keyOf := IsDescribed(EveryTen(52), codec);
    AllStay(Playing(EveryTen(52), codec), keyOf, 51);
  }
}
