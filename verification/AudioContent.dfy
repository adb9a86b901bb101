/** Which samples become which audio frame, and which frame a segment takes (the packet loop, drain_aac and the output
    range of src/Session.cpp, over src/AacTranscoder.cpp). */
module AudioContent {
  import opened Bytes
  import opened Wrappers
  import opened SegmentLayout
  import opened Aac
  import opened AudioSchedule
  import opened Demux
  import opened SessionSpec
  import opened Tiling
  import opened Coverage
  import opened History

  // ---- what a build feeds ----

  /** When the decoding for a segment starts. */
  function StartOfDecoding(startMs: int): int {
    if startMs > 2000 then startMs - 2000 else 0
  }

  /** The time of the first frame fed: the priming before a first segment, else the start of the frame that decoding
      starts in. */
  function FirstPts(codec: Codec, index: int, startMs: int): int {
    if index == 0 then 0 - codec.initialPadding else 48 * StartOfDecoding(startMs) / 1024 * 1024
  }

  lemma StartsAt(codec: Codec, index: int, startMs: int)
    ensures DecodeStartMs(startMs) == StartOfDecoding(startMs)
    ensures ResetPts(codec, index, startMs) == FirstPts(codec, index, startMs)
  {
    FrameIndexIs(MsToAudioPts(DecodeStartMs(startMs)));
    hide FrameIndex;
  }

  /** Frame `j` that a build feeds is the `j`th 1024 samples of what it decodes; it feeds them while they last, and none
      that ends after the lookahead. */
  lemma FrameFed(codec: Codec, media: Media, index: int, startMs: int, endMs: int, j: nat)
    ensures var fed, pcm, pts := BuildFed(codec, media, index, startMs, endMs), PcmRead(codec, media, startMs, endMs),
                                 FirstPts(codec, index, startMs);
            && (j < |fed| <==> 1024 * j + 1024 <= |pcm| && pts + 1024 * j + 1024 <= 48 * (endMs + 250))
            && (j < |fed| ==> fed[j] == Frame(pts + 1024 * j, pcm[1024 * j..1024 * j + 1024]))
  {
    StartsAt(codec, index, startMs);
    FramesFed(codec, media, index, startMs, endMs);
    var pcm, pts := PcmRead(codec, media, startMs, endMs), FirstPts(codec, index, startMs);
    assert Cutoff(endMs) == 48 * (endMs + 250);
    hide BuildFed, PcmRead, FirstPts, ResetPts, Held, Cutoff;
    CountIs(|pcm|, pts, 48 * (endMs + 250), j);
    if j < FrameCount(|pcm|, pts, 48 * (endMs + 250)) {
      FrameOf(pcm, pts, FrameCount(|pcm|, pts, 48 * (endMs + 250)), j);
    }
  }

  /** The frames are one 1024 samples after another, from `pts` on. */
  ghost predicate Consecutive(fed: seq<Frame>, pcm: seq<Stereo>, pts: int) {
    forall m :: 0 <= m < |fed| ==>
      1024 * m + 1024 <= |pcm| && fed[m] == Frame(pts + 1024 * m, pcm[1024 * m..1024 * m + 1024])
  }

  lemma FedIsConsecutive(codec: Codec, media: Media, index: int, startMs: int, endMs: int)
    ensures Consecutive(BuildFed(codec, media, index, startMs, endMs), PcmRead(codec, media, startMs, endMs),
                        FirstPts(codec, index, startMs))
  {
    hide BuildFed, PcmRead, FirstPts;
    var fed, pcm, pts := BuildFed(codec, media, index, startMs, endMs), PcmRead(codec, media, startMs, endMs),
                         FirstPts(codec, index, startMs);
    forall m: nat | m < |fed|
      ensures 1024 * m + 1024 <= |pcm| && fed[m] == Frame(pts + 1024 * m, pcm[1024 * m..1024 * m + 1024])
    {
      FrameFed(codec, media, index, startMs, endMs, m);
    }
  }

  lemma CountIs(queued: nat, pts: int, cutoff: int, j: nat)
    ensures j < FrameCount(queued, pts, cutoff) <==> 1024 * j + 1024 <= queued && pts + 1024 * j + 1024 <= cutoff
  {
  }

  lemma FrameOf(queue: seq<Stereo>, pts: int, n: nat, j: nat)
    requires j < n && n * FRAME <= |queue|
    ensures 1024 * j + 1024 <= |queue|
    ensures FramesOf(queue, pts, n)[j] == Frame(pts + 1024 * j, queue[1024 * j..1024 * j + 1024])
  {
    assert (j + 1) * FRAME <= n * FRAME;
  }

  /** An audio packet that is known to lie after the lookahead. */
  predicate PastLookahead(p: Packet, endMs: int) {
    p.AudioPacket? && p.audioMs.Some? && p.audioMs.value > endMs + 250
  }

  /** Decoding stops at the first such packet after the boundary keyframe, or with the stream. */
  lemma StopsPastLookahead(stream: seq<Packet>, from: nat, startMs: int, endMs: int)
    requires from <= |stream| && 0 <= startMs <= endMs
    ensures var boundary, stop := FirstKey(stream, FirstKey(stream, from, startMs), endMs),
                                  DecodeStop(stream, from, startMs, endMs);
            && from <= boundary <= stop <= |stream|
            && (boundary < |stream| ==> stop > boundary)
            && (forall i :: boundary < i < stop ==> !PastLookahead(stream[i], endMs))
            && (stop < |stream| ==> PastLookahead(stream[stop], endMs))
  {
    var boundary := FirstKey(stream, FirstKey(stream, from, startMs), endMs);
    hide FirstKey;
    if boundary < |stream| {
      FirstPastLookahead(stream, boundary + 1, DecodeStartMs(startMs), endMs);
    }
  }

  lemma {:induction false} FirstPastLookahead(stream: seq<Packet>, from: nat, decodeStart: int, endMs: int)
    requires from <= |stream| && decodeStart <= endMs + 250
    ensures var stop := FirstAudioAfter(stream, from, decodeStart, endMs + LOOKAHEAD_MS);
            && (forall i :: from <= i < stop ==> !PastLookahead(stream[i], endMs))
            && (stop < |stream| ==> PastLookahead(stream[stop], endMs))
    decreases |stream| - from
  {
    if from < |stream| {
      FirstPastLookahead(stream, from + 1, decodeStart, endMs);
    }
  }

  // ---- what comes out ----

  /** The frame that a regular encoder gives for index `i` is what it makes of the frames fed so far, `delay` frames after
      the one it stands for. */
  lemma {:induction false} RegularData(codec: Codec, delay: nat, shift: nat, queue: seq<Stereo>, pts: int, n: nat, j: nat)
    requires Regular(codec, delay, shift) && n * FRAME <= |queue| && delay <= j < n
    ensures var i := pts / 1024 - shift + j - delay;
            && i in MapOf(EmittedSince(codec, FramesOf(queue, pts, n), 0))
            && codec.encode(FramesOf(queue, pts, n)[..j + 1]) != []
            && MapOf(EmittedSince(codec, FramesOf(queue, pts, n), 0))[i]
            == codec.encode(FramesOf(queue, pts, n)[..j + 1])[0].data
  {
    hide *;
    var fed := FramesOf(queue, pts, n);
    FramesPrefix(queue, pts, n);
    EmittedNext(codec, fed[..n - 1], fed, 0);
    LastPacket(codec, delay, shift, fed);
    LastData(codec, fed);
    MapOfConcat(EmittedSince(codec, fed[..n - 1], 0), Emitted(codec, fed));
    LastIndex(codec, delay, shift, queue, pts, n);
    FrameIndexIs(pts);
    if j == n - 1 {
      assert fed[..n] == fed;
    } else {
      RegularData(codec, delay, shift, queue, pts, n - 1, j);
      assert fed[..n - 1][..j + 1] == fed[..j + 1];
    }
  }

  lemma LastData(codec: Codec, fed: seq<Frame>)
    requires fed != [] && |Emitted(codec, fed)| == 1
    ensures |codec.encode(fed)| == 1 && Emitted(codec, fed)[0].data == codec.encode(fed)[0].data
  {
  }

  /** Frame `i` of a build with a regular encoder is this data: what the encoder makes of the frames fed up to `delay` after
      the one that it stands for, and those are the consecutive 1024 samples of what the stream's packets decode to. */
  ghost predicate MadeFrom(codec: Codec, media: Media, delay: nat, shift: nat, index: int, startMs: int, endMs: int, i: int,
                           data: seq<Byte>)
  {
    var fed, pts := BuildFed(codec, media, index, startMs, endMs), FirstPts(codec, index, startMs);
    var j := i - pts / 1024 + shift + delay;
    && Consecutive(fed, PcmRead(codec, media, startMs, endMs), pts)
    && delay <= j < |fed| && codec.encode(fed[..j + 1]) != [] && data == codec.encode(fed[..j + 1])[0].data
  }

  lemma BuiltData(codec: Codec, media: Media, delay: nat, shift: nat, index: int, startMs: int, endMs: int, i: int)
    requires Regular(codec, delay, shift) && i in MapOf(BuildPackets(codec, media, index, startMs, endMs))
    ensures MadeFrom(codec, media, delay, shift, index, startMs, endMs, i,
                     MapOf(BuildPackets(codec, media, index, startMs, endMs))[i])
  {
    hide *;
    var fed, pcm, pts := BuildFed(codec, media, index, startMs, endMs), PcmRead(codec, media, startMs, endMs),
                         FirstPts(codec, index, startMs);
    var n := FedCount(codec, index, startMs, endMs, Held(codec, media, startMs, endMs));
    StartsAt(codec, index, startMs);
    BuiltFrames(codec, media, delay, shift, index, startMs, endMs, i);
    FramesFed(codec, media, index, startMs, endMs);
    FedIsConsecutive(codec, media, index, startMs, endMs);
    PacketsBuilt(codec, media, index, startMs, endMs);
    RegularData(codec, delay, shift, pcm, pts, n, i - pts / 1024 + shift + delay);
    MadeFromIs(codec, media, delay, shift, index, startMs, endMs, i);
  }

  lemma MadeFromIs(codec: Codec, media: Media, delay: nat, shift: nat, index: int, startMs: int, endMs: int, i: int)
    requires var fed, pts := BuildFed(codec, media, index, startMs, endMs), FirstPts(codec, index, startMs);
             var j := i - pts / 1024 + shift + delay;
             && Consecutive(fed, PcmRead(codec, media, startMs, endMs), pts)
             && delay <= j < |fed| && codec.encode(fed[..j + 1]) != []
    ensures var j := i - FirstPts(codec, index, startMs) / 1024 + shift + delay;
            MadeFrom(codec, media, delay, shift, index, startMs, endMs, i,
                     codec.encode(BuildFed(codec, media, index, startMs, endMs)[..j + 1])[0].data)
  {
    hide BuildFed, PcmRead, FirstPts, Consecutive;
  }

  // ---- which frame a segment takes ----

  /** Packets of the encoder, with the time of the frame that made them available where they have none. */
  function Stamped(raw: seq<RawPacket>, pts: int): seq<AacPacket> {
    if raw == [] then []
    else
      var time := match raw[0].pts case Some(t) => t case None => pts;
      [AacPacket(time, raw[0].data)] + Stamped(raw[1..], pts)
  }

  /** All that the encoder gives for the frames of a build, in order. */
  function PacketsGiven(codec: Codec, fed: seq<Frame>): seq<AacPacket> {
    if fed == [] then []
    else PacketsGiven(codec, fed[..|fed| - 1]) + Stamped(codec.encode(fed), fed[|fed| - 1].pts)
  }

  lemma {:induction false} EveryPacketIsKept(codec: Codec, fed: seq<Frame>)
    ensures EmittedSince(codec, fed, 0) == PacketsGiven(codec, fed)
  {
    if fed != [] {
      EveryPacketIsKept(codec, fed[..|fed| - 1]);
      EmittedNext(codec, fed[..|fed| - 1], fed, 0);
      StampedAre(codec.encode(fed), fed[|fed| - 1].pts);
      assert Emitted(codec, fed) == Stamped(codec.encode(fed), fed[|fed| - 1].pts);
    }
  }

  /** Whatever the encoder: a build's packets are all that it gives for the consecutive 1024 samples of what the stream's
      packets decode to. */
  ghost predicate MadeOfStream(codec: Codec, media: Media, index: int, startMs: int, endMs: int) {
    var fed := BuildFed(codec, media, index, startMs, endMs);
    && Consecutive(fed, PcmRead(codec, media, startMs, endMs), FirstPts(codec, index, startMs))
    && BuildPackets(codec, media, index, startMs, endMs) == PacketsGiven(codec, fed)
  }

  lemma BuildIsMade(codec: Codec, media: Media, index: int, startMs: int, endMs: int)
    ensures MadeOfStream(codec, media, index, startMs, endMs)
  {
    hide BuildFed, PcmRead, FirstPts, Consecutive, PacketsGiven, EmittedSince;
    FedIsConsecutive(codec, media, index, startMs, endMs);
    EveryPacketIsKept(codec, BuildFed(codec, media, index, startMs, endMs));
  }

  lemma {:induction false} StampedAre(raw: seq<RawPacket>, pts: int)
    ensures |Stamped(raw, pts)| == |raw|
    ensures forall i :: 0 <= i < |raw| ==>
              Stamped(raw, pts)[i] == AacPacket(if raw[i].pts.Some? then raw[i].pts.value else pts, raw[i].data)
  {
    if raw != [] {
      StampedAre(raw[1..], pts);
    }
  }

  /** Of the packets of a build with the same index, the last that is not empty gives the frame. */
  lemma {:induction false} LastOfBuild(packets: seq<AacPacket>, k: nat)
    requires k < |packets| && packets[k].data != []
    requires forall m :: k < m < |packets| && packets[m].data != [] ==> packets[m].pts / 1024 != packets[k].pts / 1024
    ensures packets[k].pts / 1024 in MapOf(packets) && MapOf(packets)[packets[k].pts / 1024] == packets[k].data
  {
    var n := |packets| - 1;
    FrameIndexIs(packets[n].pts);
    hide FrameIndex;
    if k < n {
      LastOfBuild(packets[..n], k);
    }
  }

  /** There is a frame exactly where there is such a packet. */
  lemma {:induction false} BuiltIff(packets: seq<AacPacket>, i: int)
    ensures i in MapOf(packets) <==> exists k :: 0 <= k < |packets| && packets[k].data != [] && packets[k].pts / 1024 == i
  {
    if packets != [] {
      var n := |packets| - 1;
      BuiltIff(packets[..n], i);
      FrameIndexIs(packets[n].pts);
      hide FrameIndex;
      assert forall k :: 0 <= k < n ==> packets[..n][k] == packets[k];
    }
  }

  /** Of a frame that the session's cache lacks, it takes what the first packet gives that is not empty. */
  lemma {:induction false} FirstIntoCache(cache: FrameCache, packets: seq<AacPacket>, k: nat)
    requires k < |packets| && packets[k].data != [] && packets[k].pts / 1024 !in cache
    requires forall m :: 0 <= m < k && packets[m].data != [] ==> packets[m].pts / 1024 != packets[k].pts / 1024
    ensures packets[k].pts / 1024 in CacheWith(cache, packets)
    ensures CacheWith(cache, packets)[packets[k].pts / 1024] == packets[k].data
  {
    var n := |packets| - 1;
    FrameIndexIs(packets[n].pts);
    MergedKeys(cache, packets[..n]);
    BuiltIff(packets[..n], packets[k].pts / 1024);
    hide FrameIndex, MapOf;
    if k < n {
      FirstIntoCache(cache, packets[..n], k);
    }
  }

  /** A frame that the build has, or else the session's cache. */
  function Taken(built: FrameCache, cache: FrameCache, i: int): Option<seq<Byte>> {
    if i in built then Some(built[i]) else if i in cache then Some(cache[i]) else None
  }

  /** The sample for frame `i`, if it is there: its time is its own, wherever it comes from. */
  function TakenAt(built: FrameCache, cache: FrameCache, i: int): seq<Sample>
    requires -0x20_0000_0000_0000 <= i < 0x20_0000_0000_0000
  {
    match Taken(built, cache, i)
    case Some(data) => [Sample(data, 1024 * i, 1024, 0, true)]
    case None => []
  }

  /** The sample is a frame of the range that is there. */
  ghost predicate TakenFrom(built: FrameCache, cache: FrameCache, lo: int, hi: int, s: Sample)
    requires -0x20_0000_0000_0000 <= lo <= hi <= 0x20_0000_0000_0000
  {
    exists i :: lo <= i < hi && s in TakenAt(built, cache, i)
  }

  ghost predicate TimesIncrease(samples: seq<Sample>) {
    forall j, k :: 0 <= j < k < |samples| ==> samples[j].dts < samples[k].dts
  }

  /** The audio of an output range is every frame of it that is there, in order, each at `1024 * i`, whether it was built
      now or comes from the session's cache; a frame that neither has leaves a gap. */
  lemma {:induction false} FramesTaken(built: FrameCache, cache: FrameCache, lo: int, hi: int)
    requires -0x20_0000_0000_0000 <= lo <= hi <= 0x20_0000_0000_0000
    ensures forall s :: s in AudioSamples(built, cache, lo, hi) <==> TakenFrom(built, cache, lo, hi, s)
    ensures TimesIncrease(AudioSamples(built, cache, lo, hi))
    decreases hi - lo
  {
    hide Taken, TakenFrom, AudioSamples;
    NoneTaken(built, cache, lo);
    if lo < hi {
      var before, last := AudioSamples(built, cache, lo, hi - 1), TakenAt(built, cache, hi - 1);
      FramesTaken(built, cache, lo, hi - 1);
      LastTaken(built, cache, lo, hi);
      forall s
        ensures TakenFrom(built, cache, lo, hi, s) <==> s in before || s in last
        ensures s in before ==> s.dts < 1024 * (hi - 1)
      {
        TakenNext(built, cache, lo, hi, s);
      }
    }
  }

  lemma NoneTaken(built: FrameCache, cache: FrameCache, lo: int)
    requires -0x20_0000_0000_0000 <= lo <= 0x20_0000_0000_0000
    ensures AudioSamples(built, cache, lo, lo) == [] && forall s :: !TakenFrom(built, cache, lo, lo, s)
  {
  }

  lemma LastTaken(built: FrameCache, cache: FrameCache, lo: int, hi: int)
    requires -0x20_0000_0000_0000 <= lo < hi <= 0x20_0000_0000_0000
    ensures AudioSamples(built, cache, lo, hi) == AudioSamples(built, cache, lo, hi - 1) + TakenAt(built, cache, hi - 1)
    ensures TakenAt(built, cache, hi - 1) == [] ||
            (|TakenAt(built, cache, hi - 1)| == 1 && TakenAt(built, cache, hi - 1)[0].dts == 1024 * (hi - 1))
  {
  }

  lemma TakenNext(built: FrameCache, cache: FrameCache, lo: int, hi: int, s: Sample)
    requires -0x20_0000_0000_0000 <= lo < hi <= 0x20_0000_0000_0000
    ensures TakenFrom(built, cache, lo, hi, s)
       <==> TakenFrom(built, cache, lo, hi - 1, s) || s in TakenAt(built, cache, hi - 1)
    ensures TakenFrom(built, cache, lo, hi - 1, s) ==> s.dts < 1024 * (hi - 1)
  {
  }

  /** So it is in a segment: where the build has no frame, the cache is asked that the session had before. */
  lemma FramesOfSegment(source: Source, codec: Codec, index: int, startMs: int, endMs: int, cache: FrameCache)
    requires source.codec == Some(codec)
    requires -0x20_0000_0000_0000 <= OutputStart(codec, index, startMs)
    requires OutputEnd(codec, index, startMs, endMs) <= 0x20_0000_0000_0000
    ensures OutputStart(codec, index, startMs) <= OutputEnd(codec, index, startMs, endMs)
    ensures var built := MapOf(BuildPackets(codec, source.media, index, startMs, endMs));
            var lo, hi := OutputStart(codec, index, startMs), OutputEnd(codec, index, startMs, endMs);
            forall s :: s in BuildAudio(source, index, startMs, endMs, cache) <==> TakenFrom(built, cache, lo, hi, s)
    ensures TimesIncrease(BuildAudio(source, index, startMs, endMs, cache))
  {
    var packets := BuildPackets(codec, source.media, index, startMs, endMs);
    var lo, hi := OutputStart(codec, index, startMs), OutputEnd(codec, index, startMs, endMs);
    OutputNonEmpty(codec, index, startMs, endMs);
    hide BuildPackets, MapOf, CacheWith, OutputStart, OutputEnd, AudioSamples, TimesIncrease, TakenFrom;
    FramesTaken(MapOf(packets), CacheWith(cache, packets), lo, hi);
    forall i
      ensures Taken(MapOf(packets), CacheWith(cache, packets), i) == Taken(MapOf(packets), cache, i)
    {
      MergedKeys(cache, packets);
    }
    forall s
      ensures TakenFrom(MapOf(packets), CacheWith(cache, packets), lo, hi, s)
         <==> TakenFrom(MapOf(packets), cache, lo, hi, s)
    {
      SameTaken(MapOf(packets), CacheWith(cache, packets), cache, lo, hi, s);
    }
  }

  lemma SameTaken(built: FrameCache, a: FrameCache, b: FrameCache, lo: int, hi: int, s: Sample)
    requires forall i :: Taken(built, a, i) == Taken(built, b, i)
    requires -0x20_0000_0000_0000 <= lo <= hi <= 0x20_0000_0000_0000
    ensures TakenFrom(built, a, lo, hi, s) <==> TakenFrom(built, b, lo, hi, s)
  {
    hide Taken;
    forall i | lo <= i < hi
      ensures TakenAt(built, a, i) == TakenAt(built, b, i)
    {
      assert Taken(built, a, i) == Taken(built, b, i);
    }
  }

  /** The output range holds one frame at least: where the bounds give none, just the first. */
  lemma RangeIsNeverEmpty(codec: Codec, index: int, startMs: int, endMs: int)
    ensures var lo := if index == 0 then (0 - codec.initialPadding) / 1024 else 48 * startMs / 1024;
            && OutputStart(codec, index, startMs) == lo
            && OutputEnd(codec, index, startMs, endMs) == if 48 * endMs / 1024 > lo then 48 * endMs / 1024 else lo + 1
  {
    OutputStartIs(codec, index, startMs);
    FrameIndexIs(MsToAudioPts(endMs));
    hide FrameIndex, OutputStart;
  }
}
