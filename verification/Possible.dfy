/** What playback takes for granted can be met: for every list of times there are a file with these cues, a stream with
    gapless audio, and an encoder, that meet it. */
module Possible {
  import opened Bytes
  import opened Wrappers
  import opened BoxTree
  import opened SegmentLayout
  import opened Aac
  import opened AudioSchedule
  import opened Cues
  import opened Keyframes
  import opened Demux
  import opened Eviction
  import opened SessionSpec
  import opened Tiling
  import opened Coverage
  import opened History
  import opened EndToEnd
  import opened SmallFile

  // ---- a stream and an encoder ----

  const AUDIO_MS: nat := 0x800_0400

  /** One keyframe without data at every cue. */
  function Keys(times: seq<int>): (stream: seq<Packet>)
    requires SmallTimes(times)
    ensures |stream| == |times|
  {
    seq(|times|, i requires 0 <= i < |times| =>
      VideoPacket(true, times[i], Some(16 * times[i]), Some(16 * times[i]), 0, []))
  }

  /** An audio packet every millisecond, from `from` up to `end`. */
  function Ticking(from: nat, end: nat): (stream: seq<Packet>)
    requires from <= end
    ensures |stream| == end - from
    ensures forall p :: p in stream ==> p.AudioPacket?
  {
    seq(end - from, k => AudioPacket(Some(from + k), []))
  }

  function Stream(times: seq<int>): seq<Packet>
    requires SmallTimes(times)
  {
    Keys(times) + Ticking(0, AUDIO_MS)
  }

  function Silence(): (s: seq<Stereo>)
    ensures |s| == 48
  {
    seq(48, i => Stereo(0.0, 0.0))
  }

  /** Every packet decodes to one millisecond; the encoder gives a byte for each frame, `delay` frames late. */
  function SilentCodec(padding: nat, delay: nat): Codec {
    Codec(padding, (packets: seq<seq<Byte>>) => Silence(),
          (fed: seq<Frame>) => if |fed| <= delay then [] else [RawPacket(Some(fed[|fed| - 1 - delay].pts), [0])])
  }

  function Playing(times: seq<int>, codec: Codec): Source
    requires SmallTimes(times)
  {
    Source(Media(FileOf(times), Stream(times), p => 0, ms => 0), Some(codec))
  }

  lemma SilentIsRegular(padding: nat, delay: nat)
    ensures Regular(SilentCodec(padding, delay), delay, 0) && SilentCodec(padding, delay).initialPadding == padding
  {
  }

  // ---- the audio that is read ----

  lemma {:induction false} AudioOfTicks(from: nat, end: nat, at: nat)
    requires from + at <= end
    ensures AudioOnly(Ticking(from, end), at) == Ticking(from + at, end)
    decreases end - from - at
  {
    if from + at < end {
      AudioOfTicks(from, end, at + 1);
      assert [Ticking(from, end)[at]] + Ticking(from + at + 1, end) == Ticking(from + at, end);
    }
  }

  lemma {:induction false} AudioAfterKeys(keys: seq<Packet>, audio: seq<Packet>, at: nat)
    requires at <= |keys| && forall p :: p in keys ==> p.VideoPacket?
    ensures AudioOnly(keys + audio, at) == AudioOnly(audio, 0)
    decreases |keys| - at
  {
    if at < |keys| {
      assert (keys + audio)[at] in keys;
      AudioAfterKeys(keys, audio, at + 1);
    } else {
      AudioLater(keys, audio, 0);
    }
  }

  lemma {:induction false} AudioLater(keys: seq<Packet>, audio: seq<Packet>, at: nat)
    requires at <= |audio|
    ensures AudioOnly(keys + audio, |keys| + at) == AudioOnly(audio, at)
    decreases |audio| - at
  {
    if at < |audio| {
      AudioLater(keys, audio, at + 1);
      assert (keys + audio)[|keys| + at] == audio[at];
    }
  }

  lemma StreamAudio(times: seq<int>)
    requires SmallTimes(times)
    ensures AudioOnly(Stream(times), 0) == Ticking(0, AUDIO_MS)
  {
    AudioAfterKeys(Keys(times), Ticking(0, AUDIO_MS), 0);
    AudioOfTicks(0, AUDIO_MS, 0);
  }

  lemma {:induction false} RelevantTicks(from: nat, end: nat, decodeStart: nat, limit: nat)
    requires from <= limit + 1 < end && decodeStart <= limit
    ensures RelevantPackets(Ticking(from, end), decodeStart, limit)
         == Ticking(if from < decodeStart then decodeStart else from, limit + 1)
    ensures FirstPast(Ticking(from, end), decodeStart, limit) == Some(limit + 1)
    decreases end - from
  {
    var ticks := Ticking(from, end);
    if from <= limit {
      RelevantTicks(from + 1, end, decodeStart, limit);
      assert ticks[1..] == Ticking(from + 1, end);
      if from >= decodeStart {
        assert [ticks[0]] + Ticking(from + 1, limit + 1) == Ticking(from, limit + 1);
      }
    }
  }

  lemma {:induction false} SilentSamples(padding: nat, delay: nat, packets: seq<seq<Byte>>)
    ensures Samples(SilentCodec(padding, delay), packets) == 48 * |packets|
  {
    if packets != [] {
      SilentSamples(padding, delay, packets[..|packets| - 1]);
    }
  }

  lemma TicksAreSupplied(padding: nat, delay: nat, decodeStart: nat, limit: nat)
    requires decodeStart <= limit && limit + 1 < AUDIO_MS
    ensures Supplied(SilentCodec(padding, delay), Ticking(0, AUDIO_MS), decodeStart, limit, 0, 0)
  {
    RelevantTicks(0, AUDIO_MS, decodeStart, limit);
    TickTime(decodeStart, limit + 1);
    SilentSamples(padding, delay, Relevant(Ticking(0, AUDIO_MS), decodeStart, limit));
    hide SilentCodec, Ticking, RelevantPackets, FirstPast, Samples;
  }

  /** The audio of every segment is supplied from the decode start on, without loss. */
  lemma TicksSupply(times: seq<int>, padding: nat, delay: nat, startMs: int, endMs: int)
    requires SmallTimes(times) && 0 <= startMs <= endMs < 0x800_0000
    ensures var codec := SilentCodec(padding, delay);
            SegmentSupplied(codec, Playing(times, codec).media, startMs, endMs, 0, 0)
  {
    var codec := SilentCodec(padding, delay);
    var media := Playing(times, codec).media;
    hide *;
    WithinAudio(startMs, endMs);
    ReadsAll(times, codec, DecodeStartMs(startMs));
    StreamAudio(times);
    TicksAreSupplied(padding, delay, DecodeStartMs(startMs), endMs + LOOKAHEAD_MS);
    SegmentSuppliedIf(codec, media, startMs, endMs);
  }

  lemma WithinAudio(startMs: int, endMs: int)
    requires 0 <= startMs <= endMs < 0x800_0000
    ensures 0 <= DecodeStartMs(startMs) <= endMs + LOOKAHEAD_MS && endMs + LOOKAHEAD_MS + 1 < AUDIO_MS
  {
  }

  lemma SegmentSuppliedIf(codec: Codec, media: Media, startMs: int, endMs: int)
    requires SeekIndex(media, DecodeStartMs(startMs)) == 0 && forall p :: p in AudioOnly(media.stream, 0) ==> p.AudioPacket?
    requires Supplied(codec, AudioOnly(media.stream, 0), DecodeStartMs(startMs), endMs + LOOKAHEAD_MS, 0, 0)
    ensures SegmentSupplied(codec, media, startMs, endMs, 0, 0)
  {
    hide Supplied, AudioOnly, SeekIndex;
  }

  lemma TickTime(from: nat, end: nat)
    requires from < end
    ensures AudioTime(Ticking(from, end)[0], from) == from
  {
  }

  lemma ReadsAll(times: seq<int>, codec: Codec, ms: int)
    requires SmallTimes(times)
    ensures SeekIndex(Playing(times, codec).media, ms) == 0
    ensures Playing(times, codec).media.stream == Stream(times)
  {
    hide CuesOf, Stream, FileOf, LeadingCues;
  }

  // ---- the video ----

  predicate Spread(times: seq<int>) {
    forall i {:trigger times[i]} :: 0 < i < |times| ==> times[i - 1] + 22 <= times[i]
  }

  lemma {:induction false} SpreadApart(times: seq<int>, i: nat, j: nat)
    requires Spread(times) && i < j < |times|
    ensures times[i] + 22 <= times[j]
  {
    assert times[j - 1] + 22 <= times[j];
    if i < j - 1 {
      SpreadApart(times, i, j - 1);
    }
  }

  lemma SpreadIncreases(times: seq<int>)
    requires Spread(times)
    ensures StrictlyIncreasing(times)
  {
    forall i, j | 0 <= i < j < |times|
      ensures times[i] < times[j]
    {
      SpreadApart(times, i, j);
    }
  }

  /** The video of the stream is that of its first part. */
  lemma {:induction false} VideoOfStream(keys: seq<Packet>, audio: seq<Packet>, lo: nat, hi: nat)
    requires lo <= hi <= |keys| + |audio|
    requires (forall p :: p in keys ==> Timed(p)) && forall p :: p in audio ==> p.AudioPacket?
    ensures VideoIn(keys + audio, lo, hi)
         == if lo >= |keys| then [] else keys[lo..if hi < |keys| then hi else |keys|]
  {
    hide *;
    if lo == hi {
      NoVideo(keys + audio, lo);
    } else {
      VideoOfStream(keys, audio, lo, hi - 1);
      LastVideo(keys + audio, lo, hi);
      PartOf(keys, audio, hi - 1);
      if hi <= |keys| {
        assert keys[lo..hi] == keys[lo..hi - 1] + [keys[hi - 1]];
      }
    }
  }

  lemma PartOf(keys: seq<Packet>, audio: seq<Packet>, i: nat)
    requires i < |keys| + |audio|
    requires (forall p :: p in keys ==> Timed(p)) && forall p :: p in audio ==> p.AudioPacket?
    ensures i < |keys| ==> (keys + audio)[i] == keys[i] && Timed(keys[i])
    ensures i >= |keys| ==> !Timed((keys + audio)[i])
  {
    if i >= |keys| {
      assert (keys + audio)[i] in audio;
    }
  }

  lemma LastVideo(stream: seq<Packet>, lo: nat, hi: nat)
    requires lo < hi <= |stream|
    ensures VideoIn(stream, lo, hi)
         == VideoIn(stream, lo, hi - 1) + if Timed(stream[hi - 1]) then [stream[hi - 1]] else []
  {
  }

  lemma KeysAreTimed(times: seq<int>)
    requires SmallTimes(times)
    ensures forall p :: p in Keys(times) ==> Timed(p) && p.data == [] && p.VideoPacket?
  {
  }

  lemma KeyTimes(times: seq<int>, i: nat)
    requires SmallTimes(times) && i < |times|
    ensures var p := Keys(times)[i]; Timed(p) && DecodeAt(p) == ShowAt(p) == 16 * times[i] && 0 <= times[i] < 0x800_0000
  {
  }

  lemma SteadyKeys(times: seq<int>, a: nat, b: nat)
    requires SmallTimes(times) && Spread(times) && a <= b <= |times|
    ensures (forall p :: p in Keys(times)[a..b] ==> Timed(p)) && Steady(Keys(times)[a..b])
  {
    hide Keys, DecodeAt, ShowAt, Timed, SmallTimes, Spread;
    var v := Keys(times)[a..b];
    forall i | 0 <= i < |v|
      ensures Timed(v[i]) && DecodeAt(v[i]) == ShowAt(v[i])
      ensures i > 0 ==> Timed(v[i - 1]) && 0 < DecodeAt(v[i]) - DecodeAt(v[i - 1]) < 0x1_0000_0000
    {
      KeyTimes(times, a + i);
      if i > 0 {
        KeyTimes(times, a + i - 1);
        SpreadApart(times, a + i - 1, a + i);
      }
    }
  }

  lemma SteadyVideo(times: seq<int>, a: nat, b: nat)
    requires SmallTimes(times) && Spread(times) && a <= b <= |Stream(times)|
    ensures Steady(VideoIn(Stream(times), a, b))
  {
    KeysAreTimed(times);
    hide Keys, Ticking, Timed, Steady, VideoIn;
    SteadyKeys(times, 0, 0);
    VideoOfStream(Keys(times), Ticking(0, AUDIO_MS), a, b);
    if a < |times| {
      SteadyKeys(times, a, if b < |times| then b else |times|);
    } else {
      assert Keys(times)[0..0] == [];
    }
  }

  lemma SteadyBetween(times: seq<int>, codec: Codec, i: nat, j: nat)
    requires SmallTimes(times) && Spread(times)
    requires i < |Bounds(Playing(times, codec))| && j < |Bounds(Playing(times, codec))|
    ensures Steady(Between(Playing(times, codec), i, j))
  {
    PlayingIs(times, codec);
    var source, stream := Playing(times, codec), Stream(times);
    hide *;
    SteadyVideo(times, 0, 0);
    NoVideo(stream, 0);
    var a, b := Cut(stream, Bounds(source)[i]), Cut(stream, Bounds(source)[j]);
    BetweenIsVideo(source, i, j);
    if a <= b <= |stream| {
      SteadyVideo(times, a, b);
    }
  }

  lemma BetweenIsVideo(source: Source, i: nat, j: nat)
    requires i < |Bounds(source)| && j < |Bounds(source)|
    ensures var stream := source.media.stream;
            var a, b := Cut(stream, Bounds(source)[i]), Cut(stream, Bounds(source)[j]);
            Between(source, i, j) == if a <= b <= |stream| then VideoIn(stream, a, b) else []
  {
    var a, b := Cut(source.media.stream, Bounds(source)[i]), Cut(source.media.stream, Bounds(source)[j]);
    hide Bounds, Cut, VideoIn;
    if a <= b <= |source.media.stream| {
      VideoIsFiltered(source.media.stream, a, b);
    }
  }

  lemma KeyIs(times: seq<int>, i: nat)
    requires SmallTimes(times) && i < |Stream(times)|
    ensures IsKey(Stream(times)[i]) <==> i < |times|
    ensures i < |times| ==> Stream(times)[i].ms == times[i] && Timed(Stream(times)[i])
    ensures Stream(times)[i].VideoPacket? ==> i < |times|
  {
    if i >= |times| {
      assert Stream(times)[i] in Ticking(0, AUDIO_MS);
    }
  }

  lemma KeysInOrder(times: seq<int>)
    requires SmallTimes(times) && Spread(times)
    ensures VideoIsTimed(Stream(times))
    ensures forall i, j :: 0 <= i < j < |Stream(times)| && IsKey(Stream(times)[i]) && IsKey(Stream(times)[j]) ==>
              Stream(times)[i].ms < Stream(times)[j].ms
  {
    hide Stream, SmallTimes;
    forall p | p in Stream(times) && p.VideoPacket?
      ensures p.dts.Some? || p.pts.Some?
    {
      var i :| 0 <= i < |Stream(times)| && Stream(times)[i] == p;
      KeyIs(times, i);
    }
    forall i, j | 0 <= i < j < |Stream(times)| && IsKey(Stream(times)[i]) && IsKey(Stream(times)[j])
      ensures Stream(times)[i].ms < Stream(times)[j].ms
    {
      KeyIs(times, i);
      KeyIs(times, j);
      SpreadApart(times, i, j);
    }
  }

  lemma CuesFit(media: Media, cues: seq<CueEntry>, times: seq<int>, keyOf: seq<nat>)
    requires SmallTimes(times) && Spread(times) && keyOf == seq(|times|, i => i)
    requires |cues| == |times| && forall i :: 0 <= i < |times| ==> cues[i].timeMs == times[i]
    requires media.stream == Stream(times) && forall p :: media.packetAt(p) == 0
    ensures CuesDescribe(media, cues, keyOf) && VideoIsTimed(media.stream)
  {
    KeysInOrder(times);
    SpreadIncreases(times);
    assert |times| < |Stream(times)|;
    hide Stream, SmallTimes, IsKey, VideoIsTimed;
    forall i | 0 <= i < |times|
      ensures IsKey(Stream(times)[i]) && Stream(times)[i].ms == times[i]
    {
      KeyIs(times, i);
    }
  }

  lemma TimesAre(cues: seq<CueEntry>)
    ensures |TimesOf(cues)| == |cues| && forall i :: 0 <= i < |cues| ==> TimesOf(cues)[i] == cues[i].timeMs
  {
  }

  lemma ReadsFromStart(media: Media, keyOf: seq<nat>)
    requires CuesDescribe(media, CuesOf(media.file), keyOf) && VideoIsTimed(media.stream)
    requires CuesOf(media.file) != [] && CuesOf(media.file)[0].timeMs >= 0
    requires StrictlyIncreasing(TimesOf(CuesOf(media.file))) && forall ms :: media.fallback(ms) == 0
    ensures Described(media, keyOf)
  {
    hide CuesOf, CuesDescribe, VideoIsTimed, StrictlyIncreasing, TimesOf, Cut;
  }

  lemma PlayingIs(times: seq<int>, codec: Codec)
    requires SmallTimes(times)
    ensures var source := Playing(times, codec);
            && source.media.file == FileOf(times) && source.media.stream == Stream(times) && source.codec == Some(codec)
            && (forall p :: source.media.packetAt(p) == 0) && (forall ms :: source.media.fallback(ms) == 0)
            && Bounds(source) == Filtered(TimesOf(CuesOf(FileOf(times))), 10000)
  {
    hide Filtered, CuesOf, FileOf, Stream;
  }

  lemma IsDescribed(times: seq<int>, codec: Codec) returns (keyOf: seq<nat>)
    requires SmallTimes(times) && Spread(times)
    ensures Described(Playing(times, codec).media, keyOf)
    ensures Bounds(Playing(times, codec)) == Filtered(times, 10000)
  {
    var cues, media := CuesOf(FileOf(times)), Playing(times, codec).media;
    keyOf := seq(|times|, i => i);
    hide CuesOf, FileOf, Playing, Filtered, Described, CuesDescribe, VideoIsTimed, Stream, Bounds;
    PlayingIs(times, codec);
    FileHasTimes(times);
    TimesAre(cues);
    SpreadIncreases(times);
    CuesFit(media, cues, times, keyOf);
    ReadsFromStart(media, keyOf);
  }

  // ---- sizes ----

  /** Frames of at most one byte. */
  predicate Small(frames: FrameCache) {
    forall i :: i in frames ==> |frames[i]| <= 1
  }

  predicate SmallPackets(packets: seq<AacPacket>) {
    forall i :: 0 <= i < |packets| ==> |packets[i].data| <= 1
  }

  predicate SmallSamples(samples: seq<Sample>) {
    forall i :: 0 <= i < |samples| ==> |samples[i].data| <= 1
  }

  lemma {:induction false} PayloadAtMost(samples: seq<Sample>)
    requires SmallSamples(samples)
    ensures |SamplePayload(samples)| <= |samples|
  {
    if samples != [] {
      PayloadAtMost(samples[..|samples| - 1]);
    }
  }

  lemma {:induction false} EmittedSmall(padding: nat, delay: nat, fed: seq<Frame>, n: nat)
    requires n <= |fed|
    ensures SmallPackets(EmittedSince(SilentCodec(padding, delay), fed, n))
    decreases |fed| - n
  {
    if n < |fed| {
      EmittedSmall(padding, delay, fed, n + 1);
    }
  }

  lemma {:induction false} MapSmall(packets: seq<AacPacket>)
    requires SmallPackets(packets)
    ensures Small(MapOf(packets))
  {
    hide FrameIndex;
    if packets != [] {
      MapSmall(packets[..|packets| - 1]);
    }
  }

  lemma {:induction false} CacheSmall(cache: FrameCache, packets: seq<AacPacket>)
    requires SmallPackets(packets) && Small(cache)
    ensures Small(CacheWith(cache, packets))
  {
    hide FrameIndex;
    if packets != [] {
      CacheSmall(cache, packets[..|packets| - 1]);
    }
  }

  lemma {:induction false} AudioSmall(built: FrameCache, cache: FrameCache, lo: int, hi: int)
    requires lo <= hi && Small(built) && Small(cache)
    ensures SmallSamples(AudioSamples(built, cache, lo, hi)) && |AudioSamples(built, cache, lo, hi)| <= hi - lo
    decreases hi - lo
  {
    if lo < hi {
      AudioSmall(built, cache, lo, hi - 1);
    }
  }

  lemma BuildPacketsSmall(padding: nat, delay: nat, media: Media, index: int, startMs: int, endMs: int)
    ensures SmallPackets(BuildPackets(SilentCodec(padding, delay), media, index, startMs, endMs))
  {
    EmittedSmall(padding, delay, BuildFed(SilentCodec(padding, delay), media, index, startMs, endMs), 0);
    hide BuildFed, EmittedSince, SmallPackets, SilentCodec;
  }

  lemma BuildAudioSmall(times: seq<int>, padding: nat, delay: nat, index: int, startMs: int, endMs: int, cache: FrameCache)
    requires SmallTimes(times) && Small(cache)
    ensures var codec := SilentCodec(padding, delay);
            var audio := BuildAudio(Playing(times, codec), index, startMs, endMs, cache);
            SmallSamples(audio) && |audio| <= OutputEnd(codec, index, startMs, endMs) - OutputStart(codec, index, startMs)
  {
    var codec := SilentCodec(padding, delay);
    PlayingIs(times, codec);
    hide SilentCodec, Playing, BuildPackets, MapOf, CacheWith, AudioSamples, OutputStart, OutputEnd, Small, SmallSamples;
    var source := Playing(times, codec);
    var packets := BuildPackets(codec, source.media, index, startMs, endMs);
    BuildPacketsSmall(padding, delay, source.media, index, startMs, endMs);
    MapSmall(packets);
    CacheSmall(cache, packets);
    OutputNonEmpty(codec, index, startMs, endMs);
    AudioSmall(MapOf(packets), CacheWith(cache, packets), OutputStart(codec, index, startMs),
               OutputEnd(codec, index, startMs, endMs));
  }

  lemma BuildVideoSmall(times: seq<int>, codec: Codec, startMs: int, endMs: int)
    requires SmallTimes(times)
    ensures var video := BuildVideo(Playing(times, codec).media, startMs, endMs);
            SmallSamples(video) && |video| <= |times|
  {
    PlayingIs(times, codec);
    var media := Playing(times, codec).media;
    hide *;
    var v := VideoPackets(media.stream, SeekIndex(media, DecodeStartMs(startMs)), startMs, endMs);
    BuildVideoIs(media, startMs, endMs);
    VideoIsKeys(times, SeekIndex(media, DecodeStartMs(startMs)), startMs, endMs);
    NoDataInSamples(v);
  }

  lemma VideoIsKeys(times: seq<int>, from: nat, startMs: int, endMs: int)
    requires SmallTimes(times) && from <= |Stream(times)|
    ensures var v := VideoPackets(Stream(times), from, startMs, endMs);
            |v| <= |times| && forall p :: p in v ==> p.data == []
  {
    var stream := Stream(times);
    KeysAreTimed(times);
    hide FirstKey, Keys, Ticking, SmallTimes, Timed;
    var first := FirstKey(stream, from, startMs);
    VideoOfStream(Keys(times), Ticking(0, AUDIO_MS), first, FirstKey(stream, first, endMs));
    forall p | p in VideoPackets(stream, from, startMs, endMs)
      ensures p.data == []
    {
      assert p in Keys(times);
    }
  }

  lemma NoDataInSamples(packets: seq<Packet>)
    requires forall p :: p in packets ==> Timed(p) && p.data == []
    ensures var samples := FixedDurations(SamplesOf(packets));
            SmallSamples(samples) && |samples| == |packets|
  {
    hide FixedDuration;
  }

  // ---- how large a segment of one or two tracks is ----

  lemma OneTrackSize(q: U32, a: TrackInput)
    ensures SegmentSize(q, [a]) <= 176 + 12 * |a.samples| + |SamplePayload(a.samples)|
  {
    TrafSize(a, 0);
    OneTrack(q, a);
    Sizes(q, [a]);
    hide *;
    SizeAllConcat([Mfhd(q)], [Traf(a, 0)]);
    SizeAllOne(Mfhd(q));
    SizeAllOne(Traf(a, 0));
  }

  lemma OneTrack(q: U32, a: TrackInput)
    ensures Moof(q, [a], Repeat(0, 1)).children == [Mfhd(q)] + [Traf(a, 0)]
    ensures Payload([a]) == SamplePayload(a.samples)
  {
    hide Mfhd, Traf, SamplePayload;
    assert [a][..0] == [];
  }

  lemma TwoTrackSize(q: U32, a: TrackInput, b: TrackInput)
    ensures SegmentSize(q, [a, b])
         <= 300 + 12 * (|a.samples| + |b.samples|) + |SamplePayload(a.samples)| + |SamplePayload(b.samples)|
  {
    TrafSize(a, 0);
    TrafSize(b, 0);
    TwoTracks(q, a, b);
    Sizes(q, [a, b]);
    hide *;
    SizeAllConcat([Mfhd(q)], [Traf(a, 0)]);
    SizeAllConcat([Mfhd(q)] + [Traf(a, 0)], [Traf(b, 0)]);
    SizeAllOne(Mfhd(q));
    SizeAllOne(Traf(a, 0));
    SizeAllOne(Traf(b, 0));
  }

  lemma TwoTracks(q: U32, a: TrackInput, b: TrackInput)
    ensures Moof(q, [a, b], Repeat(0, 2)).children == [Mfhd(q)] + [Traf(a, 0)] + [Traf(b, 0)]
    ensures Payload([a, b]) == SamplePayload(a.samples) + SamplePayload(b.samples)
  {
    hide Mfhd, Traf, SamplePayload;
    assert [a, b][..1] == [a] && [a][..0] == [];
    assert Payload([a]) == SamplePayload(a.samples);
  }

  lemma Sizes(q: U32, tracks: seq<TrackInput>)
    ensures var moof := Moof(q, tracks, Repeat(0, |tracks|));
            SegmentSize(q, tracks) == 24 + 52 * |tracks| + (8 + SizeAll(moof.children)) + (8 + |Payload(tracks)|)
    ensures Size(Mfhd(q)) == 16
  {
    MfhdSize(q);
    var moof, mdat := Moof(q, tracks, Repeat(0, |tracks|)), Mdat(tracks);
    hide Payload, Trafs, Mfhd;
    assert Size(moof) == 8 + SizeAll(moof.children);
    assert Size(mdat) == 8 + |Payload(tracks)|;
  }

  lemma MfhdSize(q: U32)
    ensures Size(Mfhd(q)) == 16
  {
  }

  lemma InputsAre(video: seq<Sample>, audio: seq<Sample>)
    requires video != []
    ensures var a := Inputs(video, audio);
            && a[0].samples == video && (audio == [] ==> a == [a[0]])
            && (audio != [] ==> |a| == 2 && a == [a[0], a[1]] && a[1].samples == audio)
  {
  }

  lemma InputsSize(q: U32, video: seq<Sample>, audio: seq<Sample>)
    requires video != [] && SmallSamples(video) && SmallSamples(audio)
    ensures SegmentSize(q, Inputs(video, audio)) <= 300 + 13 * (|video| + |audio|)
  {
    InputsAre(video, audio);
    hide *;
    var inputs := Inputs(video, audio);
    PayloadAtMost(video);
    PayloadAtMost(audio);
    if audio == [] {
      OneTrackSize(q, inputs[0]);
    } else {
      TwoTrackSize(q, inputs[0], inputs[1]);
    }
  }

  lemma RangeIsSmall(codec: Codec, index: int, startMs: int, endMs: int)
    requires codec.initialPadding <= 1024 && 0 <= startMs <= endMs < 0x800_0000
    ensures OutputEnd(codec, index, startMs, endMs) - OutputStart(codec, index, startMs) <= 0x80_0000
  {
    FrameIndexIs(MsToAudioPts(startMs));
    FrameIndexIs(MsToAudioPts(endMs));
    FrameIndexIs(0 - codec.initialPadding);
    hide FrameIndex;
  }

  /** A session never caches anything but small frames. */
  lemma {:induction false} AfterIsSmall(times: seq<int>, padding: nat, delay: nat, requests: seq<int>)
    requires SmallTimes(times)
    ensures Small(After(Playing(times, SilentCodec(padding, delay)), requests).frames)
  {
    hide Request, Small, Playing, SilentCodec;
    if requests == [] {
      NothingIsSmall();
    } else {
      var n := |requests| - 1;
      AfterIsSmall(times, padding, delay, requests[..n]);
      RequestIsSmall(times, padding, delay, After(Playing(times, SilentCodec(padding, delay)), requests[..n]), requests[n]);
    }
  }

  lemma RequestIsSmall(times: seq<int>, padding: nat, delay: nat, st: SessionState, request: int)
    requires SmallTimes(times) && Small(st.frames)
    ensures Small(Request(Playing(times, SilentCodec(padding, delay)), st, request).0.frames)
  {
    hide *;
    var codec := SilentCodec(padding, delay);
    var source := Playing(times, codec);
    PlayingIs(times, codec);
    FramesAfter(source, codec, st, request);
    if Request(source, st, request).0.frames != st.frames {
      var startMs, endMs := Bounds(source)[request], Bounds(source)[request + 1];
      var packets := BuildPackets(codec, source.media, request, startMs, endMs);
      BuildPacketsSmall(padding, delay, source.media, request, startMs, endMs);
      CacheSmall(st.frames, packets);
      KeptSmall(CacheWith(st.frames, packets));
    }
  }

  lemma KeptSmall(frames: FrameCache)
    requires Small(frames)
    ensures Small(KeepLargest(frames, 4096))
  {
    KeepsLargest(frames, 4096);
  }

  /** Whatever small frames are cached, the segment is small. */
  lemma FitsAlways(times: seq<int>, padding: nat, delay: nat, index: int, startMs: int, endMs: int, cache: FrameCache)
    requires SmallTimes(times) && padding <= 1024 && Small(cache) && 0 <= startMs <= endMs < 0x800_0000
    ensures FitsSize(Playing(times, SilentCodec(padding, delay)), index, startMs, endMs, cache)
  {
    var codec := SilentCodec(padding, delay);
    BuildAudioSmall(times, padding, delay, index, startMs, endMs, cache);
    BuildVideoSmall(times, codec, startMs, endMs);
    RangeIsSmall(codec, index, startMs, endMs);
    hide Playing, SilentCodec, BuildVideo, BuildAudio, SegmentSize, Inputs, OutputStart, OutputEnd, SmallSamples, Small;
    var video := BuildVideo(Playing(times, codec).media, startMs, endMs);
    if video != [] {
      InputsSize(ToU32(index + 1), video, BuildAudio(Playing(times, codec), index, startMs, endMs, cache));
    }
  }

  // ---- playback can be had ----

  lemma MembersApart(times: seq<int>, a: int, b: int)
    requires Spread(times) && a in times && b in times && a < b
    ensures a + 22 <= b
  {
    var i :| 0 <= i < |times| && times[i] == a;
    var j :| 0 <= j < |times| && times[j] == b;
    if i < j {
      SpreadApart(times, i, j);
    } else if j < i {
      SpreadApart(times, j, i);
    }
  }

  lemma MemberSmall(times: seq<int>, v: int)
    requires SmallTimes(times) && v in times
    ensures 0 <= v < 0x800_0000
  {
  }

  lemma BoundsAreTimes(times: seq<int>, bounds: seq<int>, i: nat)
    requires bounds == Filtered(times, 10000) && i < |bounds|
    ensures bounds[i] in times
  {
    hide *;
    FilteredFrom(times, 10000, bounds[i]);
  }

  lemma BoundsSpread(times: seq<int>, bounds: seq<int>)
    requires SmallTimes(times) && Spread(times) && bounds == Filtered(times, 10000)
    ensures bounds != [] && bounds[0] == times[0] && LongEnough(bounds)
    ensures forall i :: 0 <= i < |bounds| ==> 0 <= bounds[i] < 0x800_0000
  {
    hide *;
    SpreadIncreases(times);
    SomeTimes(times);
    FilteredIncreases(times, 10000);
    forall i | 0 <= i < |bounds|
      ensures 0 <= bounds[i] < 0x800_0000
    {
      BoundsAreTimes(times, bounds, i);
      MemberSmall(times, bounds[i]);
    }
    AllApart(times, bounds);
  }

  lemma SomeTimes(times: seq<int>)
    requires SmallTimes(times)
    ensures times != []
  {
  }

  lemma AllApart(times: seq<int>, bounds: seq<int>)
    requires Spread(times) && bounds == Filtered(times, 10000) && StrictlyIncreasing(bounds)
    requires bounds != [] && bounds[0] >= 0
    ensures LongEnough(bounds)
  {
    hide Filtered, Spread, StrictlyIncreasing;
    forall i {:trigger bounds[i]} | 0 < i < |bounds|
      ensures bounds[i - 1] + 22 <= bounds[i]
    {
      BoundsAreTimes(times, bounds, i);
      BoundsAreTimes(times, bounds, i - 1);
      Increase(bounds, i);
      MembersApart(times, bounds[i - 1], bounds[i]);
    }
  }

  lemma Increase(s: seq<int>, i: nat)
    requires StrictlyIncreasing(s) && 0 < i < |s|
    ensures s[i - 1] < s[i]
  {
  }

  /** The audio of every segment is supplied without loss. */
  predicate AllSupplied(source: Source, codec: Codec) {
    forall i {:trigger Bounds(source)[i]} :: 0 <= i < |Bounds(source)| - 1 ==>
      SegmentSupplied(codec, source.media, Bounds(source)[i], Bounds(source)[i + 1], 0, 0)
  }

  /** For every list of times, at least 22 ms apart and starting within the preroll, there is a source with cues at these
      times, gapless audio, and an encoder that holds back up to ten frames, that meets all that playback of video and
      of audio takes for granted. */
  lemma Possible(times: seq<int>, padding: nat, delay: nat) returns (source: Source, keyOf: seq<nat>)
    requires SmallTimes(times) && Spread(times) && times[0] <= 2000 && padding <= 1024 && delay <= 10
    ensures source == Playing(times, SilentCodec(padding, delay)) && Bounds(source) == Filtered(times, 10000)
    ensures source.codec == Some(SilentCodec(padding, delay)) && Regular(SilentCodec(padding, delay), delay, 0)
    ensures Described(source.media, keyOf) && Buildable(source) && AllSupplied(source, SilentCodec(padding, delay))
    ensures LongEnough(Bounds(source))
    ensures forall i :: 0 <= i < |Bounds(source)| ==> 48 * Bounds(source)[i] < 0x8000_0000_0000_0000
    ensures Bounds(source) != [] && Steady(Between(source, 0, |Bounds(source)| - 1))
  {
    hide *;
    var codec := SilentCodec(padding, delay);
    source := Playing(times, codec);
    keyOf := IsDescribed(times, codec);
    PlayingIs(times, codec);
    BoundsSpread(times, Bounds(source));
    SilentIsRegular(padding, delay);
    SteadyBetween(times, codec, 0, |Bounds(source)| - 1);
    EverySegment(times, padding, delay);
  }

  lemma EverySegment(times: seq<int>, padding: nat, delay: nat)
    requires SmallTimes(times) && times[0] <= 2000 && padding <= 1024 && delay <= 10
    requires var bounds := Bounds(Playing(times, SilentCodec(padding, delay)));
             && LongEnough(bounds) && bounds[0] == times[0] && forall i :: 0 <= i < |bounds| ==> 0 <= bounds[i] < 0x800_0000
    ensures Buildable(Playing(times, SilentCodec(padding, delay)))
    ensures AllSupplied(Playing(times, SilentCodec(padding, delay)), SilentCodec(padding, delay))
  {
    hide Playing, SilentCodec, Bounds, FitsSize, SelfSufficient, SegmentSupplied, SmallTimes, LongEnough;
    var codec := SilentCodec(padding, delay);
    var source := Playing(times, codec);
    var bounds := Bounds(source);
    forall i {:trigger Bounds(source)[i]} | 0 <= i < |Bounds(source)| - 1
      ensures FitsSize(source, i, bounds[i], bounds[i + 1], map[]) && SelfSufficient(source, i, bounds[i], bounds[i + 1])
      ensures SegmentSupplied(codec, source.media, bounds[i], bounds[i + 1], 0, 0)
    {
      OneSegment(times, padding, delay, i);
    }
  }

  lemma OneSegment(times: seq<int>, padding: nat, delay: nat, i: nat)
    requires SmallTimes(times) && times[0] <= 2000 && padding <= 1024 && delay <= 10
    requires var bounds := Bounds(Playing(times, SilentCodec(padding, delay)));
             && LongEnough(bounds) && i + 1 < |bounds| && bounds[0] == times[0]
             && 0 <= bounds[i] < 0x800_0000 && 0 <= bounds[i + 1] < 0x800_0000
    ensures var codec := SilentCodec(padding, delay);
            var source := Playing(times, codec);
            var bounds := Bounds(source);
            && SegmentSupplied(codec, source.media, bounds[i], bounds[i + 1], 0, 0)
            && FitsSize(source, i, bounds[i], bounds[i + 1], map[]) && SelfSufficient(source, i, bounds[i], bounds[i + 1])
  {
    hide *;
    var codec := SilentCodec(padding, delay);
    var source := Playing(times, codec);
    var bounds := Bounds(source);
    SilentIsRegular(padding, delay);
    PlayingIs(times, codec);
    LastBounds(bounds, i + 1);
    TicksSupply(times, padding, delay, bounds[i], bounds[i + 1]);
    NothingIsSmall();
    FitsAlways(times, padding, delay, i, bounds[i], bounds[i + 1], map[]);
    TenFramesSuffice(source, codec, delay, 0, i, 0, 0);
  }

  lemma NothingIsSmall()
    ensures Small(map[])
  {
  }
}
