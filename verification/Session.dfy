/** A session: builds segments from demuxer and transcoder and keeps two caches (src/Session.cpp). */
module Sessions {
  import opened Bytes
  import opened Wrappers
  import opened Tracks
  import opened BoxTree
  import opened SegmentLayout
  import opened Fmp4Writer
  import opened InitLayout
  import opened InitWriter
  import opened Aac
  import opened AudioSchedule
  import opened Demux
  import opened Eviction
  import opened SessionSpec

  /** A video packet as a sample; the times are the packet's own. */
  method AppendVideoPacket(store: seq<Sample>, p: Packet) returns (samples: seq<Sample>)
    requires p.VideoPacket?
    ensures samples == if Timed(p) then store + [SampleOf(p)] else store
  {
    var dts := p.dts;
    if dts.None? && p.pts.Some? {
      dts := p.pts;
    }
    if dts.None? {
      return store;
    }
    var pts := if p.pts.None? then dts else p.pts;
    var shown: int, decoded: int := pts.value, dts.value;
    var cts := ToI32(shown - decoded);
    if cts < 0 {
      cts := 0;
    }
    var duration := 0;
    if p.duration > 0 {
      duration := ToU32(p.duration);
    }
    samples := store + [Sample(p.data, dts.value, duration, cts, p.key)];
  }

  method FixVideoDurations(samples: seq<Sample>) returns (fixed: seq<Sample>)
    ensures fixed == FixedDurations(samples)
  {
    fixed := samples;
    if |samples| == 0 {
      return;
    }
    for i := 0 to |samples| - 1
      invariant |fixed| == |samples|
      invariant forall j :: 0 <= j < |samples| ==>
                  fixed[j] == samples[j].(duration := if j < i then GapDuration(samples, j) else samples[j].duration)
    {
      var gap := fixed[i + 1].dts as int - fixed[i].dts as int;
      if gap > 0 {
        fixed := fixed[i := fixed[i].(duration := ToU32(gap))];
      }
    }
    var last := |fixed| - 1;
    if |fixed| >= 2 {
      fixed := fixed[last := fixed[last].(duration := fixed[last - 1].duration)];
    } else if fixed[last].duration == 0 {
      fixed := fixed[last := fixed[last].(duration := SINGLE_SAMPLE_DURATION)];
    }
  }

  class Session {
    const demuxer: Demuxer
    const aac: AacTranscoder?
    var segmentCache: map<int, seq<Byte>>
    var audioFrameCache: FrameCache
    const streams: Streams
    var initBuilt: bool
    var initCache: seq<Byte>

    constructor (demuxer: Demuxer, aac: AacTranscoder?, streams: Streams)
      requires demuxer.Valid() && (aac != null ==> aac.Valid())
      ensures Valid() && InitValid() && this.demuxer == demuxer && this.aac == aac && this.streams == streams
      ensures State() == SessionState(map[], map[])
    {
      this.demuxer := demuxer;
      this.aac := aac;
      this.streams := streams;
      segmentCache, audioFrameCache := map[], map[];
      initBuilt, initCache := false, [];
    }

    ghost function Repr(): set<object> {
      {this, demuxer} + Transcoder()
    }

    ghost function Transcoder(): set<object> {
      if aac == null then {} else {aac}
    }

    ghost predicate Valid()
      reads Repr()
    {
      demuxer.Valid() && (aac != null ==> aac.Valid())
    }

    ghost predicate InitValid()
      reads this
    {
      initBuilt ==> initCache == InitBytes(DeclaredTracks(TheSource(), streams))
    }

    ghost function TheSource(): Source {
      Source(demuxer.media, if aac == null then None else Some(aac.codec))
    }

    ghost function State(): SessionState
      reads this
    {
      SessionState(segmentCache, audioFrameCache)
    }

    /** Keeps the packets of one drain: in the build's own map, and in the session's cache where it has none. */
    method CacheAudioPackets(packets: seq<AacPacket>, before: FrameCache, ghost earlier: seq<AacPacket>)
      returns (built: FrameCache)
      requires before == MapOf(earlier)
      modifies this`audioFrameCache
      ensures built == MapOf(earlier + packets)
      ensures audioFrameCache == CacheWith(old(audioFrameCache), packets)
    {
      hide FrameIndex, MapOf, CacheWith;
      built := before;
      NothingMerged(audioFrameCache);
      assert earlier + packets[..0] == earlier;
      for i := 0 to |packets|
        invariant built == MapOf(earlier + packets[..i])
        invariant audioFrameCache == CacheWith(old(audioFrameCache), packets[..i])
      {
        PacketMerged(old(audioFrameCache), earlier + packets[..i], packets[..i], packets[i]);
        assert packets[..i + 1] == packets[..i] + [packets[i]];
        assert earlier + packets[..i + 1] == earlier + packets[..i] + [packets[i]];
        if |packets[i].data| > 0 {
          var index := FrameIndex(packets[i].pts);
          built := built[index := packets[i].data];
          if index !in audioFrameCache {
            audioFrameCache := audioFrameCache[index := packets[i].data];
          }
        }
      }
      assert packets[..|packets|] == packets;
    }

    method DrainAac(cutoff: int, before: FrameCache, ghost cacheBefore: FrameCache) returns (built: FrameCache)
      requires aac != null && aac.Valid()
      requires Collected(aac.codec, aac.encoderState, before, cacheBefore, audioFrameCache)
      modifies aac, this`audioFrameCache
      ensures aac.Valid() && aac.State() == Drained(aac.codec, old(aac.State()), cutoff)
      ensures Collected(aac.codec, aac.encoderState, built, cacheBefore, audioFrameCache)
    {
      hide Drained, EmittedSince, MapOf, CacheWith;
      ghost var fed := aac.encoderState;
      ghost var cache := audioFrameCache;
      ghost var earlier := EmittedSince(aac.codec, fed, 0);
      var packets, frames := aac.EncodeUntil(cutoff);
      EmittedSplit(aac.codec, fed, aac.encoderState, 0);
      CacheWithConcat(cacheBefore, earlier, packets);
      built := CacheAudioPackets(packets, before, earlier);
    }

    /** Past the boundary keyframe: decodes the audio up to the lookahead. */
    method ReadLookahead(startMs: int, endMs: int, ghost ops: seq<AudioOp>, ghost cutoff: int, ghost start: AudioState)
      requires aac != null && aac.Valid() && demuxer.Valid()
      requires aac.State() == RunOps(aac.codec, start, cutoff, ops)
      modifies demuxer`pos, aac
      ensures aac.Valid() && demuxer.Valid() && demuxer.pos >= old(demuxer.pos)
      ensures aac.encoderState == old(aac.encoderState)
      ensures var decodeStart := DecodeStartMs(startMs);
              var stop := FirstAudioAfter(demuxer.media.stream, old(demuxer.pos), decodeStart, endMs + LOOKAHEAD_MS);
              aac.State() == RunOps(aac.codec, start, cutoff,
                                    ops + DecodeOps(demuxer.media.stream, old(demuxer.pos), stop, decodeStart))
    {
      hide RunOps, DecodeOp, FirstAudioAfter, DecodeOps;
      var decodeStart := DecodeStartMs(startMs);
      ghost var stream, from, codec := demuxer.media.stream, demuxer.pos, aac.codec;
      ghost var done: seq<AudioOp> := DecodeOps(stream, from, from, decodeStart);
      NoDecodeOps(stream, from, decodeStart);
      assert ops + [] == ops;
      ghost var stop := FirstAudioAfter(stream, from, decodeStart, endMs + LOOKAHEAD_MS);
      while true
        invariant demuxer.Valid() && aac.Valid() && from <= demuxer.pos
        invariant aac.encoderState == old(aac.encoderState)
        invariant FirstAudioAfter(stream, demuxer.pos, decodeStart, endMs + LOOKAHEAD_MS) == stop
        invariant done == DecodeOps(stream, from, demuxer.pos, decodeStart)
        invariant aac.State() == RunOps(codec, start, cutoff, ops + done)
        decreases |stream| - demuxer.pos
      {
        ghost var pos := demuxer.pos;
        FirstAudioNext(stream, pos, decodeStart, endMs + LOOKAHEAD_MS);
        var p := demuxer.ReadPacket();
        if p.None? {
          break;
        }
        if !p.value.AudioPacket? {
          ghost var next := DecodeOps(stream, from, pos + 1, decodeStart);
          DecodeOpsNext(stream, from, pos, decodeStart);
          done := next;
          continue;
        }
        var audioMs := if p.value.audioMs.Some? then p.value.audioMs.value else decodeStart;
        if audioMs > endMs + LOOKAHEAD_MS {
          break;
        }
        DecodeOpsNext(stream, from, pos, decodeStart);
        if audioMs >= decodeStart {
          aac.Decode(p.value.data);
          RunOpsLast(codec, start, cutoff, ops + done, Decode(p.value.data));
          assert ops + (done + [Decode(p.value.data)]) == ops + done + [Decode(p.value.data)];
        }
        done := DecodeOps(stream, from, pos + 1, decodeStart);
      }
    }

    /** At the boundary keyframe: the audio up to the lookahead, and a last drain. */
    method FinishAudio(startMs: int, endMs: int, cutoff: int, before: FrameCache, ghost ops: seq<AudioOp>,
                       ghost start: AudioState, ghost cacheBefore: FrameCache) returns (built: FrameCache)
      requires aac != null && aac.Valid() && demuxer.Valid()
      requires aac.State() == RunOps(aac.codec, start, cutoff, ops)
      requires Collected(aac.codec, aac.encoderState, before, cacheBefore, audioFrameCache)
      modifies demuxer`pos, aac, this`audioFrameCache
      ensures aac.Valid() && demuxer.Valid() && demuxer.pos >= old(demuxer.pos)
      ensures var decodeStart := DecodeStartMs(startMs);
              var stop := FirstAudioAfter(demuxer.media.stream, old(demuxer.pos), decodeStart, endMs + LOOKAHEAD_MS);
              aac.State() == RunOps(aac.codec, start, cutoff,
                                    ops + DecodeOps(demuxer.media.stream, old(demuxer.pos), stop, decodeStart) + [Drain])
      ensures Collected(aac.codec, aac.encoderState, built, cacheBefore, audioFrameCache)
    {
      hide RunOps, DecodeOps, Drained, FirstAudioAfter, Collected;
      ghost var stream, from, decodeStart := demuxer.media.stream, demuxer.pos, DecodeStartMs(startMs);
      ghost var stop := FirstAudioAfter(stream, from, decodeStart, endMs + LOOKAHEAD_MS);
      ReadLookahead(startMs, endMs, ops, cutoff, start);
      built := DrainAac(cutoff, before, cacheBefore);
      RunOpsLast(aac.codec, start, cutoff, ops + DecodeOps(stream, from, stop, decodeStart), Drain);
    }

    /** An audio packet of the main loop: decoded unless it lies before the preroll, and drained. */
    method ReadAudio(p: Packet, decodeStart: int, cutoff: int, before: FrameCache, ghost ops: seq<AudioOp>,
                     ghost start: AudioState, ghost cacheBefore: FrameCache) returns (built: FrameCache)
      requires aac != null && aac.Valid() && p.AudioPacket?
      requires aac.State() == RunOps(aac.codec, start, cutoff, ops)
      requires Collected(aac.codec, aac.encoderState, before, cacheBefore, audioFrameCache)
      modifies aac, this`audioFrameCache
      ensures aac.Valid()
      ensures aac.State() == RunOps(aac.codec, start, cutoff, ops + DecodeOp(p, decodeStart) + [Drain])
      ensures Collected(aac.codec, aac.encoderState, built, cacheBefore, audioFrameCache)
    {
      hide RunOps, Drained, Decoded, Collected;
      var audioMs := if p.audioMs.Some? then p.audioMs.value else decodeStart;
      if audioMs >= decodeStart {
        aac.Decode(p.data);
        RunOpsLast(aac.codec, start, cutoff, ops, Decode(p.data));
      } else {
        assert ops + [] == ops;
      }
      built := DrainAac(cutoff, before, cacheBefore);
      RunOpsLast(aac.codec, start, cutoff, ops + DecodeOp(p, decodeStart), Drain);
    }

    /** Reads up to the boundary keyframe: selects video between keyframes, decodes and drains audio. */
    method ReadPackets(startMs: int, endMs: int, cutoff: int)
      returns (video: seq<Sample>, built: FrameCache)
      requires Valid()
      requires aac != null ==> aac.encoderState == []
      modifies demuxer`pos, Transcoder(), this`audioFrameCache
      ensures Valid()
      ensures video == SamplesOf(VideoPackets(demuxer.media.stream, old(demuxer.pos), startMs, endMs))
      ensures aac == null ==> audioFrameCache == old(audioFrameCache)
      ensures aac != null ==>
                && aac.State() == RunOps(aac.codec, old(aac.State()), cutoff,
                                         BuildOps(demuxer.media.stream, old(demuxer.pos), startMs, endMs))
                && Collected(aac.codec, aac.encoderState, built, old(audioFrameCache), audioFrameCache)
    {
      hide RunOps, MainOps, DecodeOp, DecodeOps, FirstKey, VideoIn, Drained, Decoded, IsKeyFrom, EmittedSince, MapOf,
           CacheWith, FirstAudioAfter, SampleOf, SamplesOf, Collected;
      var decodeStart := DecodeStartMs(startMs);
      ghost var stream, from, cacheBefore := demuxer.media.stream, demuxer.pos, audioFrameCache;
      ghost var first := FirstKey(stream, from, startMs);
      ghost var boundary := FirstKey(stream, first, endMs);
      ghost var ops := MainOps(stream, from, from, decodeStart);
      ghost var start := if aac == null then Fresh(0) else aac.State();
      video, built := [], map[];
      var seenKeyframe, hitBoundary := false, false;
      NothingRead(stream, from, decodeStart, first);
      if aac != null {
        NothingCollected(aac.codec, cacheBefore);
        NoOps(aac.codec, start, cutoff);
      }
      while !hitBoundary
        invariant Valid() && from <= demuxer.pos && first <= boundary <= |stream|
        invariant hitBoundary ==> boundary < |stream| && demuxer.pos >= boundary + 1
        invariant hitBoundary ==> video == SamplesOf(VideoIn(stream, first, boundary))
        invariant hitBoundary && aac != null ==>
                    aac.State() == RunOps(aac.codec, start, cutoff, BuildOps(stream, from, startMs, endMs))
        invariant !hitBoundary ==> demuxer.pos <= boundary
        invariant !hitBoundary ==>
                    if seenKeyframe then
                      && first < demuxer.pos && FirstKey(stream, demuxer.pos, endMs) == boundary
                      && video == SamplesOf(VideoIn(stream, first, demuxer.pos))
                    else FirstKey(stream, demuxer.pos, startMs) == first && demuxer.pos <= first && video == []
        invariant !hitBoundary && aac != null ==>
                    && ops == MainOps(stream, from, demuxer.pos, decodeStart)
                    && aac.State() == RunOps(aac.codec, start, cutoff, ops)
        invariant aac == null ==> audioFrameCache == cacheBefore
        invariant aac != null ==> Collected(aac.codec, aac.encoderState, built, cacheBefore, audioFrameCache)
        decreases !hitBoundary, |stream| - demuxer.pos
      {
        ghost var pos := demuxer.pos;
        FirstKeyNext(stream, pos, startMs);
        FirstKeyNext(stream, pos, endMs);
        var p := demuxer.ReadPacket();
        if p.None? {
          break;
        }
        MainOpsNext(stream, from, pos, decodeStart);
        if first <= pos {
          VideoInNext(stream, first, pos);
        }
        if p.value.VideoPacket? {
          if !seenKeyframe && p.value.key && p.value.ms >= startMs {
            seenKeyframe := true;
            NothingRead(stream, from, decodeStart, first);
          }
          if seenKeyframe {
            if p.value.key && p.value.ms >= endMs {
              hitBoundary := true;
              if aac != null {
                built := FinishAudio(startMs, endMs, cutoff, built, ops, start, cacheBefore);
              }
            } else {
              video := AppendVideoPacket(video, p.value);
            }
          }
        } else if p.value.AudioPacket? && aac != null {
          built := ReadAudio(p.value, decodeStart, cutoff, built, ops, start, cacheBefore);
        }
        ops := MainOps(stream, from, pos + 1, decodeStart);
      }
      if aac != null && !hitBoundary {
        built := DrainAac(cutoff, built, cacheBefore);
        assert ops + [] == ops;
        RunOpsLast(aac.codec, start, cutoff, ops, Drain);
      }
    }

    /** The frames of the output range: this build's own, or else the session's. */
    method CollectAudio(built: FrameCache, lo: int, hi: int) returns (samples: seq<Sample>)
      requires lo <= hi
      ensures samples == AudioSamples(built, audioFrameCache, lo, hi)
    {
      samples := [];
      for i := lo to hi
        invariant samples == AudioSamples(built, audioFrameCache, lo, i)
      {
        if i in built {
          samples := samples + [AudioSample(i, built[i])];
        } else if i in audioFrameCache {
          samples := samples + [AudioSample(i, audioFrameCache[i])];
        }
      }
    }

    method EvictFrames()
      modifies this`audioFrameCache
      ensures audioFrameCache == KeepLargest(old(audioFrameCache), MAX_FRAMES)
    {
      while |audioFrameCache| > MAX_FRAMES
        invariant KeepLargest(audioFrameCache, MAX_FRAMES) == KeepLargest(old(audioFrameCache), MAX_FRAMES)
        decreases |audioFrameCache|
      {
        var some :| some in audioFrameCache;
        var oldest := OldestKey(audioFrameCache, some);
        LeastIs(audioFrameCache.Keys, oldest);
        DropOne(audioFrameCache, oldest);
        audioFrameCache := audioFrameCache - {oldest};
      }
    }

    method EvictSegments(added: int)
      requires added in segmentCache
      modifies this`segmentCache
      ensures segmentCache == KeepAdded(old(segmentCache), MAX_SEGMENTS, added)
    {
      while |segmentCache| > MAX_SEGMENTS
        invariant added in segmentCache
        invariant KeepAdded(segmentCache, MAX_SEGMENTS, added) == KeepAdded(old(segmentCache), MAX_SEGMENTS, added)
        decreases |segmentCache|
      {
        var oldest := OldestKey(segmentCache, added);
        LeastIs(segmentCache.Keys, oldest);
        if oldest == added {
          break;
        }
        DropOne(segmentCache, oldest);
        segmentCache := segmentCache - {oldest};
      }
    }

    /** Reads and encodes what a segment needs: its video, and this build's audio frames by index. */
    method ReadSegment(index: int, startMs: int, endMs: int) returns (video: seq<Sample>, built: FrameCache)
      requires Valid()
      modifies demuxer, Transcoder(), this`audioFrameCache
      ensures Valid()
      ensures video == BuildVideo(demuxer.media, startMs, endMs)
      ensures aac == null ==> audioFrameCache == old(audioFrameCache)
      ensures aac != null ==>
                var packets := BuildPackets(aac.codec, demuxer.media, index, startMs, endMs);
                built == MapOf(packets) && audioFrameCache == CacheWith(old(audioFrameCache), packets)
    {
      hide SeekIndex, RunOps, BuildOps, MapOf, CacheWith, EmittedSince, VideoPackets, SampleOf, FixedDuration;
      demuxer.SeekToMs(DecodeStartMs(startMs));
      if aac != null {
        aac.Reset(ResetPts(aac.codec, index, startMs));
      }
      var samples: seq<Sample>;
      samples, built := ReadPackets(startMs, endMs, Cutoff(endMs));
      video := FixVideoDurations(samples);
    }

    /** The audio of the segment; the session's cache is then cut to its limit. */
    method TakeAudio(index: int, startMs: int, endMs: int, built: FrameCache, ghost cacheBefore: FrameCache)
      returns (audio: seq<Sample>)
      requires aac != null
      requires var packets := BuildPackets(aac.codec, demuxer.media, index, startMs, endMs);
               built == MapOf(packets) && audioFrameCache == CacheWith(cacheBefore, packets)
      modifies this`audioFrameCache
      ensures audio == BuildAudio(TheSource(), index, startMs, endMs, cacheBefore)
      ensures audioFrameCache == CacheAfter(TheSource(), index, startMs, endMs, cacheBefore)
    {
      hide BuildPackets, MapOf, CacheWith, AudioSamples, KeepLargest, OutputStart, OutputEnd;
      OutputNonEmpty(aac.codec, index, startMs, endMs);
      audio := CollectAudio(built, OutputStart(aac.codec, index, startMs), OutputEnd(aac.codec, index, startMs, endMs));
      EvictFrames();
    }

    method BuildSegmentLocked(index: int, startMs: int, endMs: int) returns (reply: Result<seq<Byte>, string>)
      requires Valid()
      modifies demuxer, Transcoder(), this`audioFrameCache, this`segmentCache
      ensures Valid()
      ensures (State(), reply) == Step(TheSource(), old(State()), index, startMs, endMs)
    {
      hide BuildPackets, BuildVideo, MapOf, CacheWith, KeepLargest, KeepAdded, AudioSamples, OutputStart, OutputEnd,
           SegmentBytes, Inputs;
      if index in segmentCache {
        return Ok(segmentCache[index]);
      }
      ghost var cacheBefore := audioFrameCache;
      var video, built := ReadSegment(index, startMs, endMs);
      var audio: seq<Sample> := [];
      if aac != null {
        audio := TakeAudio(index, startMs, endMs, built, cacheBefore);
      }
      assert audio == BuildAudio(TheSource(), index, startMs, endMs, cacheBefore);
      assert audioFrameCache == CacheAfter(TheSource(), index, startMs, endMs, cacheBefore);
      hide BuildAudio, CacheAfter;
      if |video| == 0 {
        return Err("no video samples");
      }
      var bytes := WriteSegment(index, video, audio);
      segmentCache := segmentCache[index := bytes];
      EvictSegments(index);
      KeepsAdded(old(segmentCache)[index := bytes], MAX_SEGMENTS, index);
      return Ok(segmentCache[index]);
    }

    /** The init segment; it is built once. */
    method GenerateInitSegment() returns (bytes: seq<Byte>)
      requires InitValid()
      modifies this`initBuilt, this`initCache
      ensures InitValid() && initBuilt && bytes == InitBytes(DeclaredTracks(TheSource(), streams))
    {
      hide InitBytes;
      if initBuilt && |initCache| > 0 {
        return initCache;
      }
      var tracks := [Track(1, 16000, streams.video, LanguageOf(streams.videoLanguage), 0)];
      if aac != null {
        tracks := tracks + [Track(2, 48000, streams.audio, LanguageOf(streams.audioLanguage),
                                  ToI64(aac.codec.initialPadding))];
      }
      assert tracks == DeclaredTracks(TheSource(), streams);
      var r := InitWriter.BuildInit(tracks);
      initCache := r.value;
      initBuilt := true;
      bytes := initCache;
    }

    /** A segment by index; its bounds come from the keyframes, which are read once. */
    method GenerateSegment(index: int) returns (reply: Option<Result<seq<Byte>, string>>)
      requires Valid() && InitValid()
      modifies Repr()
      ensures Valid() && InitValid() && initBuilt && (State(), reply) == Request(TheSource(), old(State()), index)
    {
      hide Step, KeyframesOf, InitBytes;
      if !initBuilt {
        var _ := GenerateInitSegment();
      }
      var keyframes := demuxer.KeyframesMs();
      if index < 0 || index >= |keyframes| - 1 {
        return None;
      }
      var r := BuildSegmentLocked(index, keyframes[index], keyframes[index + 1]);
      return Some(r);
    }
  }

  /** The tracks of a segment, in stable order, and its bytes. */
  method WriteSegment(index: int, video: seq<Sample>, audio: seq<Sample>) returns (bytes: seq<Byte>)
    requires video != []
    ensures bytes == SegmentBytes(ToU32(index + 1), Inputs(video, audio))
  {
    hide SegmentBoxes, EncodeAll;
    var tracks := [Track(1, 16000, Neither, None, 0)];
    var samples, tfdts := [video], [video[0].dts];
    if audio != [] {
      tracks := tracks + [Track(2, 48000, Neither, None, 0)];
      samples, tfdts := samples + [audio], tfdts + [audio[0].dts];
    }
    assert Zip(tracks, samples, tfdts) == Inputs(video, audio);
    var r := Fmp4Writer.BuildSegment(ToU32(index + 1), tracks, samples, tfdts);
    bytes := r.value;
  }

  lemma LeastIs(keys: set<int>, k: int)
    requires k in keys && forall j :: j in keys ==> k <= j
    ensures Least(keys) == k
  {
  }

  /** What the two maps hold once everything the encoder was fed has been drained. */
  ghost predicate Collected(codec: Codec, fed: seq<Frame>, built: FrameCache, before: FrameCache, now: FrameCache) {
    built == MapOf(EmittedSince(codec, fed, 0)) && now == CacheWith(before, EmittedSince(codec, fed, 0))
  }

  lemma NothingCollected(codec: Codec, cache: FrameCache)
    ensures Collected(codec, [], map[], cache, cache)
  {
  }

  // ---- unfoldings ----

  lemma NothingMerged(cache: FrameCache)
    ensures CacheWith(cache, []) == cache
  {
  }

  lemma PacketMerged(cache: FrameCache, built: seq<AacPacket>, merged: seq<AacPacket>, p: AacPacket)
    ensures MapOf(built + [p]) == if |p.data| > 0 then MapOf(built)[FrameIndex(p.pts) := p.data] else MapOf(built)
    ensures var m := CacheWith(cache, merged);
            (CacheWith(cache, merged + [p])
             == if |p.data| > 0 && FrameIndex(p.pts) !in m then m[FrameIndex(p.pts) := p.data] else m)
  {
    hide FrameIndex;
    assert (built + [p])[..|built|] == built;
    assert (merged + [p])[..|merged|] == merged;
  }

  lemma {:induction false} EmittedSplit(codec: Codec, before: seq<Frame>, fed: seq<Frame>, n: nat)
    requires n <= |before| <= |fed| && before <= fed
    ensures EmittedSince(codec, fed, n) == EmittedSince(codec, before, n) + EmittedSince(codec, fed, |before|)
    decreases |before| - n
  {
    hide Emitted;
    if n < |before| {
      EmittedSplit(codec, before, fed, n + 1);
      assert fed[..n + 1] == before[..n + 1];
    }
  }

  lemma {:induction false} CacheWithConcat(cache: FrameCache, a: seq<AacPacket>, b: seq<AacPacket>)
    ensures CacheWith(cache, a + b) == CacheWith(CacheWith(cache, a), b)
  {
    hide FrameIndex;
    if b == [] {
      assert a + b == a;
    } else {
      var n := |b| - 1;
      CacheWithConcat(cache, a, b[..n]);
      assert (a + b)[..|a| + n] == a + b[..n];
    }
  }

  lemma NoDecodeOps(stream: seq<Packet>, from: nat, decodeStart: int)
    requires from <= |stream|
    ensures DecodeOps(stream, from, from, decodeStart) == []
  {
  }

  lemma DecodeOpsNext(stream: seq<Packet>, from: nat, pos: nat, decodeStart: int)
    requires from <= pos < |stream|
    ensures var p := stream[pos];
            (DecodeOps(stream, from, pos + 1, decodeStart)
             == if p.AudioPacket? && AudioTime(p, decodeStart) >= decodeStart
                then DecodeOps(stream, from, pos, decodeStart) + [Decode(p.data)]
                else DecodeOps(stream, from, pos, decodeStart))
  {
  }

  lemma FirstAudioNext(stream: seq<Packet>, pos: nat, decodeStart: int, limit: int)
    requires pos <= |stream|
    ensures var k := FirstAudioAfter(stream, pos, decodeStart, limit);
            if pos == |stream| || (stream[pos].AudioPacket? && AudioTime(stream[pos], decodeStart) > limit) then k == pos
            else k == FirstAudioAfter(stream, pos + 1, decodeStart, limit)
  {
  }

  lemma RunOpsLast(codec: Codec, st: AudioState, cutoff: int, ops: seq<AudioOp>, op: AudioOp)
    ensures RunOps(codec, st, cutoff, ops + [op]) == RunOp(codec, RunOps(codec, st, cutoff, ops), cutoff, op)
  {
    assert (ops + [op])[..|ops|] == ops;
  }

  lemma NothingRead(stream: seq<Packet>, from: nat, decodeStart: int, first: nat)
    requires from <= |stream| && first <= |stream|
    ensures MainOps(stream, from, from, decodeStart) == []
    ensures VideoIn(stream, first, first) == [] && SamplesOf([]) == []
  {
  }

  lemma NoOps(codec: Codec, st: AudioState, cutoff: int)
    ensures RunOps(codec, st, cutoff, []) == st
  {
  }

  lemma FirstKeyNext(stream: seq<Packet>, pos: nat, ms: int)
    requires pos <= |stream|
    ensures var k := FirstKey(stream, pos, ms);
            if pos == |stream| || (stream[pos].VideoPacket? && stream[pos].key && stream[pos].ms >= ms) then k == pos
            else k == FirstKey(stream, pos + 1, ms)
  {
  }

  lemma VideoInNext(stream: seq<Packet>, first: nat, pos: nat)
    requires first <= pos < |stream|
    ensures var before := SamplesOf(VideoIn(stream, first, pos));
            (SamplesOf(VideoIn(stream, first, pos + 1))
             == if Timed(stream[pos]) then before + [SampleOf(stream[pos])] else before)
  {
    hide SampleOf;
  }

  lemma MainOpsNext(stream: seq<Packet>, from: nat, pos: nat, decodeStart: int)
    requires from <= pos < |stream|
    ensures var p, before := stream[pos], MainOps(stream, from, pos, decodeStart);
            (MainOps(stream, from, pos + 1, decodeStart)
             == if p.AudioPacket? then before + DecodeOp(p, decodeStart) + [Drain] else before)
  {
  }
}
