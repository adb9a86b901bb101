/** What a build of one segment is meant to produce, as functions of the request, the media and the codec
    (BuildSegmentLocked in src/Session.cpp). */
module SessionSpec {
  import opened Bytes
  import opened Wrappers
  import opened Tracks
  import opened SegmentLayout
  import opened Aac
  import opened AudioSchedule
  import opened Demux
  import opened Eviction

  const PREROLL_MS: int := 2000
  const LOOKAHEAD_MS: int := 250
  const MAX_SEGMENTS: nat := 50
  const MAX_FRAMES: nat := 4096

  /** Frames by index. */
  type FrameCache = map<int, seq<Byte>>

  /** What a session reads from: the media, and the codec if there is an audio stream. */
  datatype Source = Source(media: Media, codec: Option<Codec>)

  // ---- audio windows ----

  function MsToAudioPts(ms: int): int {
    48 * ms
  }

  function DecodeStartMs(startMs: int): int {
    if startMs - PREROLL_MS > 0 then startMs - PREROLL_MS else 0
  }

  /** The time of the first frame fed: for the first segment the encoder's priming, else a whole frame. */
  function ResetPts(codec: Codec, index: int, startMs: int): int {
    if index == 0 then 0 - codec.initialPadding else FrameIndex(MsToAudioPts(DecodeStartMs(startMs))) * FRAME
  }

  function OutputStart(codec: Codec, index: int, startMs: int): int {
    if index == 0 then FrameIndex(0 - codec.initialPadding) else FrameIndex(MsToAudioPts(startMs))
  }

  /** At least one frame is asked for. */
  function OutputEnd(codec: Codec, index: int, startMs: int, endMs: int): int {
    var end := FrameIndex(MsToAudioPts(endMs));
    if end <= OutputStart(codec, index, startMs) then OutputStart(codec, index, startMs) + 1 else end
  }

  lemma OutputNonEmpty(codec: Codec, index: int, startMs: int, endMs: int)
    ensures OutputStart(codec, index, startMs) < OutputEnd(codec, index, startMs, endMs)
  {
    hide FrameIndex;
  }

  function Cutoff(endMs: int): int {
    MsToAudioPts(endMs + LOOKAHEAD_MS)
  }

  // ---- video ----

  predicate IsKeyFrom(p: Packet, ms: int) {
    p.VideoPacket? && p.key && p.ms >= ms
  }

  /** The first keyframe at or after a time, looking from packet `from`; the end of the stream if there is none. */
  function FirstKey(stream: seq<Packet>, from: nat, ms: int): (k: nat)
    requires from <= |stream|
    ensures from <= k <= |stream|
    decreases |stream| - from
  {
    if from == |stream| || IsKeyFrom(stream[from], ms) then from else FirstKey(stream, from + 1, ms)
  }

  /** A video packet that has a time. */
  predicate Timed(p: Packet) {
    p.VideoPacket? && (p.dts.Some? || p.pts.Some?)
  }

  function VideoIn(stream: seq<Packet>, lo: nat, hi: nat): seq<Packet>
    requires lo <= hi <= |stream|
    ensures forall p :: p in VideoIn(stream, lo, hi) ==> Timed(p)
  {
    if lo == hi then [] else VideoIn(stream, lo, hi - 1) + (if Timed(stream[hi - 1]) then [stream[hi - 1]] else [])
  }

  /** A missing time is taken from the other; a negative composition offset becomes 0. */
  function SampleOf(p: Packet): Sample
    requires Timed(p)
  {
    var dts := if p.dts.Some? then p.dts.value else p.pts.value;
    var pts := if p.pts.Some? then p.pts.value else dts;
    var cts := ToI32(pts - dts);
    Sample(p.data, dts, if p.duration > 0 then ToU32(p.duration) else 0, if cts < 0 then 0 else cts, p.key)
  }

  function SamplesOf(packets: seq<Packet>): (s: seq<Sample>)
    requires forall p :: p in packets ==> Timed(p)
    ensures |s| == |packets|
  {
    seq(|packets|, i requires 0 <= i < |packets| => SampleOf(packets[i]))
  }

  const SINGLE_SAMPLE_DURATION: U32 := 16000 / 30

  /** The gap to the next sample where it is positive, the packet's own duration otherwise. */
  function GapDuration(samples: seq<Sample>, i: nat): U32
    requires i + 1 < |samples|
  {
    if samples[i + 1].dts - samples[i].dts > 0 then ToU32(samples[i + 1].dts - samples[i].dts) else samples[i].duration
  }

  function FixedDuration(samples: seq<Sample>, i: nat): U32
    requires i < |samples|
  {
    if i + 1 < |samples| then GapDuration(samples, i)
    else if |samples| >= 2 then GapDuration(samples, i - 1)
    else if samples[i].duration == 0 then SINGLE_SAMPLE_DURATION
    else samples[i].duration
  }

  function FixedDurations(samples: seq<Sample>): (s: seq<Sample>)
    ensures |s| == |samples|
  {
    seq(|samples|, i requires 0 <= i < |samples| => samples[i].(duration := FixedDuration(samples, i)))
  }

  /** The packets of a segment's video when reading starts at `from`. */
  function VideoPackets(stream: seq<Packet>, from: nat, startMs: int, endMs: int): (v: seq<Packet>)
    requires from <= |stream|
    ensures forall p :: p in v ==> Timed(p)
  {
    var first := FirstKey(stream, from, startMs);
    VideoIn(stream, first, FirstKey(stream, first, endMs))
  }

  // ---- audio ----

  function AudioTime(p: Packet, decodeStart: int): int
    requires p.AudioPacket?
  {
    if p.audioMs.Some? then p.audioMs.value else decodeStart
  }

  /** The packet is decoded unless it lies before the preroll. */
  function DecodeOp(p: Packet, decodeStart: int): seq<AudioOp> {
    if p.AudioPacket? && AudioTime(p, decodeStart) >= decodeStart then [Decode(p.data)] else []
  }

  function DecodeOps(stream: seq<Packet>, lo: nat, hi: nat, decodeStart: int): seq<AudioOp>
    requires lo <= hi <= |stream|
  {
    if lo == hi then [] else DecodeOps(stream, lo, hi - 1, decodeStart) + DecodeOp(stream[hi - 1], decodeStart)
  }

  /** In the main loop every audio packet is followed by a drain. */
  function MainOps(stream: seq<Packet>, lo: nat, hi: nat, decodeStart: int): seq<AudioOp>
    requires lo <= hi <= |stream|
  {
    if lo == hi then []
    else MainOps(stream, lo, hi - 1, decodeStart) + DecodeOp(stream[hi - 1], decodeStart)
         + (if stream[hi - 1].AudioPacket? then [Drain] else [])
  }

  /** The first audio packet after `limit`, looking from packet `from`. */
  function FirstAudioAfter(stream: seq<Packet>, from: nat, decodeStart: int, limit: int): (k: nat)
    requires from <= |stream|
    ensures from <= k <= |stream|
    decreases |stream| - from
  {
    if from == |stream| || (stream[from].AudioPacket? && AudioTime(stream[from], decodeStart) > limit) then from
    else FirstAudioAfter(stream, from + 1, decodeStart, limit)
  }

  /** Everything a build does to the queue: the main loop up to the boundary keyframe, then, if there is one, all audio
      up to the lookahead, and a last drain. */
  function BuildOps(stream: seq<Packet>, from: nat, startMs: int, endMs: int): seq<AudioOp>
    requires from <= |stream|
  {
    var start := DecodeStartMs(startMs);
    var boundary := FirstKey(stream, FirstKey(stream, from, startMs), endMs);
    MainOps(stream, from, boundary, start)
    + (if boundary == |stream| then []
       else DecodeOps(stream, boundary + 1,
                      FirstAudioAfter(stream, boundary + 1, start, endMs + LOOKAHEAD_MS), start))
    + [Drain]
  }

  /** The frames that a build feeds the encoder. */
  function BuildFed(codec: Codec, media: Media, index: int, startMs: int, endMs: int): seq<Frame> {
    RunOps(codec, Fresh(ResetPts(codec, index, startMs)), Cutoff(endMs),
           BuildOps(media.stream, SeekIndex(media, DecodeStartMs(startMs)), startMs, endMs)).fed
  }

  function BuildPackets(codec: Codec, media: Media, index: int, startMs: int, endMs: int): seq<AacPacket> {
    EmittedSince(codec, BuildFed(codec, media, index, startMs, endMs), 0)
  }

  /** The session-wide cache takes a frame only where it has none. */
  function CacheWith(cache: FrameCache, packets: seq<AacPacket>): FrameCache {
    if packets == [] then cache
    else
      var p, m := packets[|packets| - 1], CacheWith(cache, packets[..|packets| - 1]);
      if |p.data| > 0 && FrameIndex(p.pts) !in m then m[FrameIndex(p.pts) := p.data] else m
  }

  function AudioSample(index: int, data: seq<Byte>): Sample {
    Sample(data, ToI64(index * FRAME), FRAME, 0, true)
  }

  /** Frames of the build itself first, frames of the session-wide cache where there is none, and gaps else. */
  function AudioSamples(built: FrameCache, cache: FrameCache, lo: int, hi: int): seq<Sample>
    requires lo <= hi
    decreases hi - lo
  {
    if lo == hi then []
    else AudioSamples(built, cache, lo, hi - 1)
         + (if hi - 1 in built then [AudioSample(hi - 1, built[hi - 1])]
            else if hi - 1 in cache then [AudioSample(hi - 1, cache[hi - 1])]
            else [])
  }

  // ---- a build ----

  function BuildVideo(media: Media, startMs: int, endMs: int): seq<Sample> {
    FixedDurations(SamplesOf(VideoPackets(media.stream, SeekIndex(media, DecodeStartMs(startMs)), startMs, endMs)))
  }

  /** The audio of a build that starts with `cache` in the session-wide frame cache. */
  function BuildAudio(source: Source, index: int, startMs: int, endMs: int, cache: FrameCache): seq<Sample> {
    match source.codec
    case None => []
    case Some(codec) =>
      var packets := BuildPackets(codec, source.media, index, startMs, endMs);
      AudioSamples(MapOf(packets), CacheWith(cache, packets),
                   OutputStart(codec, index, startMs), OutputEnd(codec, index, startMs, endMs))
  }

  ghost function CacheAfter(source: Source, index: int, startMs: int, endMs: int, cache: FrameCache): FrameCache {
    match source.codec
    case None => cache
    case Some(codec) =>
      KeepLargest(CacheWith(cache, BuildPackets(codec, source.media, index, startMs, endMs)), MAX_FRAMES)
  }

  /** A video track, and an audio track if there is any audio; each starts at its first sample. */
  function Inputs(video: seq<Sample>, audio: seq<Sample>): seq<TrackInput>
    requires video != []
  {
    [TrackInput(1, 16000, video, video[0].dts)]
    + (if audio == [] then [] else [TrackInput(2, 48000, audio, audio[0].dts)])
  }

  /** The reply to a request that is not answered from the cache. */
  function Build(source: Source, index: int, startMs: int, endMs: int, cache: FrameCache): Result<seq<Byte>, string> {
    var video := BuildVideo(source.media, startMs, endMs);
    if video == [] then Err("no video samples")
    else Ok(SegmentBytes(ToU32(index + 1), Inputs(video, BuildAudio(source, index, startMs, endMs, cache))))
  }

  /** What the file says of its two streams: codec parameters and language. */
  datatype Streams = Streams(video: CodecParameters, videoLanguage: Option<seq<Byte>>,
                             audio: CodecParameters, audioLanguage: Option<seq<Byte>>)

  function LanguageOf(language: Option<seq<Byte>>): Option<seq<Byte>> {
    if language == Some([]) then None else language
  }

  /** The tracks that the init segment declares. */
  function DeclaredTracks(source: Source, streams: Streams): seq<Track> {
    [Track(1, 16000, streams.video, LanguageOf(streams.videoLanguage), 0)]
    + match source.codec
      case None => []
      case Some(codec) =>
        [Track(2, 48000, streams.audio, LanguageOf(streams.audioLanguage), ToI64(codec.initialPadding))]
  }

  /** The two caches of a session. */
  datatype SessionState = SessionState(segments: map<int, seq<Byte>>, frames: FrameCache)

  ghost function Step(source: Source, st: SessionState, index: int, startMs: int, endMs: int)
    : (SessionState, Result<seq<Byte>, string>)
  {
    if index in st.segments then (st, Ok(st.segments[index]))
    else
      var frames := CacheAfter(source, index, startMs, endMs, st.frames);
      var reply := Build(source, index, startMs, endMs, st.frames);
      match reply
      case Err(_) => (SessionState(st.segments, frames), reply)
      case Ok(bytes) => (SessionState(KeepAdded(st.segments[index := bytes], MAX_SEGMENTS, index), frames), reply)
  }

  /** One request of a player: a segment by index, its bounds taken from the keyframes of the file. None stands for
      an index that there is no segment for. */
  ghost function Request(source: Source, st: SessionState, index: int)
    : (SessionState, Option<Result<seq<Byte>, string>>)
  {
    var bounds := KeyframesOf(source.media.file);
    if index < 0 || index >= |bounds| - 1 then (st, None)
    else
      var step := Step(source, st, index, bounds[index], bounds[index + 1]);
      (step.0, Some(step.1))
  }
}
