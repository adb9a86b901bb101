/** From the bytes of a file to the samples a player reads back: the cues choose the boundaries, the boundaries split
    the packets, and the segments, requested in any order, give back all of them. */
module EndToEnd {
  import opened Bytes
  import opened Wrappers
  import opened SegmentLayout
  import opened SegmentReader
  import opened SegmentRoundTrip
  import opened Aac
  import opened AudioSchedule
  import opened Cues
  import opened Keyframes
  import opened Demux
  import opened SessionSpec
  import opened Tiling
  import opened Timeline
  import opened Coverage
  import opened AudioContent
  import opened History

  // ---- the boundaries are keyframes ----

  lemma {:induction false} SelectedFrom(raw: seq<int>, target: int, n: nat, v: int)
    requires target > 0 && n <= |raw| && v in Selected(raw, target, n)
    ensures v in raw
  {
    hide Kept;
    if v in Selected(raw, target, n - 1) {
      SelectedFrom(raw, target, n - 1, v);
    }
  }

  lemma FilteredFrom(raw: seq<int>, target: int, v: int)
    requires target > 0 && v in Filtered(raw, target)
    ensures v in raw
  {
    hide Selected;
    if |raw| >= 2 && v in Selected(raw, target, |raw|) {
      SelectedFrom(raw, target, |raw|, v);
    }
  }

  /** What playback takes for granted of file and stream: cues that describe the stream, each at its own time; video
      packets with times; and a seek by libavformat, where no cue can be used, that does not overshoot. */
  ghost predicate DescribedBy(media: Media, cues: seq<CueEntry>, keyOf: seq<nat>) {
    && CuesDescribe(media, cues, keyOf) && VideoIsTimed(media.stream)
    && (forall ms :: ms >= 0 ==> media.fallback(DecodeStartMs(ms)) <= Cut(media.stream, ms))
    && cues != [] && cues[0].timeMs >= 0 && StrictlyIncreasing(TimesOf(cues))
  }

  ghost predicate Described(media: Media, keyOf: seq<nat>) {
    DescribedBy(media, CuesOf(media.file), keyOf)
  }

  lemma CueFacts(media: Media, keyOf: seq<nat>, i: nat, at: nat)
    requires CuesDescribe(media, CuesOf(media.file), keyOf) && i < |keyOf|
    ensures i < |CuesOf(media.file)| && keyOf[i] < |media.stream| && IsKey(media.stream[keyOf[i]])
    ensures media.stream[keyOf[i]].ms == CuesOf(media.file)[i].timeMs
    ensures at < keyOf[i] && IsKey(media.stream[at]) ==> media.stream[at].ms < media.stream[keyOf[i]].ms
  {
    hide CuesOf, IsKey;
  }

  lemma CutBeforeKey(stream: seq<Packet>, key: nat, ms: int)
    requires key < |stream| && IsKey(stream[key]) && stream[key].ms >= ms
    ensures Cut(stream, ms) <= key
  {
    FirstKeyIs(stream, 0, ms);
    hide FirstKey;
    assert IsKeyFrom(stream[key], ms);
  }

  /** A cue's keyframe is the first one at or after the cue's time. */
  lemma CutAtCue(media: Media, keyOf: seq<nat>, i: nat)
    requires CuesDescribe(media, CuesOf(media.file), keyOf) && i < |CuesOf(media.file)|
    ensures var ms := CuesOf(media.file)[i].timeMs; LiesBefore(media.stream, Cut(media.stream, ms), ms + 1)
  {
    hide CuesDescribe, Cut, CuesOf;
    var ms := CuesOf(media.file)[i].timeMs;
    CueCount(media, keyOf);
    CueFacts(media, keyOf, i, 0);
    CutBeforeKey(media.stream, keyOf[i], ms);
    CutIsKey(media.stream, ms);
    CueFacts(media, keyOf, i, Cut(media.stream, ms));
  }

  /** Every boundary is the time of a keyframe, boundaries increase, and every segment has video that is read from its
      first keyframe on. */
  lemma BoundariesAreKeyframes(media: Media, keyOf: seq<nat>, i: nat)
    requires Described(media, keyOf)
    ensures var bounds := KeyframesOf(media.file);
            && StrictlyIncreasing(bounds)
            && (i + 1 < |bounds| ==>
                  && 0 <= bounds[i] < bounds[i + 1]
                  && SeekIndex(media, DecodeStartMs(bounds[i])) <= Cut(media.stream, bounds[i])
                  && LiesBefore(media.stream, Cut(media.stream, bounds[i]), bounds[i + 1]))
  {
    var raw, bounds := TimesOf(CuesOf(media.file)), KeyframesOf(media.file);
    hide CuesOf, Filtered, SeekIndex, Cut, CuesDescribe, DecodeStartMs, LiesBefore;
    FilteredIncreases(raw, TARGET_DURATION);
    if i + 1 < |bounds| {
      FilteredFrom(raw, TARGET_DURATION, bounds[i]);
      var k :| 0 <= k < |raw| && raw[k] == bounds[i];
      assert bounds[i] >= 0;
      CueCount(media, keyOf);
      CutAtCue(media, keyOf, k);
      SeekNeverOvershoots(media, keyOf, bounds[i]);
      LaterLimit(media.stream, Cut(media.stream, bounds[i]), bounds[i] + 1, bounds[i + 1]);
    }
  }

  lemma CueCount(media: Media, keyOf: seq<nat>)
    requires CuesDescribe(media, CuesOf(media.file), keyOf)
    ensures |keyOf| == |CuesOf(media.file)|
  {
    hide CuesOf;
  }

  lemma LaterLimit(stream: seq<Packet>, at: nat, a: int, b: int)
    requires a <= b && LiesBefore(stream, at, a)
    ensures LiesBefore(stream, at, b)
  {
  }

  // ---- what a reader finds in one segment ----

  /** A sample as a player presents it: when to decode it, when to show it, and its bytes. */
  datatype Shown = Shown(decodeAt: int, showAt: int, data: seq<Byte>)

  function ShownIn(t: TrackFragment): seq<Shown> {
    seq(|t.samples|, j requires 0 <= j < |t.samples| =>
      Shown(DecodeTime(t, j), DecodeTime(t, j) + t.samples[j].ctsOffset, t.samples[j].data))
  }

  /** The times of a packet, each taken from the other where it is missing. */
  function DecodeAt(p: Packet): int
    requires Timed(p)
  {
    if p.dts.Some? then p.dts.value else p.pts.value
  }

  function ShowAt(p: Packet): int
    requires Timed(p)
  {
    if p.pts.Some? then p.pts.value else p.dts.value
  }

  /** What the packets of the file say; none is shown before it is decoded. */
  function MeantBy(packets: seq<Packet>): (s: seq<Shown>)
    requires forall p :: p in packets ==> Timed(p)
    ensures |s| == |packets|
  {
    seq(|packets|, j requires 0 <= j < |packets| =>
      Shown(DecodeAt(packets[j]), Max(DecodeAt(packets[j]), ShowAt(packets[j])), packets[j].data))
  }

  /** Decode times increase, by less than a 32-bit duration, and composition offsets fit 32 bits. */
  predicate Steady(packets: seq<Packet>)
    requires forall p :: p in packets ==> Timed(p)
  {
    && (forall i {:trigger packets[i]} :: 0 < i < |packets| ==>
          0 < DecodeAt(packets[i]) - DecodeAt(packets[i - 1]) < 0x1_0000_0000)
    && (forall i :: 0 <= i < |packets| ==> -0x8000_0000 <= ShowAt(packets[i]) - DecodeAt(packets[i]) < 0x8000_0000)
  }

  /** What a reader finds in the reply to a request. */
  function FragmentIn(reply: Option<Result<seq<Byte>, string>>): Option<Fragment> {
    if reply.Some? && reply.value.Ok? then ReadFragment(reply.value.value) else None
  }

  /** The video in the reply to a request. */
  function VideoShown(reply: Option<Result<seq<Byte>, string>>): seq<Shown> {
    match FragmentIn(reply)
    case None => []
    case Some(f) => if |f.tracks| > 0 then ShownIn(f.tracks[0]) else []
  }

  /** The audio in the reply to a request, if there is any. */
  function AudioIn(reply: Option<Result<seq<Byte>, string>>): Option<TrackFragment> {
    match FragmentIn(reply)
    case None => None
    case Some(f) => if |f.tracks| > 1 then Some(f.tracks[1]) else None
  }

  /** The decode times of the audio. */
  function AudioTimes(reply: Option<Result<seq<Byte>, string>>): seq<int> {
    match AudioIn(reply)
    case None => []
    case Some(t) => TimesIn(t)
  }

  function TimesIn(t: TrackFragment): seq<int> {
    seq(|t.samples|, j requires 0 <= j < |t.samples| => DecodeTime(t, j))
  }

  function DataIn(t: TrackFragment): seq<seq<Byte>> {
    seq(|t.samples|, j requires 0 <= j < |t.samples| => t.samples[j].data)
  }

  /** The bytes of the audio. */
  function AudioData(reply: Option<Result<seq<Byte>, string>>): seq<seq<Byte>> {
    match AudioIn(reply)
    case None => []
    case Some(t) => DataIn(t)
  }

  /** Start and duration that the audio's index announces. */
  function AudioAnnounced(reply: Option<Result<seq<Byte>, string>>): Option<(int, nat)> {
    match FragmentIn(reply)
    case None => None
    case Some(f) => if |f.references| > 1 then Some((f.references[1].ept, f.references[1].duration)) else None
  }

  lemma SampleKeeps(p: Packet)
    requires Timed(p) && -0x8000_0000 <= ShowAt(p) - DecodeAt(p) < 0x8000_0000
    ensures var s := SampleOf(p);
            s.dts == DecodeAt(p) && s.dts + s.ctsOffset == Max(DecodeAt(p), ShowAt(p)) && s.data == p.data
  {
  }

  lemma SteadySamples(packets: seq<Packet>)
    requires (forall p :: p in packets ==> Timed(p)) && Steady(packets)
    ensures SteadyTimes(SamplesOf(packets))
  {
    hide SampleOf, Timed;
    forall i {:trigger SamplesOf(packets)[i]} | 0 < i < |packets|
      ensures 0 < SamplesOf(packets)[i].dts - SamplesOf(packets)[i - 1].dts < 0x1_0000_0000
    {
      SampleKeeps(packets[i]);
      SampleKeeps(packets[i - 1]);
    }
  }

  /** The written video track shows what its packets say. */
  lemma TrackShows(packets: seq<Packet>)
    requires forall p :: p in packets ==> Timed(p)
    requires packets != [] && Steady(packets)
    ensures var samples := SamplesOf(packets);
            ShownIn(SeenTrack(TrackInput(1, 16000, FixedDurations(samples), samples[0].dts))) == MeantBy(packets)
  {
    var samples := SamplesOf(packets);
    var t := SeenTrack(TrackInput(1, 16000, FixedDurations(samples), samples[0].dts));
    SteadySamples(packets);
    hide SteadyTimes, FixedDuration, DecodeTime, SampleOf, Timed;
    forall j | 0 <= j < |packets|
      ensures ShownIn(t)[j] == MeantBy(packets)[j]
    {
      DecodedTimes(1, 16000, samples, j);
      SampleKeeps(packets[j]);
    }
  }

  /** Reading back a built segment. */
  lemma SegmentRead(source: Source, index: int, startMs: int, endMs: int)
    requires FitsSize(source, index, startMs, endMs, map[]) && BuildVideo(source.media, startMs, endMs) != []
    ensures var reply := Alone(source, index, startMs, endMs);
            var video, audio := BuildVideo(source.media, startMs, endMs), BuildAudio(source, index, startMs, endMs, map[]);
            && reply.Ok? && ReadFragment(reply.value) == Some(SeenFragment(ToU32(index + 1), Inputs(video, audio)))
            && ReadFragment(reply.value).value.tracks == SeenTracks(Inputs(video, audio))
  {
    hide BuildVideo, BuildAudio, SegmentBytes, SegmentSize, ReadFragment, SeenTracks, MoofSize, Inputs;
    SegmentRoundTrip.SegmentRoundTrip(ToU32(index + 1), Inputs(BuildVideo(source.media, startMs, endMs),
                                              BuildAudio(source, index, startMs, endMs, map[])));
  }

  /** The video in a segment is what its packets say. */
  lemma SegmentShows(source: Source, index: int, startMs: int, endMs: int)
    requires FitsSize(source, index, startMs, endMs, map[])
    requires var v := VideoPackets(source.media.stream, SeekIndex(source.media, DecodeStartMs(startMs)), startMs, endMs);
             v != [] && Steady(v)
    ensures var v := VideoPackets(source.media.stream, SeekIndex(source.media, DecodeStartMs(startMs)), startMs, endMs);
            VideoShown(Some(Alone(source, index, startMs, endMs))) == MeantBy(v)
  {
    hide *;
    var v := VideoPackets(source.media.stream, SeekIndex(source.media, DecodeStartMs(startMs)), startMs, endMs);
    var samples := SamplesOf(v);
    BuildVideoIs(source.media, startMs, endMs);
    FixedStart(samples);
    SegmentRead(source, index, startMs, endMs);
    VideoOfInputs(FixedDurations(samples), BuildAudio(source, index, startMs, endMs, map[]));
    FirstTrackShown(Alone(source, index, startMs, endMs));
    TrackShows(v);
  }

  lemma VideoOfInputs(video: seq<Sample>, audio: seq<Sample>)
    requires video != []
    ensures var tracks := SeenTracks(Inputs(video, audio));
            tracks != [] && tracks[0] == SeenTrack(TrackInput(1, 16000, video, video[0].dts))
  {
    hide SeenTrack;
  }

  lemma FirstTrackShown(reply: Result<seq<Byte>, string>)
    requires reply.Ok? && ReadFragment(reply.value).Some? && ReadFragment(reply.value).value.tracks != []
    ensures VideoShown(Some(reply)) == ShownIn(ReadFragment(reply.value).value.tracks[0])
  {
    hide ReadFragment, ShownIn;
  }

  // ---- the tracks of a reply ----

  function TrackIds(f: Fragment): seq<nat> {
    seq(|f.tracks|, j requires 0 <= j < |f.tracks| => f.tracks[j].trackId)
  }

  /** Track and timescale of each index. */
  function Indexed(f: Fragment): seq<(nat, nat)> {
    seq(|f.references|, j requires 0 <= j < |f.references| => (f.references[j].trackId, f.references[j].timescale))
  }

  /** The fragment is number `i + 1`; it has video as track 1, and audio, if there is any, as track 2, with an index for
      each in the same order. */
  ghost predicate Headed(reply: Option<Result<seq<Byte>, string>>, i: nat, audio: bool) {
    match FragmentIn(reply)
    case None => false
    case Some(f) =>
      && f.sequenceNumber == (i + 1) % 0x1_0000_0000
      && TrackIds(f) == (if audio then [1, 2] else [1])
      && Indexed(f) == (if audio then [(1, 16000), (2, 48000)] else [(1, 16000)])
  }

  lemma SegmentHeaded(source: Source, index: nat, startMs: int, endMs: int)
    requires FitsSize(source, index, startMs, endMs, map[]) && BuildVideo(source.media, startMs, endMs) != []
    requires SelfSufficient(source, index, startMs, endMs)
    ensures Headed(Some(Alone(source, index, startMs, endMs)), index, source.codec.Some?)
  {
    hide *;
    SegmentRead(source, index, startMs, endMs);
    AudioIfThere(source, index, startMs, endMs);
    HeadsSeen(index, BuildVideo(source.media, startMs, endMs), BuildAudio(source, index, startMs, endMs, map[]),
              Alone(source, index, startMs, endMs));
  }

  lemma AudioIfThere(source: Source, index: int, startMs: int, endMs: int)
    requires SelfSufficient(source, index, startMs, endMs)
    ensures BuildAudio(source, index, startMs, endMs, map[]) != [] <==> source.codec.Some?
  {
    hide MapOf, BuildPackets, CacheWith, OutputStart, OutputEnd;
    if source.codec.Some? {
      var codec := source.codec.value;
      var packets := BuildPackets(codec, source.media, index, startMs, endMs);
      OutputNonEmpty(codec, index, startMs, endMs);
      CoveredSamples(MapOf(packets), CacheWith(map[], packets), OutputStart(codec, index, startMs),
                     OutputEnd(codec, index, startMs, endMs));
    }
  }

  lemma HeadsSeen(index: nat, video: seq<Sample>, audio: seq<Sample>, reply: Result<seq<Byte>, string>)
    requires video != [] && reply.Ok?
    requires ReadFragment(reply.value) == Some(SeenFragment(ToU32(index + 1), Inputs(video, audio)))
    ensures Headed(Some(reply), index, audio != [])
  {
    hide ReadFragment, TotalDuration, MoofSize, Mdat, SeenSamples;
  }

  // ---- playback ----

  /** All video of the first `n` segments, each requested after any history. */
  ghost function Played(source: Source, histories: nat -> seq<int>, n: nat): seq<Shown> {
    if n == 0 then []
    else Played(source, histories, n - 1) + VideoShown(ReplyAfter(source, histories(n - 1), n - 1))
  }

  /** Every segment up to the last boundary is small enough and covered by its own frames. */
  ghost predicate Buildable(source: Source) {
    forall i {:trigger Bounds(source)[i]} :: 0 <= i < |Bounds(source)| - 1 ==>
      && FitsSize(source, i, Bounds(source)[i], Bounds(source)[i + 1], map[])
      && SelfSufficient(source, i, Bounds(source)[i], Bounds(source)[i + 1])
  }

  /** The video packets between two boundaries. */
  function Between(source: Source, i: nat, j: nat): (v: seq<Packet>)
    requires i < |Bounds(source)| && j < |Bounds(source)|
    ensures forall p :: p in v ==> Timed(p)
  {
    var stream := source.media.stream;
    var a, b := Cut(stream, Bounds(source)[i]), Cut(stream, Bounds(source)[j]);
    if a <= b <= |stream| then TimedVideo(stream[a..b]) else []
  }

  lemma BetweenJoins(source: Source, i: nat, j: nat, k: nat)
    requires i <= j <= k < |Bounds(source)| && StrictlyIncreasing(Bounds(source))
    ensures Between(source, i, k) == Between(source, i, j) + Between(source, j, k)
  {
    var stream, bounds := source.media.stream, Bounds(source);
    hide Bounds, FirstKey, VideoIn;
    FirstKeyMonotone(stream, 0, bounds[i], bounds[j]);
    FirstKeyMonotone(stream, 0, bounds[j], bounds[k]);
    CutInStream(stream, bounds[k]);
    var a, b, c := Cut(stream, bounds[i]), Cut(stream, bounds[j]), Cut(stream, bounds[k]);
    VideoInJoins(stream, a, b, c);
    VideoIsFiltered(stream, a, b);
    VideoIsFiltered(stream, b, c);
    VideoIsFiltered(stream, a, c);
  }

  lemma SteadyPart(before: seq<Packet>, part: seq<Packet>, after: seq<Packet>)
    requires forall p :: p in before + part + after ==> Timed(p)
    requires Steady(before + part + after)
    ensures (forall p :: p in part ==> Timed(p)) && Steady(part)
  {
    hide Timed, DecodeAt, ShowAt;
    var all := before + part + after;
    forall p | p in part
      ensures Timed(p)
    {
      assert p in all;
    }
    forall i | 0 <= i < |part|
      ensures -0x8000_0000 <= ShowAt(part[i]) - DecodeAt(part[i]) < 0x8000_0000
      ensures i > 0 ==> 0 < DecodeAt(part[i]) - DecodeAt(part[i - 1]) < 0x1_0000_0000
    {
      assert all[|before| + i] == part[i] && (i > 0 ==> all[|before| + i - 1] == part[i - 1]);
    }
  }

  /** Every reply for a segment, after any history, has its number and its tracks. */
  lemma ReplyHeaded(source: Source, keyOf: seq<nat>, history: seq<int>, i: nat)
    requires Described(source.media, keyOf) && Buildable(source) && i + 1 < |Bounds(source)|
    ensures Headed(ReplyAfter(source, history, i), i, source.codec.Some?)
  {
    hide *;
    BuildableAt(source, i);
    HistoryIndependence(source, history, i);
    SegmentVideo(source, keyOf, i);
    FixedCount(SamplesOf(Between(source, i, i + 1)));
    SegmentHeaded(source, i, Bounds(source)[i], Bounds(source)[i + 1]);
  }

  lemma HeadsAre(reply: Option<Result<seq<Byte>, string>>, i: nat, audio: bool)
    requires Headed(reply, i, audio)
    ensures FragmentIn(reply).Some? && TrackIds(FragmentIn(reply).value) == (if audio then [1, 2] else [1])
    ensures Indexed(FragmentIn(reply).value) == if audio then [(1, 16000), (2, 48000)] else [(1, 16000)]
  {
    hide FragmentIn;
  }

  /** The reply for a segment, after any history, shows exactly the video between its boundaries. */
  lemma ReplyShows(source: Source, keyOf: seq<nat>, history: seq<int>, i: nat)
    requires Described(source.media, keyOf) && Buildable(source) && i + 1 < |Bounds(source)|
    requires Steady(Between(source, i, i + 1))
    ensures VideoShown(ReplyAfter(source, history, i)) == MeantBy(Between(source, i, i + 1))
    ensures Headed(ReplyAfter(source, history, i), i, source.codec.Some?)
  {
    hide *;
    BuildableAt(source, i);
    HistoryIndependence(source, history, i);
    SegmentPackets(source, keyOf, i);
    SegmentShows(source, i, Bounds(source)[i], Bounds(source)[i + 1]);
    ReplyHeaded(source, keyOf, history, i);
  }

  lemma BetweenIs(source: Source, i: nat)
    requires i + 1 < |Bounds(source)|
    ensures var stream := source.media.stream;
            var a, b := Cut(stream, Bounds(source)[i]), Cut(stream, Bounds(source)[i + 1]);
            a <= b <= |stream| ==> Between(source, i, i + 1) == VideoIn(stream, a, b)
  {
    var a, b := Cut(source.media.stream, Bounds(source)[i]), Cut(source.media.stream, Bounds(source)[i + 1]);
    hide Bounds, Cut, VideoIn;
    if a <= b <= |source.media.stream| {
      VideoIsFiltered(source.media.stream, a, b);
    }
  }

  lemma BuildableAt(source: Source, i: nat)
    requires Buildable(source) && i + 1 < |Bounds(source)|
    ensures IsSegment(source, i) && Bounds(source) == KeyframesOf(source.media.file)
    ensures FitsSize(source, i, Bounds(source)[i], Bounds(source)[i + 1], map[])
    ensures SelfSufficient(source, i, Bounds(source)[i], Bounds(source)[i + 1])
  {
    hide KeyframesOf, FitsSize, SelfSufficient;
  }

  lemma MeantByConcat(a: seq<Packet>, b: seq<Packet>)
    requires forall p :: p in a + b ==> Timed(p)
    ensures (forall p :: p in a ==> Timed(p)) && (forall p :: p in b ==> Timed(p))
    ensures MeantBy(a + b) == MeantBy(a) + MeantBy(b)
  {
    hide Timed, SampleOf;
    forall p | p in a || p in b
      ensures Timed(p)
    {
      assert p in a + b;
    }
  }

  /** Playback: whatever requests came before each segment, all segments together show exactly the video packets of the
      file between the first boundary and the last, each with its own times and bytes. */
  lemma {:induction false} Playback(source: Source, keyOf: seq<nat>, histories: nat -> seq<int>, n: nat)
    requires Described(source.media, keyOf) && Buildable(source) && n < |Bounds(source)|
    requires Steady(Between(source, 0, |Bounds(source)| - 1))
    ensures Played(source, histories, n) == MeantBy(Between(source, 0, n))
  {
    hide *;
    BoundsIncrease(source, keyOf);
    if n == 0 {
      NothingPlayed(source, histories);
    } else {
      var last := |Bounds(source)| - 1;
      Playback(source, keyOf, histories, n - 1);
      BetweenJoins(source, 0, n - 1, n);
      BetweenJoins(source, 0, n, last);
      SteadyPart(Between(source, 0, n - 1), Between(source, n - 1, n), Between(source, n, last));
      ReplyShows(source, keyOf, histories(n - 1), n - 1);
      PlayedNext(source, histories, n);
      MeantByConcat(Between(source, 0, n - 1), Between(source, n - 1, n));
    }
  }

  lemma BoundsIncrease(source: Source, keyOf: seq<nat>)
    requires Described(source.media, keyOf)
    ensures StrictlyIncreasing(Bounds(source))
  {
    hide KeyframesOf, Described;
    BoundariesAreKeyframes(source.media, keyOf, 0);
  }

  lemma NothingPlayed(source: Source, histories: nat -> seq<int>)
    requires 0 < |Bounds(source)|
    ensures Played(source, histories, 0) == [] && MeantBy(Between(source, 0, 0)) == []
  {
    hide Bounds, FirstKey;
  }

  lemma PlayedNext(source: Source, histories: nat -> seq<int>, n: nat)
    requires n > 0
    ensures Played(source, histories, n)
         == Played(source, histories, n - 1) + VideoShown(ReplyAfter(source, histories(n - 1), n - 1))
  {
    hide VideoShown, ReplyAfter;
  }

  // ---- the index ----

  /** The duration that the video's index announces, and the decode time of the video's first sample. */
  function Announced(f: Fragment): Option<(nat, int)> {
    if f.references == [] || f.tracks == [] then None else Some((f.references[0].duration, f.tracks[0].tfdt))
  }

  lemma SegmentAnnounces(source: Source, index: int, startMs: int, endMs: int)
    requires FitsSize(source, index, startMs, endMs, map[]) && BuildVideo(source.media, startMs, endMs) != []
    ensures var video := BuildVideo(source.media, startMs, endMs);
            var f := FragmentIn(Some(Alone(source, index, startMs, endMs)));
            && f.Some? && Announced(f.value) == Some((ToU32(TotalDuration(video)) as nat, video[0].dts as int))
            && f.value.references != [] && f.value.references[0].ept == ToI64(video[0].dts + video[0].ctsOffset)
  {
    hide BuildVideo, BuildAudio, ReadFragment, MoofSize, TotalDuration, Mdat, FitsSize, Alone;
    SegmentRead(source, index, startMs, endMs);
  }

  /** The video that a build of a segment reads is that between its boundaries, and there is some. */
  lemma SegmentPackets(source: Source, keyOf: seq<nat>, i: nat)
    requires Described(source.media, keyOf) && i + 1 < |Bounds(source)|
    ensures var media, startMs, endMs := source.media, Bounds(source)[i], Bounds(source)[i + 1];
            VideoPackets(media.stream, SeekIndex(media, DecodeStartMs(startMs)), startMs, endMs)
            == Between(source, i, i + 1) != []
  {
    var stream, media, bounds := source.media.stream, source.media, Bounds(source);
    BoundsAre(source);
    BoundariesAreKeyframes(media, keyOf, i);
    assert VideoIsTimed(stream);
    hide *;
    var from := SeekIndex(media, DecodeStartMs(bounds[i]));
    VideoBetweenCuts(stream, from, bounds[i], bounds[i + 1]);
    BetweenIs(source, i);
    HasVideoIff(stream, from, bounds[i], bounds[i + 1]);
  }

  lemma SegmentVideo(source: Source, keyOf: seq<nat>, i: nat)
    requires Described(source.media, keyOf) && i + 1 < |Bounds(source)|
    ensures Between(source, i, i + 1) != []
    ensures BuildVideo(source.media, Bounds(source)[i], Bounds(source)[i + 1])
         == FixedDurations(SamplesOf(Between(source, i, i + 1)))
  {
    hide *;
    SegmentPackets(source, keyOf, i);
    BuildVideoIs(source.media, Bounds(source)[i], Bounds(source)[i + 1]);
  }

  lemma BoundsAre(source: Source)
    ensures Bounds(source) == KeyframesOf(source.media.file)
  {
    hide KeyframesOf;
  }

  lemma BuildVideoIs(media: Media, startMs: int, endMs: int)
    ensures var v := VideoPackets(media.stream, SeekIndex(media, DecodeStartMs(startMs)), startMs, endMs);
            BuildVideo(media, startMs, endMs) == FixedDurations(SamplesOf(v))
  {
    hide SeekIndex, VideoPackets, FixedDurations, SamplesOf;
  }

  lemma ReplyAnnounces(source: Source, keyOf: seq<nat>, history: seq<int>, i: nat)
    requires Described(source.media, keyOf) && Buildable(source) && i + 1 < |Bounds(source)|
    ensures var video := FixedDurations(SamplesOf(Between(source, i, i + 1)));
            var f := FragmentIn(ReplyAfter(source, history, i));
            && video != [] && f.Some?
            && Announced(f.value) == Some((ToU32(TotalDuration(video)) as nat, video[0].dts as int))
            && f.value.references != [] && f.value.references[0].ept == ToI64(video[0].dts + video[0].ctsOffset)
  {
    hide *;
    BuildableAt(source, i);
    SegmentVideo(source, keyOf, i);
    HistoryIndependence(source, history, i);
    SegmentAnnounces(source, i, Bounds(source)[i], Bounds(source)[i + 1]);
  }

  /** How long the packets of a segment last: to the last one and its predecessor's gap beyond; a single one as long as it
      says, or a thirtieth of a second if it does not. */
  function Lasts(v: seq<Packet>): int
    requires v != [] && forall p :: p in v ==> Timed(p)
  {
    var n, first := |v| - 1, v[0];
    assert Timed(first);
    if n >= 1 then 2 * DecodeAt(v[n]) - DecodeAt(v[n - 1]) - DecodeAt(first)
    else if first.duration % 0x1_0000_0000 == 0 || first.duration < 0 then 533
    else first.duration
  }

  lemma SamplesLast(v: seq<Packet>)
    requires v != [] && (forall p :: p in v ==> Timed(p)) && Steady(v)
    ensures ToU32(TotalDuration(FixedDurations(SamplesOf(v)))) == Lasts(v) % 0x1_0000_0000
  {
    hide *;
    var samples := SamplesOf(v);
    SampleAt(v, |v| - 1);
    if |v| >= 2 {
      SampleAt(v, 0);
      SampleAt(v, |v| - 2);
      SteadySamples(v);
      TotalReaches(samples);
      ManyLast(v, TotalDuration(FixedDurations(samples)));
    } else {
      assert samples == [samples[0]];
      TotalOfOne(samples[0]);
      OneLasts(v, samples[0].duration, TotalDuration(FixedDurations(samples)));
    }
  }

  lemma ManyLast(v: seq<Packet>, total: nat)
    requires |v| >= 2 && forall p :: p in v ==> Timed(p)
    requires total == 2 * DecodeAt(v[|v| - 1]) - DecodeAt(v[|v| - 2]) - DecodeAt(v[0])
    ensures ToU32(total) == Lasts(v) % 0x1_0000_0000
  {
    hide DecodeAt;
  }

  lemma OneLasts(v: seq<Packet>, duration: U32, total: nat)
    requires |v| == 1 && (forall p :: p in v ==> Timed(p)) && Timed(v[0])
    requires duration == (if v[0].duration > 0 then ToU32(v[0].duration) else 0)
    requires total == if duration == 0 then 533 else duration
    ensures ToU32(total) == Lasts(v) % 0x1_0000_0000
  {
  }

  lemma FirstSample(v: seq<Packet>)
    requires v != [] && (forall p :: p in v ==> Timed(p)) && Steady(v)
    ensures var first := FixedDurations(SamplesOf(v))[0];
            && first.dts == DecodeAt(v[0])
            && ToI64(first.dts + first.ctsOffset) == Max(DecodeAt(v[0]), ShowAt(v[0]))
  {
    assert Timed(v[0]) && -0x8000_0000 <= ShowAt(v[0]) - DecodeAt(v[0]) < 0x8000_0000;
    hide *;
    FirstOf(v);
    SampleKeeps(v[0]);
    DurationsFixed(SamplesOf(v), 0);
    InRange(v[0]);
  }

  lemma FirstOf(v: seq<Packet>)
    requires v != [] && forall p :: p in v ==> Timed(p)
    ensures SamplesOf(v)[0] == SampleOf(v[0])
  {
  }

  lemma InRange(p: Packet)
    requires Timed(p)
    ensures ToI64(Max(DecodeAt(p), ShowAt(p))) == Max(DecodeAt(p), ShowAt(p))
  {
  }

  lemma SampleAt(v: seq<Packet>, j: nat)
    requires (forall p :: p in v ==> Timed(p)) && j < |v|
    ensures Timed(v[j]) && SamplesOf(v)[j].dts == DecodeAt(v[j])
    ensures SamplesOf(v)[j].duration == if v[j].duration > 0 then ToU32(v[j].duration) else 0
  {
  }

  /** What the index in a reply announces of its video, from the packets alone, after any history. */
  lemma ReplyLasts(source: Source, keyOf: seq<nat>, history: seq<int>, i: nat)
    requires Described(source.media, keyOf) && Buildable(source) && i + 1 < |Bounds(source)|
    requires Steady(Between(source, i, i + 1))
    ensures var v, f := Between(source, i, i + 1), FragmentIn(ReplyAfter(source, history, i));
            && v != [] && f.Some? && f.value.references != [] && f.value.tracks != []
            && f.value.references[0].duration == Lasts(v) % 0x1_0000_0000
            && f.value.references[0].ept == Max(DecodeAt(v[0]), ShowAt(v[0]))
            && f.value.tracks[0].tfdt == DecodeAt(v[0])
  {
    hide *;
    var f := FragmentIn(ReplyAfter(source, history, i));
    SegmentVideo(source, keyOf, i);
    ReplyAnnounces(source, keyOf, history, i);
    SamplesLast(Between(source, i, i + 1));
    FirstSample(Between(source, i, i + 1));
    AnnouncedIs(f.value);
  }

  lemma AnnouncedIs(f: Fragment)
    requires Announced(f).Some?
    ensures f.references != [] && f.tracks != []
    ensures Announced(f) == Some((f.references[0].duration, f.tracks[0].tfdt))
  {
  }

  /** Packets come at a constant interval. */
  predicate EvenlySpaced(packets: seq<Packet>, interval: int)
    requires forall p :: p in packets ==> Timed(p)
  {
    forall i {:trigger packets[i]} :: 0 < i < |packets| ==> DecodeAt(packets[i]) - DecodeAt(packets[i - 1]) == interval
  }

  /** The first packets last as long as it takes to the next. */
  lemma EvenSpan(v: seq<Packet>, w: seq<Packet>, interval: nat)
    requires (forall p :: p in v + w ==> Timed(p)) && EvenlySpaced(v + w, interval)
    requires |v| >= 2 && w != [] && 0 < interval < 0x1_0000_0000
    ensures (forall p :: p in v ==> Timed(p)) && (forall p :: p in w ==> Timed(p))
    ensures SamplesOf(v)[0].dts + TotalDuration(FixedDurations(SamplesOf(v))) == SamplesOf(w)[0].dts
  {
    hide TotalDuration, FixedDurations;
    var all, samples := v + w, SamplesOf(v);
    forall p | p in v || p in w
      ensures Timed(p)
    {
      assert p in all;
    }
    forall i {:trigger samples[i]} | 0 < i < |samples|
      ensures samples[i].dts - samples[i - 1].dts == interval
    {
      assert all[i] == v[i] && all[i - 1] == v[i - 1];
    }
    assert all[|v|] == w[0] && all[|v| - 1] == v[|v| - 1];
    SpanReachesNext(samples, interval, SamplesOf(w)[0].dts);
  }

  /** With a constant frame interval, the duration that a segment's index announces is the difference between the decode
      time of the next segment and its own, as a reader finds them, whatever was requested before each. */
  lemma IndexReachesNext(source: Source, keyOf: seq<nat>, history: seq<int>, history': seq<int>, i: nat, interval: nat)
    requires Described(source.media, keyOf) && Buildable(source) && i + 2 < |Bounds(source)|
    requires EvenlySpaced(Between(source, i, i + 2), interval) && 0 < interval < 0x1_0000_0000
    requires |Between(source, i, i + 1)| >= 2
    requires |Between(source, i, i + 1)| * interval < 0x1_0000_0000
    ensures var a, b := FragmentIn(ReplyAfter(source, history, i)), FragmentIn(ReplyAfter(source, history', i + 1));
            && a.Some? && b.Some? && Announced(a.value).Some? && Announced(b.value).Some?
            && Announced(a.value).value.0 == Announced(b.value).value.1 - Announced(a.value).value.1
  {
    hide *;
    var v, w := Between(source, i, i + 1), Between(source, i + 1, i + 2);
    BoundsIncrease(source, keyOf);
    BetweenJoins(source, i, i + 1, i + 2);
    SegmentVideo(source, keyOf, i);
    SegmentVideo(source, keyOf, i + 1);
    EvenSpan(v, w, interval);
    EvenSum(v + w, interval, |v|);
    ReplyAnnounces(source, keyOf, history, i);
    ReplyAnnounces(source, keyOf, history', i + 1);
    FixedStart(SamplesOf(v));
    FixedStart(SamplesOf(w));
    StartOf(v);
    StartOf(w);
    SmallSame(TotalDuration(FixedDurations(SamplesOf(v))));
  }

  lemma {:induction false} EvenSum(packets: seq<Packet>, interval: nat, n: nat)
    requires (forall p :: p in packets ==> Timed(p)) && EvenlySpaced(packets, interval) && n < |packets|
    ensures DecodeAt(packets[n]) - DecodeAt(packets[0]) == n * interval
  {
    if n > 0 {
      EvenSum(packets, interval, n - 1);
      assert n * interval == (n - 1) * interval + interval;
    }
  }

  lemma FixedStart(samples: seq<Sample>)
    requires samples != []
    ensures FixedDurations(samples) != [] && FixedDurations(samples)[0].dts == samples[0].dts
  {
    hide FixedDuration;
  }

  lemma StartOf(packets: seq<Packet>)
    requires (forall p :: p in packets ==> Timed(p)) && packets != []
    ensures SamplesOf(packets)[0].dts == DecodeAt(packets[0])
  {
  }

  lemma SmallSame(v: nat)
    ensures v < 0x1_0000_0000 ==> ToU32(v) == v
  {
  }

  // ---- audio ----

  /** The times of consecutive frames. */
  function Ticks(lo: int, hi: int): (t: seq<int>)
    requires lo <= hi
    ensures |t| == hi - lo
  {
    seq(hi - lo, k => (lo + k) * 1024)
  }

  lemma {:induction false} FrameTimes(audio: seq<Sample>, lo: int, j: nat)
    requires j < |audio| && forall k :: 0 <= k < |audio| ==> audio[k].duration == FRAME
    requires audio[0].dts == lo * 1024
    ensures DecodeTime(SeenTrack(TrackInput(2, 48000, audio, audio[0].dts)), j) == (lo + j) * 1024
  {
    if j > 0 {
      FrameTimes(audio, lo, j - 1);
    }
  }

  predicate Frames(audio: seq<Sample>) {
    forall k :: 0 <= k < |audio| ==> audio[k].duration == FRAME
  }

  /** The frames of a segment's range that its own build gives. */
  ghost function OwnFrames(codec: Codec, media: Media, index: int, startMs: int, endMs: int): seq<seq<Byte>>
    requires Covered(codec, media, index, startMs, endMs)
    requires OutputStart(codec, index, startMs) < OutputEnd(codec, index, startMs, endMs)
  {
    var lo, built := OutputStart(codec, index, startMs), MapOf(BuildPackets(codec, media, index, startMs, endMs));
    seq(OutputEnd(codec, index, startMs, endMs) - lo,
        k requires 0 <= k < OutputEnd(codec, index, startMs, endMs) - lo => built[lo + k])
  }

  /** A covered segment's audio is a frame for each index of its range. */
  lemma AudioOfSegment(source: Source, codec: Codec, index: int, startMs: int, endMs: int)
    requires source.codec == Some(codec) && SelfSufficient(source, index, startMs, endMs)
    requires -0x20_0000_0000_0000 <= OutputStart(codec, index, startMs) < 0x20_0000_0000_0000
    ensures var audio, lo := BuildAudio(source, index, startMs, endMs, map[]), OutputStart(codec, index, startMs);
            && lo < OutputEnd(codec, index, startMs, endMs) && |audio| == OutputEnd(codec, index, startMs, endMs) - lo
            && audio[0].dts == lo * 1024 && audio[0].ctsOffset == 0 && Frames(audio)
            && forall k :: 0 <= k < |audio| ==>
                 audio[k].data == OwnFrames(codec, source.media, index, startMs, endMs)[k]
  {
    hide MapOf, BuildPackets, CacheWith, OutputStart, OutputEnd, AudioSamples;
    var packets, lo, hi := BuildPackets(codec, source.media, index, startMs, endMs),
                           OutputStart(codec, index, startMs), OutputEnd(codec, index, startMs, endMs);
    OutputNonEmpty(codec, index, startMs, endMs);
    CoveredSamples(MapOf(packets), CacheWith(map[], packets), lo, hi);
  }

  lemma SegmentSounds(source: Source, codec: Codec, index: int, startMs: int, endMs: int)
    requires FitsSize(source, index, startMs, endMs, map[]) && BuildVideo(source.media, startMs, endMs) != []
    requires source.codec == Some(codec) && SelfSufficient(source, index, startMs, endMs)
    requires -0x20_0000_0000_0000 <= OutputStart(codec, index, startMs) < 0x20_0000_0000_0000
    ensures OutputStart(codec, index, startMs) < OutputEnd(codec, index, startMs, endMs)
    ensures AudioTimes(Some(Alone(source, index, startMs, endMs)))
         == Ticks(OutputStart(codec, index, startMs), OutputEnd(codec, index, startMs, endMs))
    ensures AudioData(Some(Alone(source, index, startMs, endMs)))
         == OwnFrames(codec, source.media, index, startMs, endMs)
    ensures var lo, hi := OutputStart(codec, index, startMs), OutputEnd(codec, index, startMs, endMs);
            AudioAnnounced(Some(Alone(source, index, startMs, endMs)))
            == Some((lo * 1024, (hi - lo) * 1024 % 0x1_0000_0000))
  {
    var audio := BuildAudio(source, index, startMs, endMs, map[]);
    var lo, hi := OutputStart(codec, index, startMs), OutputEnd(codec, index, startMs, endMs);
    hide BuildVideo, BuildAudio, OutputStart, OutputEnd, Alone, FitsSize, ReadFragment, SelfSufficient, TimesIn, SeenTrack,
         SeenTracks, SeenFragment, AudioIn, AudioAnnounced, Ticks, DataIn;
    SegmentRead(source, index, startMs, endMs);
    AudioOfSegment(source, codec, index, startMs, endMs);
    IndexSeen(index, BuildVideo(source.media, startMs, endMs), audio, Alone(source, index, startMs, endMs), lo);
    TrackSounds(audio, lo);
    SecondTrack(BuildVideo(source.media, startMs, endMs), audio, Alone(source, index, startMs, endMs));
  }

  /** The written audio track is a frame every 1024 samples. */
  lemma TrackSounds(audio: seq<Sample>, lo: int)
    requires audio != [] && Frames(audio) && audio[0].dts == lo * 1024
    ensures TimesIn(SeenTrack(TrackInput(2, 48000, audio, audio[0].dts))) == Ticks(lo, lo + |audio|)
    ensures DataIn(SeenTrack(TrackInput(2, 48000, audio, audio[0].dts)))
         == seq(|audio|, k requires 0 <= k < |audio| => audio[k].data)
  {
    hide DecodeTime;
    forall j | 0 <= j < |audio|
      ensures DecodeTime(SeenTrack(TrackInput(2, 48000, audio, audio[0].dts)), j) == (lo + j) * 1024
    {
      FrameTimes(audio, lo, j);
    }
  }

  lemma SecondTrack(video: seq<Sample>, audio: seq<Sample>, reply: Result<seq<Byte>, string>)
    requires video != [] && audio != [] && reply.Ok? && ReadFragment(reply.value).Some?
    requires ReadFragment(reply.value).value.tracks == SeenTracks(Inputs(video, audio))
    ensures AudioIn(Some(reply)) == Some(SeenTrack(TrackInput(2, 48000, audio, audio[0].dts)))
  {
    hide ReadFragment, SeenTrack;
  }

  lemma {:induction false} FrameSum(audio: seq<Sample>)
    requires Frames(audio)
    ensures TotalDuration(audio) == 1024 * |audio|
  {
    if audio != [] {
      FrameSum(audio[..|audio| - 1]);
    }
  }

  lemma IndexSeen(index: int, video: seq<Sample>, audio: seq<Sample>, reply: Result<seq<Byte>, string>, lo: int)
    requires video != [] && audio != [] && Frames(audio) && reply.Ok?
    requires audio[0].dts == lo * 1024 && audio[0].ctsOffset == 0
    requires ReadFragment(reply.value) == Some(SeenFragment(ToU32(index + 1), Inputs(video, audio)))
    ensures AudioAnnounced(Some(reply)) == Some((lo * 1024, |audio| * 1024 % 0x1_0000_0000))
  {
    hide ReadFragment, TotalDuration, MoofSize, Mdat, SeenTracks, Frames;
    FrameSum(audio);
  }

  /** The audio in the reply for a segment, after any history, is a frame every 1024 samples of its range, and each
      frame comes from the segment's own build, which is made of the stream's own samples. */
  lemma ReplySounds(source: Source, keyOf: seq<nat>, codec: Codec, history: seq<int>, i: nat)
    requires Described(source.media, keyOf) && Buildable(source) && i + 1 < |Bounds(source)|
    requires source.codec == Some(codec) && codec.initialPadding < 0x8000_0000
    requires 48 * Bounds(source)[i] < 0x8000_0000_0000_0000
    ensures var range := RangeOf(codec, Bounds(source), i);
            range.0 < range.1 && AudioTimes(ReplyAfter(source, history, i)) == Ticks(range.0, range.1)
    ensures AudioData(ReplyAfter(source, history, i))
         == OwnFrames(codec, source.media, i, Bounds(source)[i], Bounds(source)[i + 1])
    ensures Headed(ReplyAfter(source, history, i), i, true)
    ensures var range := RangeOf(codec, Bounds(source), i);
            AudioAnnounced(ReplyAfter(source, history, i))
            == Some((range.0 * 1024, (range.1 - range.0) * 1024 % 0x1_0000_0000))
    ensures MadeOfStream(codec, source.media, i, Bounds(source)[i], Bounds(source)[i + 1])
  {
    hide *;
    BuildIsMade(codec, source.media, i, Bounds(source)[i], Bounds(source)[i + 1]);
    BuildableAt(source, i);
    BoundariesAreKeyframes(source.media, keyOf, i);
    HistoryIndependence(source, history, i);
    SegmentVideo(source, keyOf, i);
    FixedCount(SamplesOf(Between(source, i, i + 1)));
    OutputStartIs(codec, i, Bounds(source)[i]);
    SegmentSounds(source, codec, i, Bounds(source)[i], Bounds(source)[i + 1]);
    ReplyHeaded(source, keyOf, history, i);
    RangeIs(codec, Bounds(source), i);
  }

  lemma RangeIs(codec: Codec, bounds: seq<int>, i: nat)
    requires i + 1 < |bounds|
    ensures RangeOf(codec, bounds, i) == (OutputStart(codec, i, bounds[i]), OutputEnd(codec, i, bounds[i], bounds[i + 1]))
  {
    hide OutputStart, OutputEnd;
  }

  /** What those frames hold, if the encoder is regular: each is what it makes of the stream's own samples. */
  lemma ReplyEncodes(source: Source, keyOf: seq<nat>, codec: Codec, delay: nat, shift: nat, history: seq<int>, i: nat,
                     k: nat)
    requires Described(source.media, keyOf) && Buildable(source) && i + 1 < |Bounds(source)|
    requires source.codec == Some(codec) && codec.initialPadding < 0x8000_0000 && Regular(codec, delay, shift)
    requires 48 * Bounds(source)[i] < 0x8000_0000_0000_0000
    requires k < |AudioData(ReplyAfter(source, history, i))|
    ensures MadeFrom(codec, source.media, delay, shift, i, Bounds(source)[i], Bounds(source)[i + 1],
                     RangeOf(codec, Bounds(source), i).0 + k, AudioData(ReplyAfter(source, history, i))[k])
  {
    hide *;
    ReplySounds(source, keyOf, codec, history, i);
    BuildableAt(source, i);
    RangeIs(codec, Bounds(source), i);
    FrameMade(source, codec, delay, shift, i, Bounds(source)[i], Bounds(source)[i + 1], k);
  }

  lemma FrameMade(source: Source, codec: Codec, delay: nat, shift: nat, index: int, startMs: int, endMs: int, k: nat)
    requires source.codec == Some(codec) && SelfSufficient(source, index, startMs, endMs) && Regular(codec, delay, shift)
    requires OutputStart(codec, index, startMs) < OutputEnd(codec, index, startMs, endMs)
    requires k < |OwnFrames(codec, source.media, index, startMs, endMs)|
    ensures MadeFrom(codec, source.media, delay, shift, index, startMs, endMs, OutputStart(codec, index, startMs) + k,
                     OwnFrames(codec, source.media, index, startMs, endMs)[k])
  {
    hide *;
    OwnFrame(source, codec, index, startMs, endMs, k);
    BuiltData(codec, source.media, delay, shift, index, startMs, endMs, OutputStart(codec, index, startMs) + k);
  }

  lemma OwnFrame(source: Source, codec: Codec, index: int, startMs: int, endMs: int, k: nat)
    requires source.codec == Some(codec) && SelfSufficient(source, index, startMs, endMs)
    requires OutputStart(codec, index, startMs) < OutputEnd(codec, index, startMs, endMs)
    requires k < |OwnFrames(codec, source.media, index, startMs, endMs)|
    ensures var i, built := OutputStart(codec, index, startMs) + k,
                            MapOf(BuildPackets(codec, source.media, index, startMs, endMs));
            i in built && OwnFrames(codec, source.media, index, startMs, endMs)[k] == built[i]
  {
    hide MapOf, BuildPackets, OutputStart, OutputEnd;
  }

  /** The decode times of all audio of the first `n` segments, each requested after any history. */
  ghost function Heard(source: Source, histories: nat -> seq<int>, n: nat): seq<int> {
    if n == 0 then []
    else Heard(source, histories, n - 1) + AudioTimes(ReplyAfter(source, histories(n - 1), n - 1))
  }

  /** Gapless audio: whatever requests came before each segment, the audio of all segments together is one frame every
      1024 samples from the encoder's priming to the last boundary. */
  lemma {:induction false} AudioPlayback(source: Source, keyOf: seq<nat>, codec: Codec, histories: nat -> seq<int>, n: nat)
    requires Described(source.media, keyOf) && Buildable(source) && 0 < n < |Bounds(source)|
    requires source.codec == Some(codec) && codec.initialPadding < 0x8000_0000
    requires LongEnough(Bounds(source)) && 48 * Bounds(source)[n] < 0x8000_0000_0000_0000
    ensures (0 - codec.initialPadding) / 1024 <= 48 * Bounds(source)[n] / 1024
    ensures Heard(source, histories, n) == Ticks((0 - codec.initialPadding) / 1024, 48 * Bounds(source)[n] / 1024)
  {
    hide *;
    var bounds := Bounds(source);
    HeardNext(source, histories, n);
    LastBounds(bounds, n);
    ReplySounds(source, keyOf, codec, histories(n - 1), n - 1);
    RangeIs(codec, bounds, n - 1);
    ClampNeverFires(codec, n - 1, bounds[n - 1], bounds[n]);
    OutputStartIs(codec, n - 1, bounds[n - 1]);
    if n > 1 {
      AudioPlayback(source, keyOf, codec, histories, n - 1);
      TicksJoin((0 - codec.initialPadding) / 1024, 48 * bounds[n - 1] / 1024, 48 * bounds[n] / 1024);
    }
  }

  lemma LastBounds(bounds: seq<int>, n: nat)
    requires LongEnough(bounds) && 0 < n < |bounds|
    ensures 0 <= bounds[n - 1] && bounds[n - 1] + 22 <= bounds[n]
  {
    BoundsGrow(bounds, n - 1);
    assert bounds[n] == bounds[n];
  }

  lemma HeardNext(source: Source, histories: nat -> seq<int>, n: nat)
    requires n > 0
    ensures Heard(source, histories, n)
         == Heard(source, histories, n - 1) + AudioTimes(ReplyAfter(source, histories(n - 1), n - 1))
    ensures Heard(source, histories, 0) == []
  {
    hide AudioTimes, ReplyAfter;
  }

  lemma TicksJoin(a: int, b: int, c: int)
    requires a <= b <= c
    ensures Ticks(a, b) + Ticks(b, c) == Ticks(a, c)
  {
  }

  // ---- requests downwards ----

  /** On a described stream every segment can be built, so that segments requested downwards all stay: more than the limit
      of fifty. */
  lemma AllStay(source: Source, keyOf: seq<nat>, n: nat)
    requires Described(source.media, keyOf) && n < |Bounds(source)|
    ensures |After(source, Downwards(n, n)).segments| == n
  {
    hide *;
    forall i | 0 <= i < n
      ensures BuildVideo(source.media, Bounds(source)[i], Bounds(source)[i + 1]) != []
    {
      SegmentVideo(source, keyOf, i);
      FixedCount(SamplesOf(Between(source, i, i + 1)));
    }
    DescendingRequests(source, n);
  }

  lemma FixedCount(samples: seq<Sample>)
    ensures |FixedDurations(samples)| == |samples|
  {
  }

  // ---- what discharges the hypotheses ----

  /** A segment of at least 22 ms whose audio is supplied, with an encoder that holds back no more frames than the segment
      is safe for, is covered by its own frames. */
  lemma SupplySuffices(source: Source, codec: Codec, delay: nat, shift: nat, i: nat, late: nat, slack: nat)
    requires source.codec == Some(codec) && Regular(codec, delay, shift)
    requires LongEnough(Bounds(source)) && i + 1 < |Bounds(source)|
    requires SegmentSupplied(codec, source.media, Bounds(source)[i], Bounds(source)[i + 1], late, slack)
    requires delay + shift <= SafeFrames(codec, i, Bounds(source)[i], 48 * late + slack)
    ensures SelfSufficient(source, i, Bounds(source)[i], Bounds(source)[i + 1])
  {
    hide Bounds, Regular, SegmentSupplied, Covered, SafeFrames;
    LastBounds(Bounds(source), i + 1);
    PrerollSuffices(codec, source.media, delay, shift, i, Bounds(source)[i], Bounds(source)[i + 1], late, slack);
  }

  /** Ten frames inside the encoder are safe in every segment, if its priming is at most one frame, the first segment
      starts within the preroll, and the supply falls at most 784 samples short. */
  lemma TenFramesSuffice(source: Source, codec: Codec, delay: nat, shift: nat, i: nat, late: nat, slack: nat)
    requires source.codec == Some(codec) && Regular(codec, delay, shift) && delay + shift <= 10
    requires codec.initialPadding <= 1024 && 48 * late + slack <= 784
    requires LongEnough(Bounds(source)) && i + 1 < |Bounds(source)| && Bounds(source)[0] <= 2000
    requires SegmentSupplied(codec, source.media, Bounds(source)[i], Bounds(source)[i + 1], late, slack)
    ensures SelfSufficient(source, i, Bounds(source)[i], Bounds(source)[i + 1])
  {
    hide Bounds, Regular, SegmentSupplied, SelfSufficient, SafeFrames;
    SafeForAll(codec, i, Bounds(source)[i], 48 * late + slack);
    SupplySuffices(source, codec, delay, shift, i, late, slack);
  }
}
