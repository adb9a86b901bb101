/** A session's caches cannot be told from its replies: over every run of requests, in any order, a reply is what the
    segment alone determines. */
module History {
  import opened Bytes
  import opened Wrappers
  import opened SegmentLayout
  import opened SegmentRoundTrip
  import opened Aac
  import opened AudioSchedule
  import opened Demux
  import opened Eviction
  import opened SessionSpec
  import opened Coverage

  // ---- one build ----

  /** The reply of a session that has cached nothing. */
  function Alone(source: Source, index: int, startMs: int, endMs: int): Result<seq<Byte>, string> {
    Build(source, index, startMs, endMs, map[])
  }

  /** Every frame of the segment comes out of its own build. */
  ghost predicate SelfSufficient(source: Source, index: int, startMs: int, endMs: int) {
    source.codec.Some? ==> Covered(source.codec.value, source.media, index, startMs, endMs)
  }

  /** No frame that the segment's own build lacks is among `frames`. */
  ghost predicate NothingToBorrow(source: Source, index: int, startMs: int, endMs: int, frames: FrameCache) {
    match source.codec
    case None => true
    case Some(codec) =>
      forall i :: OutputStart(codec, index, startMs) <= i < OutputEnd(codec, index, startMs, endMs) && i in frames ==>
        i in MapOf(BuildPackets(codec, source.media, index, startMs, endMs))
  }

  /** A build takes nothing from a cache without the frames that it lacks. */
  lemma NothingBorrowed(source: Source, index: int, startMs: int, endMs: int, cache: FrameCache)
    requires NothingToBorrow(source, index, startMs, endMs, cache)
    ensures Build(source, index, startMs, endMs, cache) == Alone(source, index, startMs, endMs)
  {
    hide BuildVideo, SegmentBytes, MapOf, BuildPackets, CacheWith, OutputStart, OutputEnd, AudioSamples;
    match source.codec
    case None =>
    case Some(codec) =>
      var packets, lo, hi := BuildPackets(codec, source.media, index, startMs, endMs),
                             OutputStart(codec, index, startMs), OutputEnd(codec, index, startMs, endMs);
      OutputNonEmpty(codec, index, startMs, endMs);
      MergedKeys(cache, packets);
      MergedKeys(map[], packets);
      SameSamples(MapOf(packets), CacheWith(cache, packets), CacheWith(map[], packets), lo, hi);
      assert BuildAudio(source, index, startMs, endMs, cache) == BuildAudio(source, index, startMs, endMs, map[]);
  }

  lemma {:induction false} SameSamples(built: FrameCache, a: FrameCache, b: FrameCache, lo: int, hi: int)
    requires lo <= hi && forall i :: lo <= i < hi && (i in a || i in b) ==> i in built
    ensures AudioSamples(built, a, lo, hi) == AudioSamples(built, b, lo, hi)
    decreases hi - lo
  {
    hide AudioSample;
    if lo < hi {
      SameSamples(built, a, b, lo, hi - 1);
    }
  }

  /** A build whose own frames cover the segment takes nothing from any cache. */
  lemma CacheInvisible(source: Source, index: int, startMs: int, endMs: int, cache: FrameCache)
    requires SelfSufficient(source, index, startMs, endMs)
    ensures Build(source, index, startMs, endMs, cache) == Alone(source, index, startMs, endMs)
  {
    hide MapOf, BuildPackets, OutputStart, OutputEnd, Build, Alone;
    NothingBorrowed(source, index, startMs, endMs, cache);
  }

  /** The session's cache gains exactly the frames of the build that it did not have. */
  lemma {:induction false} MergedKeys(cache: FrameCache, packets: seq<AacPacket>)
    ensures CacheWith(cache, packets).Keys == cache.Keys + MapOf(packets).Keys
    ensures forall i :: i in cache ==> CacheWith(cache, packets)[i] == cache[i]
  {
    hide FrameIndex;
    if packets != [] {
      MergedKeys(cache, packets[..|packets| - 1]);
    }
  }

  /** More frames in the cache, none fewer samples in the segment; and one more for a frame that was missing. */
  lemma {:induction false} MoreSamples(built: FrameCache, a: FrameCache, b: FrameCache, i: int, lo: int, hi: int)
    requires lo <= hi && a.Keys <= b.Keys && i !in a && i !in built && i in b
    ensures |AudioSamples(built, b, lo, hi)| >= |AudioSamples(built, a, lo, hi)| + if lo <= i < hi then 1 else 0
    decreases hi - lo
  {
    hide AudioSample;
    if lo < hi {
      MoreSamples(built, a, b, i, lo, hi - 1);
    }
  }

  /** Where the build's own frames leave a gap, a frame that happens to be cached changes the segment. */
  lemma GapShows(source: Source, codec: Codec, index: int, startMs: int, endMs: int, cache: FrameCache, i: int)
    requires source.codec == Some(codec) && i in cache
    requires OutputStart(codec, index, startMs) <= i < OutputEnd(codec, index, startMs, endMs)
    requires i !in MapOf(BuildPackets(codec, source.media, index, startMs, endMs))
    ensures |BuildAudio(source, index, startMs, endMs, cache)| > |BuildAudio(source, index, startMs, endMs, map[])|
  {
    hide MapOf, BuildPackets, CacheWith, OutputStart, OutputEnd, AudioSamples;
    var packets := BuildPackets(codec, source.media, index, startMs, endMs);
    MergedKeys(map[], packets);
    MergedKeys(cache, packets);
    MoreSamples(MapOf(packets), CacheWith(map[], packets), CacheWith(cache, packets), i,
                OutputStart(codec, index, startMs), OutputEnd(codec, index, startMs, endMs));
  }

  predicate FitsSize(source: Source, index: int, startMs: int, endMs: int, cache: FrameCache) {
    var video := BuildVideo(source.media, startMs, endMs);
    video != [] ==>
      SegmentSize(ToU32(index + 1), Inputs(video, BuildAudio(source, index, startMs, endMs, cache))) < 0x8000_0000
  }

  /** Different numbers of audio samples make different bytes. */
  lemma AudioCountShows(q: U32, video: seq<Sample>, a: seq<Sample>, b: seq<Sample>)
    requires video != [] && |a| != |b|
    requires SegmentSize(q, Inputs(video, a)) < 0x8000_0000 && SegmentSize(q, Inputs(video, b)) < 0x8000_0000
    ensures SegmentBytes(q, Inputs(video, a)) != SegmentBytes(q, Inputs(video, b))
  {
    hide SegmentBytes, SegmentSize;
    assert a == [] || b == [] || |Inputs(video, a)[1].samples| != |Inputs(video, b)[1].samples|;
    if SegmentBytes(q, Inputs(video, a)) == SegmentBytes(q, Inputs(video, b)) {
      SegmentInjective(q, Inputs(video, a), q, Inputs(video, b));
    }
  }

  /** A single build gives the same bytes with every cache there could be if and only if its own frames cover the
      segment. */
  lemma InvisibleIffCovered(source: Source, index: int, startMs: int, endMs: int)
    requires BuildVideo(source.media, startMs, endMs) != []
    requires FitsSize(source, index, startMs, endMs, map[])
    requires forall i {:trigger FitsSize(source, index, startMs, endMs, map[i := [0]])} ::
               FitsSize(source, index, startMs, endMs, map[i := [0]])
    ensures (forall cache :: Build(source, index, startMs, endMs, cache) == Alone(source, index, startMs, endMs))
       <==> SelfSufficient(source, index, startMs, endMs)
  {
    if SelfSufficient(source, index, startMs, endMs) {
      forall cache
        ensures Build(source, index, startMs, endMs, cache) == Alone(source, index, startMs, endMs)
      {
        CacheInvisible(source, index, startMs, endMs, cache);
      }
    } else {
      hide BuildVideo, SegmentBytes, SegmentSize, MapOf, BuildPackets, OutputStart, OutputEnd, BuildAudio, Inputs;
      var codec := source.codec.value;
      var i :| OutputStart(codec, index, startMs) <= i < OutputEnd(codec, index, startMs, endMs)
               && i !in MapOf(BuildPackets(codec, source.media, index, startMs, endMs));
      assert FitsSize(source, index, startMs, endMs, map[i := [0]]);
      BorrowShows(source, codec, index, startMs, endMs, map[i := [0]], i);
    }
  }

  /** A build that borrows a frame gives other bytes than alone. */
  lemma BorrowShows(source: Source, codec: Codec, index: int, startMs: int, endMs: int, cache: FrameCache, i: int)
    requires source.codec == Some(codec) && i in cache && BuildVideo(source.media, startMs, endMs) != []
    requires OutputStart(codec, index, startMs) <= i < OutputEnd(codec, index, startMs, endMs)
    requires i !in MapOf(BuildPackets(codec, source.media, index, startMs, endMs))
    requires FitsSize(source, index, startMs, endMs, map[]) && FitsSize(source, index, startMs, endMs, cache)
    ensures Build(source, index, startMs, endMs, cache) != Alone(source, index, startMs, endMs)
  {
    hide BuildVideo, SegmentBytes, SegmentSize, MapOf, BuildPackets, OutputStart, OutputEnd, BuildAudio, Inputs;
    GapShows(source, codec, index, startMs, endMs, cache, i);
    AudioCountShows(ToU32(index + 1), BuildVideo(source.media, startMs, endMs),
                    BuildAudio(source, index, startMs, endMs, cache), BuildAudio(source, index, startMs, endMs, map[]));
  }

  // ---- runs ----

  /** The state of a session after a run of requests. */
  ghost function After(source: Source, requests: seq<int>): SessionState {
    if requests == [] then SessionState(map[], map[])
    else Request(source, After(source, requests[..|requests| - 1]), requests[|requests| - 1]).0
  }

  /** The reply to a request that follows a run. */
  ghost function ReplyAfter(source: Source, requests: seq<int>, index: int): Option<Result<seq<Byte>, string>> {
    Request(source, After(source, requests), index).1
  }

  function Bounds(source: Source): seq<int> {
    KeyframesOf(source.media.file)
  }

  predicate IsSegment(source: Source, index: int) {
    0 <= index < |Bounds(source)| - 1
  }

  /** A segment that is cached is the one that its index alone determines. */
  ghost predicate Faithful(source: Source, st: SessionState, index: int)
    requires IsSegment(source, index)
  {
    index in st.segments ==>
      Alone(source, index, Bounds(source)[index], Bounds(source)[index + 1]) == Ok(st.segments[index])
  }

  /** The segment's own frames, by index. */
  ghost function OwnFramesOf(source: Source, codec: Codec, index: int): FrameCache
    requires IsSegment(source, index)
  {
    MapOf(BuildPackets(codec, source.media, index, Bounds(source)[index], Bounds(source)[index + 1]))
  }

  /** Building `lender` leaves a frame in the session's cache that is in the range of `index`, and that its own build
      lacks. */
  ghost predicate Lends(source: Source, codec: Codec, lender: int, index: int, frame: int)
    requires IsSegment(source, index)
  {
    && IsSegment(source, lender)
    && OutputStart(codec, index, Bounds(source)[index]) <= frame
       < OutputEnd(codec, index, Bounds(source)[index], Bounds(source)[index + 1])
    && frame !in OwnFramesOf(source, codec, index)
    && frame in KeepLargest(OwnFramesOf(source, codec, lender), 4096)
  }

  ghost predicate NoLender(source: Source, index: int)
    requires IsSegment(source, index)
  {
    source.codec.Some? ==> forall lender, frame :: !Lends(source, source.codec.value, lender, index, frame)
  }

  /** A request leaves the frame cache as it is, or it is a build and merges and evicts. */
  lemma FramesAfter(source: Source, codec: Codec, st: SessionState, request: int)
    requires source.codec == Some(codec)
    ensures var after := Request(source, st, request).0.frames;
            || after == st.frames
            || (0 <= request < |Bounds(source)| - 1
                && var packets := BuildPackets(codec, source.media, request, Bounds(source)[request],
                                               Bounds(source)[request + 1]);
                   after == KeepLargest(CacheWith(st.frames, packets), 4096))
  {
    hide Build, KeyframesOf, CacheWith, BuildPackets, KeepLargest, KeepAdded;
  }

  /** What a build adds to the cache it draws from its own frames, and no more than would be left of these alone. */
  lemma CacheGains(source: Source, codec: Codec, st: SessionState, request: int, frame: int)
    requires source.codec == Some(codec) && frame in Request(source, st, request).0.frames
    ensures frame in st.frames
         || (IsSegment(source, request) && frame in KeepLargest(OwnFramesOf(source, codec, request), 4096))
  {
    FramesAfter(source, codec, st, request);
    hide Request, KeyframesOf, MapOf, CacheWith, BuildPackets, KeepLargest;
    if frame !in st.frames {
      var packets := BuildPackets(codec, source.media, request, Bounds(source)[request], Bounds(source)[request + 1]);
      var merged := CacheWith(st.frames, packets);
      MergedKeys(st.frames, packets);
      KeepsLargest(merged, 4096);
      KeptInPart(merged, MapOf(packets), 4096, frame);
    }
  }

  /** Whatever the run, every cached frame is one that some segment's build alone would have left there. */
  lemma {:induction false} CachedFrom(source: Source, codec: Codec, requests: seq<int>, frame: int) returns (lender: int)
    requires source.codec == Some(codec) && frame in After(source, requests).frames
    ensures IsSegment(source, lender) && frame in KeepLargest(OwnFramesOf(source, codec, lender), 4096)
  {
    hide Request, KeyframesOf, KeepLargest, OwnFramesOf;
    var n := |requests| - 1;
    var st := After(source, requests[..n]);
    CacheGains(source, codec, st, requests[n], frame);
    if frame in st.frames {
      lender := CachedFrom(source, codec, requests[..n], frame);
    } else {
      lender := requests[n];
    }
  }

  lemma NothingLent(source: Source, requests: seq<int>, index: int)
    requires IsSegment(source, index) && NoLender(source, index)
    ensures NothingToBorrow(source, index, Bounds(source)[index], Bounds(source)[index + 1], After(source, requests).frames)
  {
    hide KeyframesOf, After, KeepLargest, MapOf, BuildPackets, OutputStart, OutputEnd;
    var frames, startMs, endMs := After(source, requests).frames, Bounds(source)[index], Bounds(source)[index + 1];
    if source.codec.Some? {
      var codec := source.codec.value;
      forall i | OutputStart(codec, index, startMs) <= i < OutputEnd(codec, index, startMs, endMs) && i in frames
        ensures i in MapOf(BuildPackets(codec, source.media, index, startMs, endMs))
      {
        var lender := CachedFrom(source, codec, requests, i);
        assert !Lends(source, codec, lender, index, i);
      }
    }
  }

  /** No request, for whatever segment, with whatever outcome, spoils a cached segment while there is nothing to borrow. */
  lemma RequestKeepsFaithful(source: Source, st: SessionState, request: int, index: int)
    requires IsSegment(source, index) && Faithful(source, st, index)
    requires NothingToBorrow(source, index, Bounds(source)[index], Bounds(source)[index + 1], st.frames)
    ensures Faithful(source, Request(source, st, request).0, index)
    ensures request == index ==>
              Request(source, st, request).1 == Some(Alone(source, index, Bounds(source)[index], Bounds(source)[index + 1]))
  {
    hide Build, NothingToBorrow, KeyframesOf, CacheAfter, Alone, KeepAdded;
    var bounds := Bounds(source);
    if 0 <= request < |bounds| - 1 && request !in st.segments {
      var reply := Build(source, request, bounds[request], bounds[request + 1], st.frames);
      if reply.Ok? {
        KeepsAdded(st.segments[request := reply.value], MAX_SEGMENTS, request);
      }
      if request == index {
        NothingBorrowed(source, index, bounds[index], bounds[index + 1], st.frames);
      }
    }
  }

  lemma {:induction false} RunKeepsFaithful(source: Source, requests: seq<int>, index: int)
    requires IsSegment(source, index) && NoLender(source, index)
    ensures Faithful(source, After(source, requests), index)
  {
    hide NoLender, KeyframesOf, Alone, Request, NothingToBorrow;
    if requests != [] {
      var n := |requests| - 1;
      RunKeepsFaithful(source, requests[..n], index);
      NothingLent(source, requests[..n], index);
      RequestKeepsFaithful(source, After(source, requests[..n]), requests[n], index);
    }
  }

  lemma IndependentWithoutLender(source: Source, requests: seq<int>, index: int)
    requires IsSegment(source, index) && NoLender(source, index)
    ensures ReplyAfter(source, requests, index)
         == Some(Alone(source, index, Bounds(source)[index], Bounds(source)[index + 1]))
  {
    hide NoLender, KeyframesOf, Alone, Request, Faithful, NothingToBorrow;
    RunKeepsFaithful(source, requests, index);
    NothingLent(source, requests, index);
    RequestKeepsFaithful(source, After(source, requests), index, index);
  }

  /** Whatever was requested before, in whatever order, hit or built or evicted or failed: the reply for a segment that
      its own frames cover is that of a session without any history. */
  lemma HistoryIndependence(source: Source, requests: seq<int>, index: int)
    requires IsSegment(source, index)
    requires SelfSufficient(source, index, Bounds(source)[index], Bounds(source)[index + 1])
    ensures ReplyAfter(source, requests, index)
         == Some(Alone(source, index, Bounds(source)[index], Bounds(source)[index + 1]))
  {
    CoveredBorrowsNothing(source, index);
    hide *;
    IndependentWithoutLender(source, requests, index);
  }

  lemma CoveredBorrowsNothing(source: Source, index: int)
    requires IsSegment(source, index)
    requires SelfSufficient(source, index, Bounds(source)[index], Bounds(source)[index + 1])
    ensures NoLender(source, index)
  {
    hide KeyframesOf, KeepLargest, MapOf, BuildPackets, OutputStart, OutputEnd;
  }

  /** What one request leaves in the frame cache of a new session: of the segment's own frames, as many as fit. */
  lemma FirstRequest(source: Source, codec: Codec, index: int, frame: int)
    requires source.codec == Some(codec) && IsSegment(source, index)
    ensures frame in After(source, [index]).frames <==> frame in KeepLargest(OwnFramesOf(source, codec, index), 4096)
    ensures forall other :: other != index ==> other !in After(source, [index]).segments
  {
    hide Build, KeyframesOf, MapOf, CacheWith, BuildPackets, KeepLargest, KeepAdded;
    var bounds := Bounds(source);
    var packets := BuildPackets(codec, source.media, index, bounds[index], bounds[index + 1]);
    var merged := CacheWith(map[], packets);
    assert After(source, []) == SessionState(map[], map[]);
    assert [index][..0] == [];
    MergedKeys(map[], packets);
    KeptIff(merged, 4096, frame);
    KeptIff(MapOf(packets), 4096, frame);
    assert Above(merged, frame) == Above(MapOf(packets), frame);
    var reply := Build(source, index, bounds[index], bounds[index + 1], map[]);
    if reply.Ok? {
      KeepsAdded(map[index := reply.value], MAX_SEGMENTS, index);
    }
  }

  /** The reply for a segment is the same after every history if and only if no segment lends it a frame: none that its
      own build lacks is left in the cache by the build of another. */
  lemma HistoryIndependentIff(source: Source, index: int)
    requires IsSegment(source, index) && BuildVideo(source.media, Bounds(source)[index], Bounds(source)[index + 1]) != []
    requires FitsSize(source, index, Bounds(source)[index], Bounds(source)[index + 1], map[])
    requires forall lender :: IsSegment(source, lender) ==>
               FitsSize(source, index, Bounds(source)[index], Bounds(source)[index + 1], After(source, [lender]).frames)
    ensures (forall requests :: ReplyAfter(source, requests, index)
                             == Some(Alone(source, index, Bounds(source)[index], Bounds(source)[index + 1])))
       <==> NoLender(source, index)
  {
    hide NoLender, KeyframesOf, After, ReplyAfter, Alone, FitsSize, BuildVideo;
    if NoLender(source, index) {
      forall requests
        ensures ReplyAfter(source, requests, index)
             == Some(Alone(source, index, Bounds(source)[index], Bounds(source)[index + 1]))
      {
        IndependentWithoutLender(source, requests, index);
      }
    } else {
      var lender := BorrowedReply(source, index);
    }
  }

  /** If a segment lends a frame, requesting it first changes the reply. */
  lemma BorrowedReply(source: Source, index: int) returns (lender: int)
    requires IsSegment(source, index) && BuildVideo(source.media, Bounds(source)[index], Bounds(source)[index + 1]) != []
    requires FitsSize(source, index, Bounds(source)[index], Bounds(source)[index + 1], map[])
    requires forall lender :: IsSegment(source, lender) ==>
               FitsSize(source, index, Bounds(source)[index], Bounds(source)[index + 1], After(source, [lender]).frames)
    requires !NoLender(source, index)
    ensures ReplyAfter(source, [lender], index)
         != Some(Alone(source, index, Bounds(source)[index], Bounds(source)[index + 1]))
  {
    var codec := source.codec.value;
    hide KeyframesOf, KeepLargest, OutputStart, OutputEnd, FitsSize, BuildVideo, After, Build, Alone, MapOf, BuildPackets;
    var startMs, endMs := Bounds(source)[index], Bounds(source)[index + 1];
    var frame: int;
    lender, frame :| Lends(source, codec, lender, index, frame);
    FirstRequest(source, codec, lender, frame);
    LendersDiffer(source, codec, lender, index, frame);
    BorrowShows(source, codec, index, startMs, endMs, After(source, [lender]).frames, frame);
    ReplyIsBuild(source, [lender], index);
  }

  lemma LendersDiffer(source: Source, codec: Codec, lender: int, index: int, frame: int)
    requires IsSegment(source, index) && Lends(source, codec, lender, index, frame)
    ensures lender != index
  {
    hide KeyframesOf, MapOf, BuildPackets, OutputStart, OutputEnd;
    KeepsLargest(OwnFramesOf(source, codec, lender), 4096);
  }

  lemma ReplyIsBuild(source: Source, requests: seq<int>, index: int)
    requires IsSegment(source, index) && index !in After(source, requests).segments
    ensures ReplyAfter(source, requests, index)
         == Some(Build(source, index, Bounds(source)[index], Bounds(source)[index + 1], After(source, requests).frames))
  {
    hide KeyframesOf, After, Build, CacheAfter, KeepAdded;
  }

  /** The only segment of a stream has nobody to borrow from, covered or not. */
  lemma OnlySegment(source: Source, requests: seq<int>)
    requires |Bounds(source)| == 2
    ensures ReplyAfter(source, requests, 0) == Some(Alone(source, 0, Bounds(source)[0], Bounds(source)[1]))
  {
    hide KeyframesOf, After, Request, Alone, MapOf, BuildPackets, OutputStart, OutputEnd, KeepLargest;
    if source.codec.Some? {
      KeepsLargest(OwnFramesOf(source, source.codec.value, 0), 4096);
    }
    IndependentWithoutLender(source, requests, 0);
  }

  /** An index without a segment is refused, whatever the history. */
  lemma OutOfRange(source: Source, requests: seq<int>, index: int)
    ensures ReplyAfter(source, requests, index) == None <==> !IsSegment(source, index)
  {
    hide Step, After, KeyframesOf;
  }

  // ---- what the caches hold ----

  /** The frame cache never exceeds its limit, however long the session. */
  lemma {:induction false} FramesWithinLimit(source: Source, requests: seq<int>)
    ensures |After(source, requests).frames| <= 4096
  {
    hide Build, KeyframesOf, KeepLargest, KeepAdded, CacheWith, BuildPackets;
    if requests != [] {
      var n := |requests| - 1;
      var st, bounds, request := After(source, requests[..n]), Bounds(source), requests[n];
      FramesWithinLimit(source, requests[..n]);
      if IsSegment(source, request) && source.codec.Some? {
        KeepsLargest(CacheWith(st.frames, BuildPackets(source.codec.value, source.media, request, bounds[request],
                                                       bounds[request + 1])), 4096);
      }
    }
  }

  /** A reply stays: the same request, made again, is given the same bytes, and changes nothing. */
  lemma AskedAgain(source: Source, st: SessionState, index: int)
    requires Request(source, st, index).1.Some? && Request(source, st, index).1.value.Ok?
    ensures var after := Request(source, st, index); Request(source, after.0, index) == after
  {
    RequestIsSegment(source, st, index);
    hide *;
    var after := Request(source, st, index);
    if index in st.segments {
      FromCache(source, st, index);
    } else {
      BuildKeepsLarger(source, st, index);
      FromCache(source, after.0, index);
    }
  }

  lemma RequestIsSegment(source: Source, st: SessionState, index: int)
    ensures Request(source, st, index).1.Some? <==> IsSegment(source, index)
  {
    hide Step, KeyframesOf;
  }

  lemma FromCache(source: Source, st: SessionState, index: int)
    requires IsSegment(source, index) && index in st.segments
    ensures Request(source, st, index) == (st, Some(Ok(st.segments[index])))
  {
    hide Build, KeyframesOf, CacheAfter, KeepAdded;
  }

  /** A segment that is not cached is refused if and only if it has no video. */
  lemma RefusedIff(source: Source, st: SessionState, index: int)
    requires IsSegment(source, index) && index !in st.segments
    ensures var media, startMs, endMs := source.media, Bounds(source)[index], Bounds(source)[index + 1];
            var after := Request(source, st, index);
            && after.1.Some?
            && (after.1.value.Err?
                <==> VideoPackets(media.stream, SeekIndex(media, DecodeStartMs(startMs)), startMs, endMs) == [])
  {
    hide Request, Build, KeyframesOf, SeekIndex, VideoPackets, KeepAdded;
    RequestBuilds(source, st, index);
    BuildFails(source, index, Bounds(source)[index], Bounds(source)[index + 1], st.frames);
  }

  lemma BuildFails(source: Source, index: int, startMs: int, endMs: int, cache: FrameCache)
    ensures var media := source.media;
            (Build(source, index, startMs, endMs, cache).Err?
             <==> VideoPackets(media.stream, SeekIndex(media, DecodeStartMs(startMs)), startMs, endMs) == [])
  {
    hide SeekIndex, VideoPackets, BuildAudio, SegmentBytes;
  }

  /** A build leaves the new segment in the cache, drops only smaller indices, and changes no entry that it keeps. */
  lemma BuildKeepsLarger(source: Source, st: SessionState, index: int)
    requires IsSegment(source, index) && index !in st.segments
    ensures var after := Request(source, st, index);
            match after.1.value
            case Err(_) => after.0.segments == st.segments
            case Ok(bytes) =>
              && index in after.0.segments && after.0.segments[index] == bytes
              && (forall i :: i in after.0.segments && i != index ==>
                    i in st.segments && after.0.segments[i] == st.segments[i])
              && (forall i :: i in st.segments && i > index ==> i in after.0.segments)
              && (|after.0.segments| <= 50
                  <==> |st.segments| < 50 || |Above(st.segments, index)| < 50)
  {
    RequestBuilds(source, st, index);
    hide *;
    var reply := Build(source, index, Bounds(source)[index], Bounds(source)[index + 1], st.frames);
    if reply.Ok? {
      AddedKeepsLarger(st.segments, MAX_SEGMENTS, index, reply.value);
    }
  }

  lemma AddedKeepsLarger<T>(m: map<int, T>, max: nat, added: int, value: T)
    requires added !in m && max > 0
    ensures var kept := KeepAdded(m[added := value], max, added);
            && added in kept && kept[added] == value
            && (forall i :: i in kept && i != added ==> i in m && kept[i] == m[i])
            && (forall i :: i in m && i > added ==> i in kept)
            && (|kept| <= max <==> |m| < max || |Above(m, added)| < max)
  {
    var n := m[added := value];
    KeepsAdded(n, max, added);
    WithinLimit(n, max, added);
    assert Above(n, added) == Above(m, added);
    assert n.Keys == m.Keys + {added};
    CountKeys(n);
    CountKeys(m);
  }

  lemma RequestBuilds(source: Source, st: SessionState, index: int)
    requires IsSegment(source, index) && index !in st.segments
    ensures var reply := Build(source, index, Bounds(source)[index], Bounds(source)[index + 1], st.frames);
            var after := Request(source, st, index);
            && after.1 == Some(reply)
            && after.0.segments == if reply.Err? then st.segments
                                   else KeepAdded(st.segments[index := reply.value], MAX_SEGMENTS, index)
  {
    hide Build, KeyframesOf, CacheAfter, KeepAdded;
  }

  predicate InOrder(requests: seq<int>) {
    forall i, j :: 0 <= i < j < |requests| ==> requests[i] <= requests[j]
  }

  /** A player that only moves forward never has more than the limit of segments cached. */
  lemma {:induction false} ForwardStaysWithinLimit(source: Source, requests: seq<int>)
    requires InOrder(requests)
    ensures |After(source, requests).segments| <= 50
    ensures forall i :: i in After(source, requests).segments ==> requests != [] && i <= requests[|requests| - 1]
  {
    hide Request, Bounds, IsSegment;
    if requests != [] {
      var n := |requests| - 1;
      var st, index := After(source, requests[..n]), requests[n];
      ForwardStaysWithinLimit(source, requests[..n]);
      assert Above(st.segments, index) == {};
      OtherRequests(source, st, index);
      if IsSegment(source, index) && index !in st.segments {
        BuildKeepsLarger(source, st, index);
      }
    }
  }

  lemma OtherRequests(source: Source, st: SessionState, index: int)
    ensures !IsSegment(source, index) || index in st.segments ==> Request(source, st, index).0 == st
    ensures IsSegment(source, index) ==> Request(source, st, index).1.Some?
  {
    hide Build, KeyframesOf, CacheAfter, KeepAdded;
  }

  /** The first `k` requests of a player that goes backwards from segment n - 1. */
  function Downwards(n: nat, k: nat): (requests: seq<int>)
    ensures |requests| == k
  {
    seq(k, i => n - 1 - i)
  }

  /** What is added below all other keys pushes none of them out. */
  lemma LeastPushesNothingOut<T>(m: map<int, T>, max: nat, added: int, value: T)
    requires added !in m && max > 0 && forall j :: j in m ==> added < j
    ensures var kept := KeepAdded(m[added := value], max, added);
            kept.Keys == m.Keys + {added} && |kept| == |m| + 1
  {
    var n := m[added := value];
    KeepsAdded(n, max, added);
    CountKeys(m);
    CountKeys(n);
    assert n.Keys == m.Keys + {added};
  }

  /** A build below all cached segments adds its own and keeps the others. */
  lemma BuiltBelow(source: Source, st: SessionState, index: int)
    requires IsSegment(source, index) && forall i :: i in st.segments ==> index < i
    requires BuildVideo(source.media, Bounds(source)[index], Bounds(source)[index + 1]) != []
    ensures var segments := Request(source, st, index).0.segments;
            segments.Keys == st.segments.Keys + {index} && |segments| == |st.segments| + 1
  {
    hide BuildVideo, BuildAudio, SegmentBytes, KeyframesOf, CacheAfter, KeepAdded, Inputs;
    var reply := Build(source, index, Bounds(source)[index], Bounds(source)[index + 1], st.frames);
    LeastPushesNothingOut(st.segments, MAX_SEGMENTS, index, reply.value);
  }

  lemma {:induction false} GoingDown(source: Source, n: nat, k: nat)
    requires k <= n < |Bounds(source)|
    requires forall i :: 0 <= i < n ==> BuildVideo(source.media, Bounds(source)[i], Bounds(source)[i + 1]) != []
    ensures var segments := After(source, Downwards(n, k)).segments;
            |segments| == k && forall i :: i in segments <==> n - k <= i < n
  {
    hide BuildVideo, Bounds, Request;
    if k > 0 {
      GoingDown(source, n, k - 1);
      assert Downwards(n, k)[..k - 1] == Downwards(n, k - 1);
      BuiltBelow(source, After(source, Downwards(n, k - 1)), n - k);
    }
  }

  /** Segments requested downwards all stay, however many: after 50, 49, ..., 0 the cache of fifty holds fifty-one. */
  lemma DescendingRequests(source: Source, n: nat)
    requires n < |Bounds(source)|
    requires forall i :: 0 <= i < n ==> BuildVideo(source.media, Bounds(source)[i], Bounds(source)[i + 1]) != []
    ensures |After(source, Downwards(n, n)).segments| == n
  {
    hide *;
    GoingDown(source, n, n);
  }
}
