/** The init segment and the media segments of a session agree on their tracks (GenerateInitSegment and BuildSegmentLocked
    in src/Session.cpp). */
module InitMatches {
  import opened Wrappers
  import opened SessionSpec
  import opened History
  import opened EndToEnd
  import opened InitLayout
  import opened InitReader
  import InitRoundTrip

  const VIDEO_HANDLER: nat := 0x76696465
  const SOUND_HANDLER: nat := 0x736F756E

  /** Id and timescale of each track that an init segment declares. */
  function Declared(m: Movie): seq<(nat, nat)> {
    seq(|m.tracks|, j requires 0 <= j < |m.tracks| => (m.tracks[j].trackId, m.tracks[j].timescale))
  }

  function Handlers(m: Movie): seq<nat> {
    seq(|m.tracks|, j requires 0 <= j < |m.tracks| => m.tracks[j].handler)
  }

  /** The parameters of the streams that are there are those of video and of sound. */
  predicate Proper(source: Source, streams: Streams) {
    streams.video.Video? && (source.codec.Some? ==> streams.audio.Audio?)
  }

  /** Where a player skips to in each track: past the encoder's priming in the audio. */
  function Skips(m: Movie): seq<Option<int>> {
    seq(|m.tracks|, j requires 0 <= j < |m.tracks| => m.tracks[j].priming)
  }

  /** What a reader finds in the init segment of a session. */
  lemma InitDeclares(source: Source, streams: Streams)
    requires Proper(source, streams) && |InitBytes(DeclaredTracks(source, streams))| < 0x1_0000_0000
    ensures var m := ReadInit(InitBytes(DeclaredTracks(source, streams)));
            && m.Some?
            && Declared(m.value) == (if source.codec.Some? then [(1, 16000), (2, 48000)] else [(1, 16000)])
            && Handlers(m.value) == (if source.codec.Some? then [VIDEO_HANDLER, SOUND_HANDLER] else [VIDEO_HANDLER])
            && (source.codec.Some? && 0 < source.codec.value.initialPadding < 0x8000_0000 ==>
                  Skips(m.value) == [None, Some(source.codec.value.initialPadding)])
  {
    hide *;
    InitRoundTrip.InitRoundTrip(DeclaredTracks(source, streams));
    MovieDeclares(source, streams);
  }

  lemma MovieDeclares(source: Source, streams: Streams)
    requires Proper(source, streams)
    ensures InitRoundTrip.AllHaveMedia(DeclaredTracks(source, streams))
    ensures var m := InitRoundTrip.SeenMovie(DeclaredTracks(source, streams));
            && Declared(m) == (if source.codec.Some? then [(1, 16000), (2, 48000)] else [(1, 16000)])
            && Handlers(m) == (if source.codec.Some? then [VIDEO_HANDLER, SOUND_HANDLER] else [VIDEO_HANDLER])
            && (source.codec.Some? && 0 < source.codec.value.initialPadding < 0x8000_0000 ==>
                  Skips(m) == [None, Some(source.codec.value.initialPadding)])
  {
    hide Letters, InitRoundTrip.SeenEntry, InitRoundTrip.SeenDefaults, LanguageOf, MaxTrackId, PackedLanguage;
    if source.codec.Some? {
      var m := InitRoundTrip.SeenMovie(DeclaredTracks(source, streams));
      assert |m.tracks| == 2;
    }
  }

  /** Every reply has just the tracks that the init segment declares, in the same order: same ids, same timescales, also in
      the indexes, whatever was requested before. */
  lemma TracksMatch(source: Source, streams: Streams, keyOf: seq<nat>, history: seq<int>, i: nat)
    requires Described(source.media, keyOf) && Buildable(source) && i + 1 < |Bounds(source)|
    requires Proper(source, streams) && |InitBytes(DeclaredTracks(source, streams))| < 0x1_0000_0000
    ensures var m, f := ReadInit(InitBytes(DeclaredTracks(source, streams))), FragmentIn(ReplyAfter(source, history, i));
            && m.Some? && f.Some?
            && Declared(m.value) == Indexed(f.value)
            && |TrackIds(f.value)| == |Declared(m.value)|
            && forall j :: 0 <= j < |Declared(m.value)| ==> Declared(m.value)[j].0 == TrackIds(f.value)[j]
  {
    hide *;
    InitDeclares(source, streams);
    ReplyHeaded(source, keyOf, history, i);
    HeadsAre(ReplyAfter(source, history, i), i, source.codec.Some?);
  }
}
