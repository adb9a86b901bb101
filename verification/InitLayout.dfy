/** The tree of boxes that an init segment is meant to be, as a function of the tracks (src/Fmp4Writer.cpp). */
module InitLayout {
  import opened Bytes
  import opened Wrappers
  import opened BoxTree
  import opened BoxBuilding
  import opened Tracks

  const ISO6: FourCC := 0x69736F36
  const ISO5: FourCC := 0x69736F35
  const DASH: FourCC := 0x64617368
  const VIDE: FourCC := 0x76696465
  const SOUN: FourCC := 0x736F756E
  const HINT: FourCC := 0x68696E74
  /** "????", the sample entry type of a codec the writer does not know. */
  const UNKNOWN: FourCC := 0x3F3F3F3F
  const MOVIE_TIMESCALE: U32 := 1000
  /** "und" in three 5-bit letters. */
  const UNDETERMINED: U16 := 0x55C4
  const NON_SYNC_SAMPLE: U32 := 0x0101_0000

  /** 32-bit words, one after another. */
  function Words(words: seq<U32>): (s: seq<Byte>)
    ensures |s| == 4 * |words|
  {
    if words == [] then [] else Words(words[..|words| - 1]) + BE(4, words[|words| - 1])
  }

  function Zeros(n: nat): (s: seq<Byte>)
    ensures |s| == n
  {
    seq(n, i => 0)
  }

  /** The identity transform. */
  const IDENTITY: seq<U32> := [0x1_0000, 0, 0, 0, 0x1_0000, 0, 0, 0, 0x4000_0000]

  function Ftyp(): Box {
    Box(FTYP, BE(4, ISO6) + BE(4, 1) + BE(4, ISO6) + BE(4, ISO5) + BE(4, DASH), [])
  }

  function MvhdBefore(): (s: seq<Byte>)
    ensures |s| == 108
  {
    FullBoxHeader(1, 0) + BE(8, 0) + BE(8, 0) + BE(4, MOVIE_TIMESCALE) + BE(8, 0)
    + BE(4, 0x1_0000) + BE(2, 0x100) + BE(2, 0) + BE(4, 0) + BE(4, 0) + Words(IDENTITY) + Zeros(24)
  }

  function Mvhd(nextTrackId: U32): Box {
    Box(MVHD, MvhdBefore() + BE(4, nextTrackId), [])
  }

  function Trex(trackId: U32, isVideo: bool): Box {
    Box(TREX,
        FullBoxHeader(0, 0) + BE(4, trackId) + BE(4, 1) + BE(4, 0) + BE(4, 0)
        + BE(4, if isVideo then NON_SYNC_SAMPLE else 0), [])
  }

  predicate IsVideo(t: Track) {
    t.codec.Video?
  }

  predicate IsAudio(t: Track) {
    t.codec.Audio?
  }

  /** `static_cast<uint32_t>(v) << 16`. */
  function Shifted16(v: int): U32 {
    ToU32(ToU32(v) * 0x1_0000)
  }

  function TkhdIds(trackId: U32): (s: seq<Byte>)
    ensures |s| == 44
  {
    FullBoxHeader(1, 7) + BE(8, 0) + BE(8, 0) + BE(4, trackId) + BE(4, 0) + BE(8, 0) + BE(4, 0) + BE(4, 0)
  }

  function TkhdPlacement(isAudio: bool): (s: seq<Byte>)
    ensures |s| == 44
  {
    BE(2, 0) + BE(2, 0) + BE(2, if isAudio then 0x100 else 0) + BE(2, 0) + Words(IDENTITY)
  }

  /** The size of the picture, nothing for other tracks. */
  function TkhdSize(codec: CodecParameters): (s: seq<Byte>)
    ensures |s| == 8
  {
    if codec.Video? then BE(4, Shifted16(codec.width)) + BE(4, Shifted16(codec.height)) else BE(4, 0) + BE(4, 0)
  }

  function Tkhd(t: Track): Box {
    Box(TKHD, TkhdIds(t.trackId) + TkhdPlacement(IsAudio(t)) + TkhdSize(t.codec), [])
  }

  /** A single edit that skips the encoder's priming. */
  function Elst(mediaTime: int): Box {
    Box(ELST,
        FullBoxHeader(1, 0) + BE(4, 1) + BE(8, 0) + BE(8, ToU64(mediaTime)) + BE(2, 1) + BE(2, 0), [])
  }

  function Edts(mediaTime: int): Box {
    Box(EDTS, [], [Elst(mediaTime)])
  }

  /** The first `n` letters of a language, the low five bits of each. */
  function PackedLetters(language: seq<Byte>, n: nat): (v: nat)
    requires n <= |language| && n <= 3
    ensures v < if n == 0 then 1 else if n == 1 then 32 else if n == 2 then 1024 else 0x8000
  {
    if n == 0 then 0
    else
      var letter: int := language[n - 1];
      PackedLetters(language, n - 1) * 32 + letter % 32
  }

  /** Three letters; "und" for fewer. */
  function PackedLanguage(language: Option<seq<Byte>>): U16 {
    if language.None? || |language.value| < 3 then UNDETERMINED else PackedLetters(language.value, 3)
  }

  function Mdhd(t: Track): Box {
    Box(MDHD,
        FullBoxHeader(1, 0) + BE(8, 0) + BE(8, 0) + BE(4, t.timescale) + BE(8, 0)
        + BE(2, PackedLanguage(t.language)) + BE(2, 0), [])
  }

  /** "VideoHandler" and "SoundHandler", with their terminating zero. */
  const VIDEO_HANDLER: seq<Byte> := [0x56, 0x69, 0x64, 0x65, 0x6F, 0x48, 0x61, 0x6E, 0x64, 0x6C, 0x65, 0x72, 0]
  const SOUND_HANDLER: seq<Byte> := [0x53, 0x6F, 0x75, 0x6E, 0x64, 0x48, 0x61, 0x6E, 0x64, 0x6C, 0x65, 0x72, 0]

  function HandlerName(t: Track): seq<Byte> {
    if IsVideo(t) then VIDEO_HANDLER else SOUND_HANDLER
  }

  function HandlerType(t: Track): FourCC {
    if IsVideo(t) then VIDE else if IsAudio(t) then SOUN else HINT
  }

  function Hdlr(t: Track): Box {
    Box(HDLR,
        FullBoxHeader(0, 0) + BE(4, 0) + BE(4, HandlerType(t)) + BE(4, 0) + BE(4, 0) + BE(4, 0)
        + HandlerName(t), [])
  }

  function Vmhd(): Box {
    Box(VMHD, FullBoxHeader(0, 1) + BE(2, 0) + BE(2, 0) + BE(2, 0) + BE(2, 0), [])
  }

  function Smhd(): Box {
    Box(SMHD, FullBoxHeader(0, 0) + BE(2, 0) + BE(2, 0), [])
  }

  /** Media data is in the same file. */
  function Url(): Box {
    Box(URL_, FullBoxHeader(0, 1), [])
  }

  function Dinf(): Box {
    Box(DINF, [], [Box(DREF, FullBoxHeader(0, 0) + BE(4, 1), [Url()])])
  }

  function SampleEntryType(codec: CodecParameters): FourCC {
    match codec
    case Video(H264, _, _, _) => AVC1
    case Video(HEVC, _, _, _) => HEV1
    case Audio(AAC, _, _, _, _) => MP4A
    case _ => UNKNOWN
  }

  function ConfigBoxType(codec: CodecParameters): Option<FourCC> {
    match codec
    case Video(H264, _, _, _) => Some(AVCC)
    case Video(HEVC, _, _, _) => Some(HVCC)
    case _ => None
  }

  /** The decoder configuration of a video track, if there is one to write. */
  function ConfigBoxes(codec: CodecParameters): seq<Box>
    requires codec.Video?
  {
    if codec.extradata == [] || ConfigBoxType(codec).None? then []
    else [Box(ConfigBoxType(codec).value, codec.extradata, [])]
  }

  /** The header of a descriptor (ISO/IEC 14496-1, section 8.3.3), its length in four bytes. */
  function Descriptor(tag: Byte, size: Byte): seq<Byte> {
    [tag, 0x80, 0x80, 0x80, size]
  }

  function ToU8(v: int): Byte {
    v % 0x100
  }

  /** The configuration is cut to what its one length byte can say. */
  function DsiSize(extradata: seq<Byte>): (n: Byte)
    ensures n <= |extradata|
  {
    ToU8(|extradata|)
  }

  function DcdSize(extradata: seq<Byte>): Byte {
    ToU8(18 + DsiSize(extradata) as int)
  }

  function EsSize(extradata: seq<Byte>): Byte {
    ToU8(14 + DcdSize(extradata) as int)
  }

  function BitRate(bitRate: int): U32 {
    ToU32(if bitRate != 0 then bitRate else 128000)
  }

  /** Object type, stream type, buffer size, and bit rates. */
  function DecoderConfigFields(bitRate: int): (s: seq<Byte>)
    ensures |s| == 13
  {
    [0x40] + [0x15] + BE(3, 0) + BE(4, 0) + BE(4, BitRate(bitRate))
  }

  function DecoderSpecific(extradata: seq<Byte>): seq<Byte> {
    Descriptor(5, DsiSize(extradata)) + extradata[..DsiSize(extradata)]
  }

  function DescriptorHead(esSize: Byte, dcdSize: Byte, bitRate: int): seq<Byte> {
    Descriptor(3, esSize) + EsIdAndFlags() + Descriptor(4, dcdSize) + DecoderConfigFields(bitRate)
  }

  function EsDescriptor(extradata: seq<Byte>, bitRate: int): seq<Byte> {
    DescriptorHead(EsSize(extradata), DcdSize(extradata), bitRate) + DecoderSpecific(extradata) + (Descriptor(6, 1) + [2])
  }

  function EsIdAndFlags(): (s: seq<Byte>)
    ensures |s| == 3
  {
    BE(2, 0) + [0]
  }

  function Esds(extradata: seq<Byte>, bitRate: int): Box {
    Box(ESDS, FullBoxHeader(0, 0) + EsDescriptor(extradata, bitRate), [])
  }

  function EntryHead(): (s: seq<Byte>)
    ensures |s| == 8
  {
    Zeros(6) + BE(2, 1)
  }

  function VisualSize(width: int, height: int): (s: seq<Byte>)
    ensures |s| == 20
  {
    BE(2, 0) + BE(2, 0) + Zeros(12) + BE(2, width % 0x1_0000) + BE(2, height % 0x1_0000)
  }

  function VisualRest(): (s: seq<Byte>)
    ensures |s| == 50
  {
    BE(4, 0x48_0000) + BE(4, 0x48_0000) + BE(4, 0) + BE(2, 1) + [0] + Zeros(31) + BE(2, 0x18) + BE(2, 0xFFFF)
  }

  function VisualFields(width: int, height: int): (s: seq<Byte>)
    ensures |s| == 78
  {
    EntryHead() + VisualSize(width, height) + VisualRest()
  }

  function Channels(channels: int): U16 {
    if channels > 0 then channels % 0x1_0000 else 2
  }

  function SampleRate(rate: int): U32 {
    if rate > 0 then ToU32(rate) else 48000
  }

  function SoundFields(channels: int, rate: int): (s: seq<Byte>)
    ensures |s| == 28
  {
    EntryHead() + BE(4, 0) + BE(4, 0) + BE(2, Channels(channels))
    + BE(2, 16) + BE(2, 0) + BE(2, 0) + BE(4, Shifted16(SampleRate(rate)))
  }

  /** A sample entry; one of an unknown type has no parts that a reader could tell apart. */
  function Entry(fourcc: FourCC, fields: seq<Byte>, children: seq<Box>): Box {
    if FieldsBeforeChildren(fourcc).Some? then Box(fourcc, fields, children)
    else Box(fourcc, fields + EncodeAll(children), [])
  }

  function SampleEntry(codec: CodecParameters): Box
    requires !codec.Neither?
  {
    if codec.Video? then
      Entry(SampleEntryType(codec), VisualFields(codec.width, codec.height), ConfigBoxes(codec))
    else
      Entry(SampleEntryType(codec), SoundFields(codec.channels, codec.sampleRate),
            [Esds(codec.extradata, codec.bitRate)])
  }

  /** One sample entry is announced, even where there is none. */
  function Stsd(t: Track): Box {
    Box(STSD, FullBoxHeader(0, 0) + BE(4, 1), if t.codec.Neither? then [] else [SampleEntry(t.codec)])
  }

  /** A sample table without samples. */
  function Empty(fourcc: FourCC): Box {
    Box(fourcc, FullBoxHeader(0, 0) + BE(4, 0), [])
  }

  function Stsz(): Box {
    Box(STSZ, FullBoxHeader(0, 0) + BE(4, 0) + BE(4, 0), [])
  }

  function Stbl(t: Track): Box {
    Box(STBL, [], [Stsd(t), Empty(STTS), Empty(STSC), Stsz(), Empty(STCO)])
  }

  function MediaHeaders(t: Track): seq<Box> {
    if IsVideo(t) then [Vmhd()] else if IsAudio(t) then [Smhd()] else []
  }

  function Minf(t: Track): Box {
    Box(MINF, [], MediaHeaders(t) + [Dinf(), Stbl(t)])
  }

  function Mdia(t: Track): Box {
    Box(MDIA, [], [Mdhd(t), Hdlr(t), Minf(t)])
  }

  function Edits(t: Track): seq<Box> {
    if IsAudio(t) && t.initialPadding > 0 then [Edts(t.initialPadding)] else []
  }

  function Trak(t: Track): Box {
    Box(TRAK, [], [Tkhd(t)] + Edits(t) + [Mdia(t)])
  }

  function Traks(tracks: seq<Track>): (boxes: seq<Box>)
    ensures |boxes| == |tracks|
  {
    seq(|tracks|, i requires 0 <= i < |tracks| => Trak(tracks[i]))
  }

  function Trexs(tracks: seq<Track>): (boxes: seq<Box>)
    ensures |boxes| == |tracks|
  {
    seq(|tracks|, i requires 0 <= i < |tracks| => Trex(tracks[i].trackId, IsVideo(tracks[i])))
  }

  function MaxTrackId(tracks: seq<Track>): U32 {
    if tracks == [] then 0
    else
      var m, id := MaxTrackId(tracks[..|tracks| - 1]), tracks[|tracks| - 1].trackId;
      if m < id then id else m
  }

  function Moov(tracks: seq<Track>): Box {
    Box(MOOV, [], [Mvhd(ToU32(MaxTrackId(tracks) + 1)), Box(MVEX, [], Trexs(tracks))] + Traks(tracks))
  }

  function InitBoxes(tracks: seq<Track>): seq<Box> {
    [Ftyp(), Moov(tracks)]
  }

  function InitBytes(tracks: seq<Track>): seq<Byte> {
    EncodeAll(InitBoxes(tracks))
  }
}
