/** What an init segment declares is read back by a standard reader, track by track. */
module InitRoundTrip {
  import opened Bytes
  import opened Wrappers
  import opened BoxTree
  import opened IsoTypes
  import opened BoxBuilding
  import opened SegmentReader
  import opened SegmentRoundTrip
  import opened Tracks
  import opened InitLayout
  import opened InitReader

  // ---- the decoder configuration of an AAC track ----

  lemma DescriptorReads(tag: Byte, size: Byte, after: seq<Byte>)
    ensures ReadDescriptor(Descriptor(tag, size) + after, tag)
         == if size < 0x80 && size <= |after| then Some((after[..size], after[size..])) else None
  {
    var s := Descriptor(tag, size) + after;
    assert s[1..] == [0x80, 0x80, 0x80, size] + after;
    assert s[1..][1..] == [0x80, 0x80, size] + after;
    assert s[1..][1..][1..] == [0x80, size] + after;
    assert s[1..][1..][1..][1..] == [size] + after;
    assert s[1..][1..][1..][1..][1..] == after;
    assert ReadLength([size] + after, 1, 0) == if size < 0x80 then Some((size as nat, after)) else None;
    assert ReadLength([0x80, size] + after, 2, 0) == ReadLength([size] + after, 1, 0);
    assert ReadLength([0x80, 0x80, size] + after, 3, 0) == ReadLength([0x80, size] + after, 2, 0);
  }

  /** A length that is cut before its last byte cannot be read. */
  lemma {:induction false} CutLength(s: seq<Byte>, most: nat, value: nat)
    requires forall i :: 0 <= i < |s| ==> s[i] >= 0x80
    ensures ReadLength(s, most, value) == None
  {
    if most > 0 && s != [] {
      CutLength(s[1..], most - 1, value * 0x80 + (s[0] - 0x80));
    }
  }

  lemma CutDescriptor(tag: Byte, size: Byte, s: seq<Byte>)
    requires |s| < 5 && s == Descriptor(tag, size)[..|s|]
    ensures ReadDescriptor(s, tag) == None
  {
    if s != [] {
      CutLength(s[1..], 4, 0);
    }
  }

  /** Which of the decoder configuration a reader finds again: all that its one length byte can say, if the lengths of
      the descriptors around it stay within seven bits, and else nothing. */
  function SeenConfig(extradata: seq<Byte>): Option<seq<Byte>> {
    var n := |extradata| % 0x100;
    if n <= 95 then Some(extradata[..n]) else None
  }

  lemma EsdsReads(extradata: seq<Byte>, bitRate: int)
    ensures ReadEsds(Esds(extradata, bitRate)) == SeenConfig(extradata)
  {
    hide *;
    var n: Byte := |extradata| % 0x100;
    var inner := DecoderSpecific(extradata) + Descriptor(6, 1) + [2];
    var dcd := DcdSize(extradata);
    var body := EsIdAndFlags() + (Descriptor(4, dcd) + (DecoderConfigFields(bitRate) + inner));
    EsdsSizes(extradata, n);
    EsdsBody(extradata, bitRate);
    ReadEsdsIs(Esds(extradata, bitRate));
    DescriptorLength();
    assert |body| == 32 + n;
    if n <= 95 {
      WholeConfig(extradata, bitRate, inner, dcd, body, n);
    } else if n >= 224 {
      CutConfig(extradata, bitRate, inner, dcd, body, n);
    } else {
      NoConfig(EsSize(extradata), body);
    }
  }

  lemma EsdsSizes(extradata: seq<Byte>, n: Byte)
    requires n == |extradata| % 0x100
    ensures DcdSize(extradata) == (if n < 238 then 18 + n else n - 238)
    ensures EsSize(extradata) == (if n < 224 then 32 + n else n - 224)
    ensures SeenConfig(extradata) == if n <= 95 then Some(extradata[..n]) else None
  {
  }

  lemma ReadEsdsIs(esds: Box)
    requires |esds.fields| >= 4
    ensures ReadEsds(esds) == ReadDecoderSpecific(esds.fields[4..])
  {
    hide ReadDecoderSpecific;
  }

  lemma NoConfig(es: Byte, body: seq<Byte>)
    requires es >= 0x80
    ensures ReadDecoderSpecific(Descriptor(3, es) + body) == None
  {
    hide Descriptor, ReadDescriptor;
    DescriptorReads(3, es, body);
  }

  lemma EsdsBody(extradata: seq<Byte>, bitRate: int)
    ensures var inner := DecoderSpecific(extradata) + Descriptor(6, 1) + [2];
            var body := EsIdAndFlags() + (Descriptor(4, DcdSize(extradata)) + (DecoderConfigFields(bitRate) + inner));
            && |inner| == 11 + |extradata| % 0x100
            && |Esds(extradata, bitRate).fields| >= 4
            && Esds(extradata, bitRate).fields[4..] == Descriptor(3, EsSize(extradata)) + body
  {
    hide Descriptor, DecoderConfigFields, EsSize, DcdSize, BE;
    var fields := Esds(extradata, bitRate).fields;
    assert |FullBoxHeader(0, 0)| == 4;
    assert fields[4..] == EsDescriptor(extradata, bitRate);
    assert |Descriptor(5, DsiSize(extradata))| == 5 && |Descriptor(6, 1)| == 5 by { DescriptorLength(); }
  }

  lemma DescriptorLength()
    ensures forall tag, size {:trigger Descriptor(tag, size)} :: |Descriptor(tag, size)| == 5
  {
  }

  lemma WholeConfig(extradata: seq<Byte>, bitRate: int, inner: seq<Byte>, dcd: Byte, body: seq<Byte>, n: Byte)
    requires n == |extradata| % 0x100 && n <= 95 && dcd == 18 + n
    requires inner == DecoderSpecific(extradata) + Descriptor(6, 1) + [2]
    requires body == EsIdAndFlags() + (Descriptor(4, dcd) + (DecoderConfigFields(bitRate) + inner))
    requires |body| == 32 + n
    ensures ReadDecoderSpecific(Descriptor(3, 32 + n) + body) == Some(extradata[..n])
  {
    var fields := DecoderConfigFields(bitRate);
    assert EsIdAndFlags()[2] == 0;
    InnerConfig(extradata, inner, n);
    hide Descriptor, DecoderConfigFields, ReadDescriptor, EsIdAndFlags, DecoderSpecific;
    DescriptorReads(3, 32 + n, body);
    assert body[..32 + n] == body && body[3..] == Descriptor(4, dcd) + (fields + inner);
    DescriptorReads(4, dcd, fields + inner);
    assert (fields + inner)[..dcd][13..] == inner[..5 + n];
  }

  lemma InnerConfig(extradata: seq<Byte>, inner: seq<Byte>, n: Byte)
    requires n == |extradata| % 0x100 && n <= 95
    requires inner == DecoderSpecific(extradata) + Descriptor(6, 1) + [2]
    ensures |inner| == 11 + n && ReadDescriptor(inner[..5 + n], 5) == Some((extradata[..n], []))
  {
    DescriptorLength();
    hide Descriptor, ReadDescriptor;
    assert inner[..5 + n] == Descriptor(5, n) + extradata[..n];
    DescriptorReads(5, n, extradata[..n]);
    assert extradata[..n][..n] == extradata[..n];
    assert extradata[..n][n..] == [];
  }

  lemma CutConfig(extradata: seq<Byte>, bitRate: int, inner: seq<Byte>, dcd: Byte, body: seq<Byte>, n: Byte)
    requires n == |extradata| % 0x100 && n >= 224 && dcd == if n < 238 then n + 18 else n - 238
    requires inner == DecoderSpecific(extradata) + Descriptor(6, 1) + [2]
    requires body == EsIdAndFlags() + (Descriptor(4, dcd) + (DecoderConfigFields(bitRate) + inner))
    requires |body| == 32 + n
    ensures ReadDecoderSpecific(Descriptor(3, n - 224) + body) == None
  {
    var fields, es := DecoderConfigFields(bitRate), n - 224;
    hide Descriptor, DecoderConfigFields, ReadDescriptor, EsIdAndFlags;
    DescriptorLength();
    DescriptorReads(3, es, body);
    var payload := body[..es];
    if es >= 3 {
      var rest := fields + inner;
      if es < 8 {
        assert payload[3..] == Descriptor(4, dcd)[..es - 3];
        CutDescriptor(4, dcd, payload[3..]);
      } else {
        var after := rest[..es - 8];
        assert payload[3..] == Descriptor(4, dcd) + after;
        DescriptorReads(4, dcd, after);
        if n >= 251 {
          assert after[..dcd][13..] == Descriptor(5, n)[..dcd - 13];
          CutDescriptor(5, n, after[..dcd][13..]);
        }
      }
    }
  }

  /** A reader finds the whole configuration again if and only if it has at most 95 bytes. */
  lemma ConfigReadsBackIff(extradata: seq<Byte>, bitRate: int)
    ensures ReadEsds(Esds(extradata, bitRate)) == Some(extradata) <==> |extradata| <= 95
  {
    EsdsReads(extradata, bitRate);
    if |extradata| <= 95 {
      assert extradata[..|extradata|] == extradata;
    }
  }

  // ---- what a reader sees ----

  function SeenEntry(codec: CodecParameters): ReadEntry
    requires !codec.Neither?
  {
    match codec
    case Video(OtherVideo, _, _, _) => OpaqueEntry(UNKNOWN)
    case Video(kind, width, height, extradata) =>
      VisualEntry(if kind.H264? then ISO_AVC1 else ISO_HEV1, width % 0x1_0000, height % 0x1_0000,
                  if extradata == [] then None else Some(extradata))
    case Audio(OtherAudio, _, _, _, _) => OpaqueEntry(UNKNOWN)
    case Audio(AAC, channels, rate, _, extradata) =>
      SoundEntry(ISO_MP4A, if channels > 0 then channels % 0x1_0000 else 2, if rate > 0 then rate % 0x1_0000 else 48000,
                 SeenConfig(extradata))
  }

  /** 'vide', 'soun' and 'hint'. */
  const VIDEO_MEDIA: nat := 0x76696465
  const AUDIO_MEDIA: nat := 0x736F756E
  const HINT_MEDIA: nat := 0x68696E74

  function SeenTrack(t: Track): ReadTrack
    requires !t.codec.Neither?
  {
    ReadTrack(t.trackId,
              if t.codec.Video? then t.codec.width % 0x1_0000 * 0x1_0000 else 0,
              if t.codec.Video? then t.codec.height % 0x1_0000 * 0x1_0000 else 0,
              if t.codec.Audio? && t.initialPadding > 0 then Some(t.initialPadding) else None,
              t.timescale, Letters(PackedLanguage(t.language)),
              if t.codec.Video? then VIDEO_MEDIA else AUDIO_MEDIA, SeenEntry(t.codec))
  }

  predicate AllHaveMedia(tracks: seq<Track>) {
    forall i :: 0 <= i < |tracks| ==> !tracks[i].codec.Neither?
  }

  function SeenTracks(tracks: seq<Track>): (r: seq<ReadTrack>)
    requires AllHaveMedia(tracks)
    ensures |r| == |tracks|
  {
    seq(|tracks|, i requires 0 <= i < |tracks| => SeenTrack(tracks[i]))
  }

  /** A sample that depends on others and is no sync sample. */
  const DEPENDENT_SAMPLE: nat := 0x0101_0000

  /** Samples of video are not sync samples unless their run says so; samples of audio are. */
  function SeenDefaults(tracks: seq<Track>): (r: seq<(nat, nat)>)
    ensures |r| == |tracks|
  {
    seq(|tracks|, i requires 0 <= i < |tracks| =>
      (tracks[i].trackId, if tracks[i].codec.Video? then DEPENDENT_SAMPLE else 0))
  }

  lemma Shifted16Is(v: int)
    ensures Shifted16(v) == v % 0x1_0000 * 0x1_0000
  {
    var u: int := v % 0x1_0000_0000;
    var k, q, r := v / 0x1_0000_0000, u / 0x1_0000, u % 0x1_0000;
    Remainders(q, r * 0x1_0000);
    Remainders(k * 0x1_0000 + q, r);
    assert u * 0x1_0000 == q * 0x1_0000_0000 + r * 0x1_0000 && v == (k * 0x1_0000 + q) * 0x1_0000 + r;
  }

  lemma Remainders(q: int, r: nat)
    ensures r < 0x1_0000 ==> (q * 0x1_0000 + r) % 0x1_0000 == r
    ensures r < 0x1_0000_0000 ==> (q * 0x1_0000_0000 + r) % 0x1_0000_0000 == r
  {
  }

  // ---- fields ----

  /** In a track header of version 1, the track id follows version, flags and two times ... */
  lemma TrackIdReads(trackId: U32, after: seq<Byte>)
    ensures var fields := TkhdIds(trackId) + after;
            Field(fields, 0, 1) == Some(1) && Field(fields, 20, 4) == Some(trackId)
  {
    Widths();
    hide BE, UnBE, Pow256, FullBoxHeader, Field;
    var h, times, tail := FullBoxHeader(1, 7), BE(8, 0) + BE(8, 0), BE(4, 0) + BE(8, 0) + BE(4, 0) + BE(4, 0) + after;
    var fields := TkhdIds(trackId) + after;
    HeaderFields(1, 7, times + BE(4, trackId) + tail);
    assert fields == h + (times + BE(4, trackId) + tail);
    assert fields == (h + times) + BE(4, trackId) + tail;
    FieldIn(fields, h + times, 4, trackId, tail);
  }

  /** ... and width and height come last. */
  lemma TkhdReads(t: Track)
    ensures ReadTkhd(Tkhd(t).fields)
         == Some((t.trackId, if t.codec.Video? then t.codec.width % 0x1_0000 * 0x1_0000 else 0,
                  if t.codec.Video? then t.codec.height % 0x1_0000 * 0x1_0000 else 0))
  {
    hide *;
    var width, height := TkhdSizeIs(t.codec);
    TkhdIs(t);
    TrackIdReads(t.trackId, TkhdPlacement(IsAudio(t)) + TkhdSize(t.codec));
    TkhdParts(TkhdIds(t.trackId), TkhdPlacement(IsAudio(t)), t.trackId, width, height);
  }

  lemma TkhdParts(ids: seq<Byte>, placement: seq<Byte>, trackId: nat, width: U32, height: U32)
    requires |ids| == |placement| == 44
    requires var fields := ids + (placement + (BE(4, width) + BE(4, height)));
             Field(fields, 0, 1) == Some(1) && Field(fields, 20, 4) == Some(trackId)
    ensures ReadTkhd(ids + placement + (BE(4, width) + BE(4, height))) == Some((trackId, width as nat, height as nat))
  {
    hide *;
    var size := BE(4, width) + BE(4, height);
    assert ids + placement + size == ids + (placement + size);
    SizesRead(ids + placement, width, height);
    ReadTkhdFrom(ids + placement + size, trackId, width, height);
  }

  lemma SizesRead(head: seq<Byte>, width: U32, height: U32)
    requires |head| == 88
    ensures var fields := head + (BE(4, width) + BE(4, height));
            Field(fields, 88, 4) == Some(width) && Field(fields, 92, 4) == Some(height)
  {
    Widths();
    hide *;
    var fields := head + (BE(4, width) + BE(4, height));
    assert fields == head + BE(4, width) + BE(4, height);
    FieldIn(fields, head, 4, width, BE(4, height));
    assert fields == (head + BE(4, width)) + BE(4, height) + [];
    FieldIn(fields, head + BE(4, width), 4, height, []);
  }

  lemma TkhdSizeIs(codec: CodecParameters) returns (width: U32, height: U32)
    ensures width == (if codec.Video? then codec.width % 0x1_0000 * 0x1_0000 else 0)
    ensures height == (if codec.Video? then codec.height % 0x1_0000 * 0x1_0000 else 0)
    ensures TkhdSize(codec) == BE(4, width) + BE(4, height)
  {
    hide BE, Shifted16;
    if codec.Video? {
      Shifted16Is(codec.width);
      Shifted16Is(codec.height);
      width, height := Shifted16(codec.width), Shifted16(codec.height);
    } else {
      width, height := 0, 0;
    }
  }

  lemma TkhdIs(t: Track)
    ensures Tkhd(t).fields == TkhdIds(t.trackId) + TkhdPlacement(IsAudio(t)) + TkhdSize(t.codec)
  {
    hide TkhdIds, TkhdPlacement, TkhdSize;
  }

  lemma ReadTkhdFrom(fields: seq<Byte>, trackId: nat, width: nat, height: nat)
    requires Field(fields, 0, 1) == Some(1) && Field(fields, 20, 4) == Some(trackId)
    requires Field(fields, 88, 4) == Some(width) && Field(fields, 92, 4) == Some(height)
    ensures ReadTkhd(fields) == Some((trackId, width, height))
  {
    hide Field;
  }

  lemma MdhdReads(t: Track)
    ensures ReadMdhd(Mdhd(t).fields) == Some((t.timescale as nat, Letters(PackedLanguage(t.language))))
  {
    Widths();
    hide BE, UnBE, Pow256, FullBoxHeader, PackedLanguage, Letters, Field;
    var h, times, packed := FullBoxHeader(1, 0), BE(8, 0) + BE(8, 0), PackedLanguage(t.language);
    var fields := Mdhd(t).fields;
    HeaderFields(1, 0, times + BE(4, t.timescale) + BE(8, 0) + BE(2, packed) + BE(2, 0));
    assert fields == h + (times + BE(4, t.timescale) + BE(8, 0) + BE(2, packed) + BE(2, 0));
    assert fields == (h + times) + BE(4, t.timescale) + (BE(8, 0) + BE(2, packed) + BE(2, 0));
    FieldIn(fields, h + times, 4, t.timescale, BE(8, 0) + BE(2, packed) + BE(2, 0));
    assert fields == (h + times + BE(4, t.timescale) + BE(8, 0)) + BE(2, packed) + BE(2, 0);
    FieldIn(fields, h + times + BE(4, t.timescale) + BE(8, 0), 2, packed, BE(2, 0));
  }

  lemma SignedTime(time: I64)
    ensures ToI64(ToU64(time)) == time
  {
  }

  lemma ElstReads(time: I64)
    ensures ReadElst(Elst(time).fields) == Some(time)
  {
    Widths();
    SignedTime(time);
    hide BE, UnBE, Pow256, FullBoxHeader, Field, ToU64, ToI64, ToI32;
    var h, rest, v := FullBoxHeader(1, 0), BE(2, 1) + BE(2, 0), ToU64(time);
    var fields := Elst(time).fields;
    HeaderFields(1, 0, BE(4, 1) + BE(8, 0) + BE(8, v) + rest);
    assert fields == h + (BE(4, 1) + BE(8, 0) + BE(8, v) + rest);
    assert fields == h + BE(4, 1) + (BE(8, 0) + BE(8, v) + rest);
    FieldIn(fields, h, 4, 1, BE(8, 0) + BE(8, v) + rest);
    assert fields == (h + BE(4, 1) + BE(8, 0)) + BE(8, v) + rest;
    FieldIn(fields, h + BE(4, 1) + BE(8, 0), 8, v, rest);
  }

  lemma HdlrReads(t: Track)
    ensures Field(Hdlr(t).fields, 8, 4) == Some(HandlerType(t))
  {
    Widths();
    hide BE, UnBE, Pow256, FullBoxHeader, Field, HandlerType, HandlerName;
    HeaderFields(0, 0, []);
    var rest := BE(4, 0) + BE(4, 0) + BE(4, 0) + HandlerName(t);
    assert Hdlr(t).fields == (FullBoxHeader(0, 0) + BE(4, 0)) + BE(4, HandlerType(t)) + rest;
    FieldIn(Hdlr(t).fields, FullBoxHeader(0, 0) + BE(4, 0), 4, HandlerType(t), rest);
  }

  lemma TrexReads(trackId: U32, isVideo: bool)
    ensures Field(Trex(trackId, isVideo).fields, 4, 4) == Some(trackId)
    ensures Field(Trex(trackId, isVideo).fields, 20, 4) == Some(if isVideo then NON_SYNC_SAMPLE else 0)
  {
    Widths();
    hide BE, UnBE, Pow256, FullBoxHeader, Field;
    HeaderFields(0, 0, []);
    var h, mid := FullBoxHeader(0, 0), BE(4, 1) + BE(4, 0) + BE(4, 0);
    var flags: U32 := if isVideo then NON_SYNC_SAMPLE else 0;
    var fields := Trex(trackId, isVideo).fields;
    assert fields == h + BE(4, trackId) + (mid + BE(4, flags));
    FieldIn(fields, h, 4, trackId, mid + BE(4, flags));
    assert fields == (h + BE(4, trackId) + mid) + BE(4, flags) + [];
    FieldIn(fields, h + BE(4, trackId) + mid, 4, flags, []);
  }

  lemma MvhdReads(nextTrackId: U32)
    ensures ReadMvhd(Mvhd(nextTrackId).fields) == Some(nextTrackId)
  {
    Widths();
    MvhdVersion();
    FirstByte(Mvhd(nextTrackId).fields);
    hide BE, UnBE, Pow256, Field, MvhdBefore;
    assert Mvhd(nextTrackId).fields == MvhdBefore() + BE(4, nextTrackId) + [];
    FieldIn(Mvhd(nextTrackId).fields, MvhdBefore(), 4, nextTrackId, []);
  }

  lemma MvhdVersion()
    ensures MvhdBefore()[0] == 1
  {
    hide BE, Words, Zeros;
  }

  lemma FirstByte(fields: seq<Byte>)
    requires fields != []
    ensures Field(fields, 0, 1) == Some(fields[0] as nat)
  {
    assert fields[0..1] == [fields[0]] && [fields[0]][..0] == [];
    assert UnBE([fields[0]]) == fields[0];
  }

  // ---- sample entries ----

  lemma ChildAt(boxes: seq<Box>, i: nat)
    requires i < |boxes| && forall j :: 0 <= j < i ==> boxes[j].fourcc != boxes[i].fourcc
    ensures Child(boxes, boxes[i].fourcc) == Some(boxes[i])
  {
    FindAt(boxes, i);
  }

  lemma {:induction false} FindAt(boxes: seq<Box>, i: nat)
    requires i < |boxes| && forall j :: 0 <= j < i ==> boxes[j].fourcc != boxes[i].fourcc
    ensures Find(boxes, boxes[i].fourcc) == Some(i)
  {
    if i > 0 {
      FindAt(boxes[1..], i - 1);
    }
  }

  lemma {:induction false} NotFound(boxes: seq<Box>, fourcc: FourCC)
    requires forall j :: 0 <= j < |boxes| ==> boxes[j].fourcc != fourcc
    ensures Child(boxes, fourcc) == None
  {
    if boxes != [] {
      NotFound(boxes[1..], fourcc);
    }
  }

  lemma VisualReads(width: int, height: int)
    ensures Field(VisualFields(width, height), 24, 2) == Some(width % 0x1_0000)
    ensures Field(VisualFields(width, height), 26, 2) == Some(height % 0x1_0000)
  {
    Widths();
    hide BE, UnBE, Pow256, Field, Zeros, VisualRest, EntryHead;
    var w, h, rest := width % 0x1_0000, height % 0x1_0000, VisualRest();
    var head := BE(2, 0) + BE(2, 0) + Zeros(12);
    var fields := VisualFields(width, height);
    assert fields == EntryHead() + (head + BE(2, w) + BE(2, h)) + rest;
    assert fields == (EntryHead() + head) + BE(2, w) + (BE(2, h) + rest);
    FieldIn(fields, EntryHead() + head, 2, w, BE(2, h) + rest);
    assert fields == (EntryHead() + head + BE(2, w)) + BE(2, h) + rest;
    FieldIn(fields, EntryHead() + head + BE(2, w), 2, h, rest);
  }

  lemma SoundReads(channels: int, rate: int)
    ensures Field(SoundFields(channels, rate), 16, 2) == Some(Channels(channels))
    ensures Field(SoundFields(channels, rate), 24, 4) == Some(Shifted16(SampleRate(rate)))
  {
    Widths();
    hide BE, UnBE, Pow256, Field, EntryHead, Channels, SampleRate, Shifted16;
    var n, r := Channels(channels), Shifted16(SampleRate(rate));
    var head, mid := BE(4, 0) + BE(4, 0), BE(2, 16) + BE(2, 0) + BE(2, 0);
    var fields := SoundFields(channels, rate);
    assert fields == (EntryHead() + head) + BE(2, n) + (mid + BE(4, r));
    FieldIn(fields, EntryHead() + head, 2, n, mid + BE(4, r));
    assert fields == (EntryHead() + head + BE(2, n) + mid) + BE(4, r) + [];
    FieldIn(fields, EntryHead() + head + BE(2, n) + mid, 4, r, []);
  }

  lemma EntryIs(codec: CodecParameters)
    requires !codec.Neither?
    ensures match codec
            case Video(OtherVideo, _, _, _) => SampleEntry(codec).fourcc == UNKNOWN
            case Video(_, width, height, _) =>
              && SampleEntryType(codec) == (if codec.videoCodec.H264? then AVC1 else HEV1)
              && SampleEntry(codec) == Box(SampleEntryType(codec), VisualFields(width, height), ConfigBoxes(codec))
              && ConfigBoxes(codec) == if codec.extradata == [] then []
                                       else [Box(if codec.videoCodec.H264? then AVCC else HVCC, codec.extradata, [])]
            case Audio(OtherAudio, _, _, _, _) => SampleEntry(codec).fourcc == UNKNOWN
            case Audio(AAC, channels, rate, bitRate, extradata) =>
              && SampleEntry(codec) == Box(MP4A, SoundFields(channels, rate), [Esds(extradata, bitRate)])
              && Esds(extradata, bitRate).fourcc == ESDS
  {
    hide VisualFields, SoundFields, EncodeAll, EsDescriptor, BE;
  }

  lemma ReadOpaque(box: Box)
    requires box.fourcc == UNKNOWN
    ensures ReadEntryBox(box) == Some(OpaqueEntry(UNKNOWN))
  {
    hide Field, Child, ReadEsds;
  }

  lemma ReadVisual(box: Box, width: nat, height: nat)
    requires (box.fourcc == AVC1 || box.fourcc == HEV1)
    requires Field(box.fields, 24, 2) == Some(width) && Field(box.fields, 26, 2) == Some(height)
    ensures ReadEntryBox(box)
         == Some(VisualEntry(box.fourcc, width, height,
                             match Child(box.children, if box.fourcc == AVC1 then AVCC else HVCC)
                             case None => None
                             case Some(config) => Some(config.fields)))
  {
    hide Field, Child, ReadEsds;
  }

  lemma ReadSound(box: Box, channels: nat, rate: nat, esds: Box)
    requires box.fourcc == MP4A && Child(box.children, ESDS) == Some(esds)
    requires Field(box.fields, 16, 2) == Some(channels) && Field(box.fields, 24, 4) == Some(rate)
    ensures ReadEntryBox(box) == Some(SoundEntry(MP4A, channels, rate / 0x1_0000, ReadEsds(esds)))
  {
    hide Field, Child, ReadEsds;
  }

  lemma EntryReads(codec: CodecParameters)
    requires !codec.Neither?
    ensures ReadEntryBox(SampleEntry(codec)) == Some(SeenEntry(codec))
  {
    EntryIs(codec);
    match codec
    case Video(OtherVideo, _, _, _) =>
      hide SampleEntry, ReadEntryBox;
      ReadOpaque(SampleEntry(codec));
    case Audio(OtherAudio, _, _, _, _) =>
      hide SampleEntry, ReadEntryBox;
      ReadOpaque(SampleEntry(codec));
    case Video(kind, width, height, extradata) =>
      hide SampleEntry, SampleEntryType, ConfigBoxes, VisualFields, ReadEntryBox;
      VideoReads(kind, width, height, extradata);
    case Audio(AAC, channels, rate, bitRate, extradata) =>
      hide SampleEntry, SoundFields, Esds, SampleRate, Channels, ReadEntryBox, SeenConfig;
      RateAndChannels(channels, rate);
      AacReads(channels, rate, bitRate, extradata);
  }

  lemma RateAndChannels(channels: int, rate: int)
    ensures Channels(channels) == if channels > 0 then channels % 0x1_0000 else 2
    ensures SampleRate(rate) % 0x1_0000 == if rate > 0 then rate % 0x1_0000 else 48000
  {
  }

  lemma VideoReads(kind: VideoCodec, width: int, height: int, extradata: seq<Byte>)
    requires !kind.OtherVideo?
    ensures var box := Box(if kind.H264? then AVC1 else HEV1, VisualFields(width, height),
                           if extradata == [] then [] else [Box(if kind.H264? then AVCC else HVCC, extradata, [])]);
            ReadEntryBox(box) == Some(SeenEntry(Video(kind, width, height, extradata)))
  {
    var config := if extradata == [] then [] else [Box(if kind.H264? then AVCC else HVCC, extradata, [])];
    var box := Box(if kind.H264? then AVC1 else HEV1, VisualFields(width, height), config);
    VisualReads(width, height);
    hide Field, VisualFields, Child, ReadEntryBox;
    ReadVisual(box, width % 0x1_0000, height % 0x1_0000);
    if extradata == [] {
      NotFound([], if kind.H264? then AVCC else HVCC);
    } else {
      ChildAt(config, 0);
    }
  }

  lemma AacReads(channels: int, rate: int, bitRate: int, extradata: seq<Byte>)
    requires Esds(extradata, bitRate).fourcc == ESDS
    ensures ReadEntryBox(Box(MP4A, SoundFields(channels, rate), [Esds(extradata, bitRate)]))
         == Some(SoundEntry(MP4A, Channels(channels), SampleRate(rate) % 0x1_0000, SeenConfig(extradata)))
  {
    hide *;
    SoundReads(channels, rate);
    Shifted16Is(SampleRate(rate));
    EsdsReads(extradata, bitRate);
    ChildAt([Esds(extradata, bitRate)], 0);
    ReadSound(Box(MP4A, SoundFields(channels, rate), [Esds(extradata, bitRate)]), Channels(channels),
              Shifted16(SampleRate(rate)), Esds(extradata, bitRate));
  }

  lemma StsdReads(t: Track)
    ensures ReadStsd(Stsd(t)) == if t.codec.Neither? then None else Some(SeenEntry(t.codec))
  {
    Widths();
    hide BE, UnBE, Pow256, Field, FullBoxHeader, SampleEntry, SeenEntry, ReadEntryBox;
    HeaderFields(0, 0, []);
    assert Stsd(t).fields == FullBoxHeader(0, 0) + BE(4, 1) + [];
    FieldIn(Stsd(t).fields, FullBoxHeader(0, 0), 4, 1, []);
    if !t.codec.Neither? {
      EntryReads(t.codec);
    }
  }

  // ---- tracks ----

  lemma EditsAre(t: Track)
    ensures Edits(t) == if IsAudio(t) && t.initialPadding > 0 then [Edts(t.initialPadding)] else []
    ensures Edts(t.initialPadding) == Box(EDTS, [], [Elst(t.initialPadding)])
    ensures Elst(t.initialPadding).fourcc == ELST
    ensures Trak(t).children == [Tkhd(t)] + Edits(t) + [Mdia(t)]
    ensures EDTS != TKHD && EDTS != MDIA
  {
    hide Tkhd, Mdia, BE;
  }

  lemma ReadPrimingFrom(children: seq<Box>, elst: Box, time: int)
    ensures Child(children, EDTS) == None ==> ReadPriming(children) == Some(None)
    ensures (Child(children, EDTS) == Some(Box(EDTS, [], [elst])) && Child([elst], ELST) == Some(elst)
             && ReadElst(elst.fields) == Some(time)) ==> ReadPriming(children) == Some(Some(time))
  {
    hide Child, ReadElst;
  }

  lemma PrimingReads(t: Track)
    ensures ReadPriming(Trak(t).children)
         == Some(if IsAudio(t) && t.initialPadding > 0 then Some(t.initialPadding) else None)
  {
    var children, elst := Trak(t).children, Elst(t.initialPadding);
    Types(t);
    EditsAre(t);
    hide *;
    ReadPrimingFrom(children, elst, t.initialPadding);
    if Edits(t) == [] {
      assert children == [Tkhd(t), Mdia(t)];
      NotFound(children, EDTS);
    } else {
      ElstReads(t.initialPadding);
      assert children == [Tkhd(t), Edts(t.initialPadding), Mdia(t)];
      ChildAt(children, 1);
      ChildAt([elst], 0);
    }
  }

  lemma Types(t: Track)
    ensures Tkhd(t).fourcc == TKHD && Mdia(t).fourcc == MDIA && Mdhd(t).fourcc == MDHD && Hdlr(t).fourcc == HDLR
    ensures Minf(t).fourcc == MINF && Stbl(t).fourcc == STBL && Stsd(t).fourcc == STSD && Dinf().fourcc == DINF
    ensures Trak(t).fourcc == TRAK && forall i :: 0 <= i < |Edits(t)| ==> Edits(t)[i].fourcc == EDTS
    ensures forall i :: 0 <= i < |MediaHeaders(t)| ==> MediaHeaders(t)[i].fourcc in {VMHD, SMHD}
  {
    hide BE;
  }

  lemma TablesRead(t: Track)
    ensures Child(Mdia(t).children, MDHD) == Some(Mdhd(t)) && Child(Mdia(t).children, HDLR) == Some(Hdlr(t))
    ensures Child(Mdia(t).children, MINF) == Some(Minf(t)) && Child(Minf(t).children, STBL) == Some(Stbl(t))
    ensures Child(Stbl(t).children, STSD) == Some(Stsd(t))
  {
    Types(t);
    hide Child, Mdhd, Hdlr, Dinf, Stsd, MediaHeaders;
    ChildAt(Mdia(t).children, 0);
    ChildAt(Mdia(t).children, 1);
    ChildAt(Mdia(t).children, 2);
    ChildAt(Minf(t).children, |MediaHeaders(t)| + 1);
    ChildAt(Stbl(t).children, 0);
  }

  lemma MdiaReads(t: Track)
    ensures ReadMdia(Mdia(t))
         == if t.codec.Neither? then None
            else Some((t.timescale, Letters(PackedLanguage(t.language)), HandlerType(t), SeenEntry(t.codec)))
  {
    TablesRead(t);
    MdhdReads(t);
    HdlrReads(t);
    StsdReads(t);
    hide Child, Mdia, Minf, Stbl, Stsd, Mdhd, Hdlr, ReadMdhd, ReadStsd, Field, Letters, PackedLanguage, SeenEntry,
         HandlerType;
  }

  lemma HandlerIs(t: Track)
    ensures HandlerType(t) == if t.codec.Video? then VIDEO_MEDIA else if t.codec.Audio? then AUDIO_MEDIA else HINT_MEDIA
  {
  }

  /** A track reads back, unless it is neither video nor audio: its sample description announces an entry that is not
      there. */
  lemma TrakReads(t: Track)
    ensures ReadTrak(Trak(t)) == if t.codec.Neither? then None else Some(SeenTrack(t))
  {
    Types(t);
    HandlerIs(t);
    PrimingReads(t);
    TkhdReads(t);
    MdiaReads(t);
    hide Child, Tkhd, Edits, Mdia, ReadTkhd, ReadMdia, ReadPriming, Letters, PackedLanguage, SeenEntry, HandlerType;
    ChildAt(Trak(t).children, 0);
    ChildAt(Trak(t).children, |Edits(t)| + 1);
  }

  lemma TraksCons(box: Box, rest: seq<Box>)
    requires box.fourcc == TRAK
    ensures ReadTraks([box] + rest)
         == match (ReadTraks(rest), ReadTrak(box))
            case (Some(r), Some(t)) => Some([t] + r)
            case _ => None
  {
    hide ReadTrak;
    assert ([box] + rest)[1..] == rest;
  }

  lemma {:induction false} TraksRead(tracks: seq<Track>)
    ensures ReadTraks(Traks(tracks)) == if AllHaveMedia(tracks) then Some(SeenTracks(tracks)) else None
  {
    hide ReadTraks, Trak, ReadTrak, SeenTrack, AllHaveMedia;
    if tracks == [] {
      NoTraks(tracks);
    } else {
      var rest := tracks[1..];
      TraksRead(rest);
      TrakReads(tracks[0]);
      TrakType(tracks[0]);
      assert Traks(tracks) == [Trak(tracks[0])] + Traks(rest);
      TraksCons(Trak(tracks[0]), Traks(rest));
      AllTrue(tracks);
      if AllHaveMedia(tracks) {
        assert SeenTracks(tracks) == [SeenTrack(tracks[0])] + SeenTracks(rest);
      }
    }
  }

  lemma NoTraks(tracks: seq<Track>)
    requires tracks == []
    ensures AllHaveMedia(tracks) && SeenTracks(tracks) == [] && ReadTraks(Traks(tracks)) == Some([])
    ensures SeenDefaults(tracks) == [] && ReadTrexs(Trexs(tracks)) == Some([])
  {
  }

  lemma TrakType(t: Track)
    ensures Trak(t).fourcc == TRAK
  {
  }

  lemma AllTrue(tracks: seq<Track>)
    requires tracks != []
    ensures AllHaveMedia(tracks) <==> !tracks[0].codec.Neither? && AllHaveMedia(tracks[1..])
  {
    if !tracks[0].codec.Neither? && AllHaveMedia(tracks[1..]) {
      forall i | 0 <= i < |tracks|
        ensures !tracks[i].codec.Neither?
      {
        assert i > 0 ==> tracks[i] == tracks[1..][i - 1];
      }
    }
  }

  lemma TrexsCons(trackId: U32, isVideo: bool, rest: seq<Box>)
    requires ReadTrexs(rest).Some?
    ensures ReadTrexs([Trex(trackId, isVideo)] + rest)
         == Some([(trackId as nat, if isVideo then NON_SYNC_SAMPLE as nat else 0)] + ReadTrexs(rest).value)
  {
    TrexReads(trackId, isVideo);
    hide Field, BE;
    assert ([Trex(trackId, isVideo)] + rest)[1..] == rest;
  }

  lemma {:induction false} TrexsRead(tracks: seq<Track>)
    ensures ReadTrexs(Trexs(tracks)) == Some(SeenDefaults(tracks))
  {
    hide ReadTrexs, Trexs, Trex, SeenDefaults, IsVideo;
    if tracks == [] {
      NoTraks(tracks);
    } else {
      var first, rest := tracks[0], tracks[1..];
      TrexsRead(rest);
      TrexsCons(first.trackId, IsVideo(first), Trexs(rest));
      TrexsNext(tracks);
    }
  }

  lemma TrexsNext(tracks: seq<Track>)
    requires tracks != []
    ensures var first, rest := tracks[0], tracks[1..];
            && Trexs(tracks) == [Trex(first.trackId, IsVideo(first))] + Trexs(rest)
            && SeenDefaults(tracks)
            == [(first.trackId as nat, if IsVideo(first) then NON_SYNC_SAMPLE as nat else 0)] + SeenDefaults(rest)
  {
    hide Trex;
  }

  // ---- every box is one that the format can express ----

  /** Children only in containers, which have exactly their type's fields. */
  predicate Shaped(box: Box)
    decreases box, 0
  {
    && (match FieldsBeforeChildren(box.fourcc)
        case Some(n) => |box.fields| == n
        case None => box.children == [])
    && ShapedAll(box.children)
  }

  predicate ShapedAll(boxes: seq<Box>)
    decreases boxes
  {
    boxes == [] || (Shaped(boxes[0]) && ShapedAll(boxes[1..]))
  }

  lemma {:induction false} ShapedFits(boxes: seq<Box>)
    requires ShapedAll(boxes) && SizeAll(boxes) < 0x1_0000_0000
    ensures WellformedAll(boxes)
    decreases boxes
  {
    if boxes != [] {
      ShapedFits(boxes[0].children);
      ShapedFits(boxes[1..]);
    }
  }

  lemma {:induction false} ShapedEach(boxes: seq<Box>)
    requires forall i :: 0 <= i < |boxes| ==> Shaped(boxes[i])
    ensures ShapedAll(boxes)
  {
    hide Shaped;
    if boxes != [] {
      ShapedEach(boxes[1..]);
    }
  }

  lemma ShapedLeaf(box: Box)
    requires FieldsBeforeChildren(box.fourcc) == None && box.children == []
    ensures Shaped(box)
  {
  }

  lemma ShapedNode(box: Box)
    requires FieldsBeforeChildren(box.fourcc) == Some(|box.fields|)
    requires forall i :: 0 <= i < |box.children| ==> Shaped(box.children[i])
    ensures Shaped(box)
  {
    hide FieldsBeforeChildren;
    ShapedEach(box.children);
  }

  lemma ShapedEntry(codec: CodecParameters)
    requires !codec.Neither?
    ensures Shaped(SampleEntry(codec))
  {
    hide EncodeAll, VisualFields, SoundFields, Esds;
    if codec.Video? {
      var config := ConfigBoxes(codec);
      forall i | 0 <= i < |config|
        ensures Shaped(config[i])
      {
        ShapedLeaf(config[i]);
      }
      ShapedEach(config);
    } else {
      EsdsLeaf(codec.extradata, codec.bitRate);
      ShapedEach([Esds(codec.extradata, codec.bitRate)]);
    }
  }

  lemma EsdsLeaf(extradata: seq<Byte>, bitRate: int)
    ensures Shaped(Esds(extradata, bitRate))
  {
    hide EsDescriptor, BE;
  }

  lemma ShapedTables(t: Track)
    ensures Shaped(Stbl(t)) && Shaped(Dinf())
  {
    hide SampleEntry, BE, Shaped;
    var stsd := Stsd(t);
    if !t.codec.Neither? {
      ShapedEntry(t.codec);
    }
    ShapedNode(stsd);
    ShapedLeaf(Empty(STTS));
    ShapedLeaf(Empty(STSC));
    ShapedLeaf(Stsz());
    ShapedLeaf(Empty(STCO));
    hide Stsd, Empty, Stsz;
    ShapedNode(Stbl(t));
    ShapedLeaf(Url());
    ShapedNode(Dinf().children[0]);
    ShapedNode(Dinf());
  }

  lemma ShapedHeaders(t: Track)
    ensures Shaped(Tkhd(t)) && Shaped(Mdhd(t)) && Shaped(Hdlr(t))
    ensures forall i :: 0 <= i < |MediaHeaders(t)| ==> Shaped(MediaHeaders(t)[i])
    ensures forall i :: 0 <= i < |Edits(t)| ==> Shaped(Edits(t)[i])
  {
    hide BE, Shaped, TkhdIds, TkhdPlacement, TkhdSize, PackedLanguage;
    ShapedLeaf(Tkhd(t));
    ShapedLeaf(Mdhd(t));
    ShapedLeaf(Hdlr(t));
    ShapedLeaf(Vmhd());
    ShapedLeaf(Smhd());
    if Edits(t) != [] {
      ShapedLeaf(Elst(t.initialPadding));
      ShapedNode(Edts(t.initialPadding));
    }
  }

  lemma ShapedTrak(t: Track)
    ensures Shaped(Trak(t))
  {
    hide BE, Shaped, Tkhd, Mdhd, Hdlr, MediaHeaders, Edits, Stbl, Dinf;
    ShapedTables(t);
    ShapedHeaders(t);
    ShapedNode(Minf(t));
    ShapedNode(Mdia(t));
    ShapedNode(Trak(t));
  }

  lemma ShapedInit(tracks: seq<Track>)
    ensures ShapedAll(InitBoxes(tracks))
  {
    hide BE, Shaped, Trak, MvhdBefore;
    var mvhd, mvex := Mvhd(ToU32(MaxTrackId(tracks) + 1)), Box(MVEX, [], Trexs(tracks));
    forall i | 0 <= i < |tracks|
      ensures Shaped(Traks(tracks)[i]) && Shaped(Trexs(tracks)[i])
    {
      ShapedTrak(tracks[i]);
      ShapedLeaf(Trexs(tracks)[i]);
    }
    hide Traks, Trexs;
    ShapedLeaf(Ftyp());
    ShapedLeaf(mvhd);
    ShapedNode(mvex);
    hide Mvhd, Ftyp;
    ShapedNode(Moov(tracks));
    ShapedEach(InitBoxes(tracks));
  }

  // ---- the init segment ----

  function SeenMovie(tracks: seq<Track>): Movie
    requires AllHaveMedia(tracks)
  {
    Movie(ToU32(MaxTrackId(tracks) + 1), SeenDefaults(tracks), SeenTracks(tracks))
  }

  /** An init segment of less than 2^32 bytes parses as its tree of boxes, and a reader finds in it every track with its
      parameters, unless some track is neither video nor audio. */
  lemma InitRoundTrip(tracks: seq<Track>)
    requires |InitBytes(tracks)| < 0x1_0000_0000
    ensures Parse(InitBytes(tracks)) == Some(InitBoxes(tracks))
    ensures ReadInit(InitBytes(tracks)) == if AllHaveMedia(tracks) then Some(SeenMovie(tracks)) else None
  {
    hide *;
    ShapedInit(tracks);
    InitSize(tracks);
    ShapedFits(InitBoxes(tracks));
    ParseEncode(InitBoxes(tracks));
    TraksRead(tracks);
    TrexsRead(tracks);
    MvhdReads(ToU32(MaxTrackId(tracks) + 1));
    MovieReads(tracks);
  }

  lemma InitSize(tracks: seq<Track>)
    ensures |InitBytes(tracks)| == SizeAll(InitBoxes(tracks)) && InitBytes(tracks) == EncodeAll(InitBoxes(tracks))
  {
    hide InitBoxes;
  }

  lemma SkipBoxes(boxes: seq<Box>, tracks: seq<Box>)
    requires |boxes| == 2 && forall i :: 0 <= i < |boxes| ==> boxes[i].fourcc != TRAK
    ensures ReadTraks(boxes + tracks) == ReadTraks(tracks)
  {
    hide ReadTrak;
    assert (boxes + tracks)[1..][1..] == tracks;
    assert (boxes + tracks)[1..][0] == boxes[1];
    assert ReadTraks((boxes + tracks)[1..]) == ReadTraks(tracks);
  }

  lemma MovieReads(tracks: seq<Track>)
    requires Parse(InitBytes(tracks)) == Some(InitBoxes(tracks))
    requires ReadTraks(Traks(tracks)) == if AllHaveMedia(tracks) then Some(SeenTracks(tracks)) else None
    requires ReadTrexs(Trexs(tracks)) == Some(SeenDefaults(tracks))
    requires ReadMvhd(Mvhd(ToU32(MaxTrackId(tracks) + 1)).fields) == Some(ToU32(MaxTrackId(tracks) + 1))
    ensures ReadInit(InitBytes(tracks)) == if AllHaveMedia(tracks) then Some(SeenMovie(tracks)) else None
  {
    MoovShape(tracks);
    var mvhd, mvex, moov := Mvhd(ToU32(MaxTrackId(tracks) + 1)), Box(MVEX, [], Trexs(tracks)), Moov(tracks);
    SeenMovieIs(tracks);
    DistinctTypes();
    hide *;
    SkipBoxes([mvhd, mvex], Traks(tracks));
    ReadInitFrom(InitBytes(tracks), InitBoxes(tracks), moov, mvhd, mvex);
  }

  lemma SeenMovieIs(tracks: seq<Track>)
    ensures AllHaveMedia(tracks) ==>
              (SeenMovie(tracks) == Movie(ToU32(MaxTrackId(tracks) + 1), SeenDefaults(tracks), SeenTracks(tracks)))
  {
    hide AllHaveMedia, MaxTrackId, SeenDefaults, SeenTracks;
  }

  lemma DistinctTypes()
    ensures FTYP != MOOV && MVHD != MVEX && MVHD != TRAK && MVEX != TRAK
  {
  }

  lemma InitTypes(tracks: seq<Track>)
    ensures Ftyp().fourcc == FTYP && forall id {:trigger Mvhd(id)} :: Mvhd(id).fourcc == MVHD
    ensures Moov(tracks).fourcc == MOOV && InitBoxes(tracks) == [Ftyp(), Moov(tracks)]
    ensures Moov(tracks).children
         == [Mvhd(ToU32(MaxTrackId(tracks) + 1)), Box(MVEX, [], Trexs(tracks))] + Traks(tracks)
  {
    hide BE, MvhdBefore, Trexs, Traks, MaxTrackId;
  }

  lemma MoovShape(tracks: seq<Track>)
    ensures var mvhd, mvex, moov := Mvhd(ToU32(MaxTrackId(tracks) + 1)), Box(MVEX, [], Trexs(tracks)), Moov(tracks);
            && mvhd.fourcc == MVHD && moov.children == [mvhd, mvex] + Traks(tracks)
            && Child(InitBoxes(tracks), MOOV) == Some(moov)
            && Child(moov.children, MVHD) == Some(mvhd) && Child(moov.children, MVEX) == Some(mvex)
  {
    var moov := Moov(tracks);
    InitTypes(tracks);
    DistinctTypes();
    hide *;
    ChildAt(InitBoxes(tracks), 1);
    ChildAt(moov.children, 0);
    ChildAt(moov.children, 1);
  }

  lemma ReadInitFrom(file: seq<Byte>, boxes: seq<Box>, moov: Box, mvhd: Box, mvex: Box)
    requires Parse(file) == Some(boxes) && Child(boxes, MOOV) == Some(moov)
    requires Child(moov.children, MVHD) == Some(mvhd) && Child(moov.children, MVEX) == Some(mvex)
    requires ReadMvhd(mvhd.fields).Some? && ReadTrexs(mvex.children).Some?
    ensures ReadInit(file)
         == match ReadTraks(moov.children)
            case None => None
            case Some(tracks) => Some(Movie(ReadMvhd(mvhd.fields).value, ReadTrexs(mvex.children).value, tracks))
  {
    hide Parse, Child, ReadMvhd, ReadTrexs, ReadTraks;
  }

  lemma Unpack(x: nat, y: nat, z: nat)
    requires x < 32 && y < 32 && z < 32
    ensures var p := (x * 32 + y) * 32 + z;
            p % 32 == z && p / 32 % 32 == y && p / 1024 % 32 == x
  {
    var p := (x * 32 + y) * 32 + z;
    assert p / 32 == x * 32 + y;
    assert p == x * 1024 + (y * 32 + z);
    assert p / 1024 == x;
  }

  /** Three letters read back as small letters. */
  lemma LanguageReads(language: seq<Byte>)
    requires |language| == 3
    requires forall i :: 0 <= i < 3 ==> 0x41 <= language[i] <= 0x5A || 0x61 <= language[i] <= 0x7A
    ensures Letters(PackedLanguage(Some(language)))
         == [Small(language[0]), Small(language[1]), Small(language[2])]
  {
    var a: int, b: int, c: int := language[0], language[1], language[2];
    assert PackedLetters(language, 1) == a % 32;
    assert PackedLetters(language, 2) == a % 32 * 32 + b % 32;
    assert PackedLetters(language, 3) == (a % 32 * 32 + b % 32) * 32 + c % 32;
    hide PackedLetters;
    Unpack(a % 32, b % 32, c % 32);
    LowBits(language[0]);
    LowBits(language[1]);
    LowBits(language[2]);
  }

  lemma LowBits(letter: Byte)
    requires 0x41 <= letter <= 0x5A || 0x61 <= letter <= 0x7A
    ensures letter as int % 32 + 0x60 == Small(letter)
  {
  }

  function Small(letter: Byte): nat {
    if 0x41 <= letter <= 0x5A then letter as int + 0x20 else letter
  }

  /** Without three letters, the language is undetermined: 'und'. */
  lemma NoLanguage(language: Option<seq<Byte>>)
    requires language.None? || |language.value| < 3
    ensures Letters(PackedLanguage(language)) == [0x75, 0x6E, 0x64]
  {
  }

  /** The next track id follows the largest. */
  lemma {:induction false} LargestId(tracks: seq<Track>)
    ensures forall i :: 0 <= i < |tracks| ==> tracks[i].trackId <= MaxTrackId(tracks)
    ensures tracks != [] ==> exists i :: 0 <= i < |tracks| && tracks[i].trackId == MaxTrackId(tracks)
  {
    if tracks != [] {
      var n := |tracks| - 1;
      LargestId(tracks[..n]);
      if n > 0 && tracks[n].trackId < MaxTrackId(tracks[..n]) {
        var i :| 0 <= i < n && tracks[..n][i].trackId == MaxTrackId(tracks[..n]);
        assert tracks[i].trackId == MaxTrackId(tracks);
      } else {
        assert tracks[n].trackId == MaxTrackId(tracks);
      }
    }
  }

  /** The box types of an init segment besides those that a reader looks for, and its brands: iso6, iso5 and dash. */
  lemma InitBoxTypes(t: Track)
    ensures Ftyp().fourcc == ISO_FTYP && Vmhd().fourcc == ISO_VMHD && Smhd().fourcc == ISO_SMHD && Url().fourcc == ISO_URL_
    ensures Ftyp().fields == BE(4, 0x69736F36) + BE(4, 1) + BE(4, 0x69736F36) + BE(4, 0x69736F35) + BE(4, 0x64617368)
    ensures Stbl(t).children
         == [Stsd(t), Empty(ISO_STTS), Empty(ISO_STSC), Box(ISO_STSZ, FullBoxHeader(0, 0) + BE(4, 0) + BE(4, 0), []),
             Empty(ISO_STCO)]
    ensures Dinf()
         == Box(ISO_DINF, [], [Box(ISO_DREF, FullBoxHeader(0, 0) + BE(4, 1), [Box(ISO_URL_, FullBoxHeader(0, 1), [])])])
  {
    hide BE, Stsd, FullBoxHeader;
  }
}
