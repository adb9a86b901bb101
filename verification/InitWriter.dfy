/** The writer of init segments (BuildInit in src/Fmp4Writer.cpp), proved to produce the boxes of InitLayout. */
module InitWriter {
  import opened Bytes
  import opened Wrappers
  import opened BoxTree
  import opened BoxBuilding
  import opened SegmentLayout
  import opened Fmp4Writer
  import opened Tracks
  import opened InitLayout

  method WriteWords(b: BoxBuilder, words: seq<U32>)
    modifies b
    ensures b.buf == old(b.buf) + Words(words)
  {
    hide BE;
    assert b.buf == old(b.buf) + Words([]);
    for i := 0 to |words|
      invariant b.buf == old(b.buf) + Words(words[..i])
    {
      assert words[..i + 1][..i] == words[..i];
      b.U32(words[i]);
    }
    assert words[..|words|] == words;
  }

  /** A child box written after others. */
  lemma Written(children: seq<Box>, box: Box, all: seq<Box>)
    requires all == children + [box]
    ensures EncodeAll(all) == EncodeAll(children) + Encode(box)
    ensures children == [] ==> EncodeAll(children) == [] && EncodeAll(all) == Encode(box)
  {
    hide Encode;
    EncodeAllConcat(children, [box]);
    SizeAllOne(box);
  }

  lemma NothingWritten(header: seq<Byte>)
    ensures header + EncodeAll([]) == header
  {
  }

  /** What EndBox leaves when the fields and children of a box have been written since it was begun. */
  lemma EndTree(before: seq<Byte>, buf: seq<Byte>, box: Box)
    requires buf == before + BE(4, 0) + BE(4, box.fourcc) + box.fields + EncodeAll(box.children)
    ensures |buf| - |before| == Size(box) && |before| + 4 <= |buf|
    ensures Patched(buf, |before|, Size(box)) == before + Encode(box)
  {
    hide Patched, Encode;
    Closed(before, box);
  }

  /** Writing part after part is writing them all at once. */
  lemma Flat(h: seq<Byte>, a: seq<Byte>, b: seq<Byte>, c: seq<Byte>, d: seq<Byte>, e: seq<Byte>)
    ensures h + a + b + c + d + e == h + (a + b + c + d + e)
  {
    Associate(h, a, b, []);
    assert h + a + b == h + (a + b);
    assert h + (a + b) + c == h + (a + b + c);
    assert h + (a + b + c) + d == h + (a + b + c + d);
  }

  method WriteFtyp(b: BoxBuilder)
    modifies b
    ensures b.buf == old(b.buf) + Encode(Ftyp())
  {
    hide BE;
    ghost var before := b.buf;
    var start := b.BeginBox(FTYP);
    b.Type(ISO6);
    b.U32(1);
    b.Type(ISO6);
    b.Type(ISO5);
    b.Type(DASH);
    EndLeaf(before, b.buf, Ftyp());
    b.EndBox(start);
  }

  method WriteMvhd(b: BoxBuilder, nextTrackId: U32)
    modifies b
    ensures b.buf == old(b.buf) + Encode(Mvhd(nextTrackId))
  {
    hide BE, Words, Zeros, FullBoxHeader;
    ghost var before := b.buf;
    ghost var h := before + BE(4, 0) + BE(4, MVHD);
    ghost var a := FullBoxHeader(1, 0) + BE(8, 0) + BE(8, 0) + BE(4, MOVIE_TIMESCALE) + BE(8, 0);
    ghost var a' := a + BE(4, 0x1_0000) + BE(2, 0x100) + BE(2, 0) + BE(4, 0);
    Flat(h, FullBoxHeader(1, 0), BE(8, 0), BE(8, 0), BE(4, MOVIE_TIMESCALE), BE(8, 0));
    Flat(h, a, BE(4, 0x1_0000), BE(2, 0x100), BE(2, 0), BE(4, 0));
    Flat(h, a', BE(4, 0), Words(IDENTITY), Zeros(24), BE(4, nextTrackId));
    var start := b.BeginFullBox(MVHD, 1, 0);
    b.U64(0);
    b.U64(0);
    b.U32(MOVIE_TIMESCALE);
    b.U64(0);
    b.U32(0x1_0000);
    b.U16(0x100);
    b.U16(0);
    b.U32(0);
    b.U32(0);
    WriteWords(b, IDENTITY);
    WriteZeros(b, 24);
    b.U32(nextTrackId);
    EndLeaf(before, b.buf, Mvhd(nextTrackId));
    b.EndBox(start);
  }

  method WriteZeros(b: BoxBuilder, n: nat)
    modifies b
    ensures b.buf == old(b.buf) + Zeros(n)
  {
    for i := 0 to n
      invariant b.buf == old(b.buf) + Zeros(i)
    {
      b.U8(0);
    }
  }

  method WriteTrex(b: BoxBuilder, trackId: U32, isVideo: bool)
    modifies b
    ensures b.buf == old(b.buf) + Encode(Trex(trackId, isVideo))
  {
    hide BE;
    ghost var before := b.buf;
    var start := b.BeginFullBox(TREX, 0, 0);
    b.U32(trackId);
    b.U32(1);
    b.U32(0);
    b.U32(0);
    b.U32(if isVideo then NON_SYNC_SAMPLE else 0);
    EndLeaf(before, b.buf, Trex(trackId, isVideo));
    b.EndBox(start);
  }

  method WriteTkhd(b: BoxBuilder, t: Track)
    modifies b
    ensures b.buf == old(b.buf) + Encode(Tkhd(t))
  {
    hide BE, Shifted16, TkhdIds, FullBoxHeader, TkhdSize, TkhdPlacement, Encode, Size;
    ghost var before := b.buf;
    var start := WriteTkhdIds(b, t.trackId);
    ghost var header := b.buf;
    WriteTkhdPlacement(b, IsAudio(t));
    WriteTkhdSize(b, t.codec);
    EndLeaf(before, b.buf, Tkhd(t));
    b.EndBox(start);
  }

  method WriteTkhdIds(b: BoxBuilder, trackId: U32) returns (start: nat)
    modifies b
    ensures b.buf == old(b.buf) + BE(4, 0) + BE(4, TKHD) + TkhdIds(trackId)
    ensures start == |old(b.buf)|
  {
    hide BE, FullBoxHeader;
    start := b.BeginFullBox(TKHD, 1, 7);
    b.U64(0);
    b.U64(0);
    b.U32(trackId);
    b.U32(0);
    b.U64(0);
    b.U32(0);
    b.U32(0);
  }

  method WriteTkhdPlacement(b: BoxBuilder, isAudio: bool)
    modifies b
    ensures b.buf == old(b.buf) + TkhdPlacement(isAudio)
  {
    hide BE, Words;
    b.U16(0);
    b.U16(0);
    b.U16(if isAudio then 0x100 else 0);
    b.U16(0);
    WriteWords(b, IDENTITY);
  }

  method WriteTkhdSize(b: BoxBuilder, codec: CodecParameters)
    modifies b
    ensures b.buf == old(b.buf) + TkhdSize(codec)
  {
    hide BE, ToU32;
    if codec.Video? {
      b.U32(Shifted16(codec.width));
      b.U32(Shifted16(codec.height));
    } else {
      b.U32(0);
      b.U32(0);
    }
  }

  lemma SameLowBits(c: int, k: int)
    ensures (c + 32 * k) % 32 == c % 32
  {
  }

  /** Capitals become small letters before they are packed, which changes none of the packed bits. */
  lemma LetterBits(c: int)
    requires 0 <= c < 0x100
    ensures (c - 0x60) % 0x1_0000 % 32 == c % 32
    ensures (c - 0x41 + 0x61 - 0x60) % 0x1_0000 % 32 == c % 32
  {
    assert (c - 0x60) % 0x1_0000 == if c >= 0x60 then c + 32 * -3 else c + 32 * 2045;
    assert (c - 0x40) % 0x1_0000 == if c >= 0x40 then c + 32 * -2 else c + 32 * 2046;
    SameLowBits(c, -3);
    SameLowBits(c, 2045);
    SameLowBits(c, -2);
    SameLowBits(c, 2046);
  }

  method PackLanguage(language: seq<Byte>) returns (packed: U16)
    ensures packed == PackedLanguage(Some(language))
  {
    if |language| < 3 {
      return UNDETERMINED;
    }
    var v: int := 0;
    for i := 0 to 3
      invariant v == PackedLetters(language, i)
    {
      var c: int := language[i];
      LetterBits(c);
      assert PackedLetters(language, i + 1) == PackedLetters(language, i) * 32 + c % 32;
      hide PackedLetters;
      if 0x41 <= c <= 0x5A {
        c := c - 0x41 + 0x61;
      }
      var off := (c - 0x60) % 0x1_0000 % 32;
      v := (v * 32 + off) % 0x1_0000;
    }
    packed := v;
  }

  method WriteMdhd(b: BoxBuilder, t: Track)
    modifies b
    ensures b.buf == old(b.buf) + Encode(Mdhd(t))
  {
    hide BE;
    ghost var before := b.buf;
    var start := b.BeginFullBox(MDHD, 1, 0);
    b.U64(0);
    b.U64(0);
    b.U32(t.timescale);
    b.U64(0);
    var language := UNDETERMINED;
    if t.language.Some? {
      language := PackLanguage(t.language.value);
    }
    b.U16(language);
    b.U16(0);
    EndLeaf(before, b.buf, Mdhd(t));
    b.EndBox(start);
  }

  method WriteHdlr(b: BoxBuilder, t: Track)
    modifies b
    ensures b.buf == old(b.buf) + Encode(Hdlr(t))
  {
    hide BE, FullBoxHeader, Encode, Size, HandlerName, HandlerType;
    ghost var before := b.buf;
    var start := b.BeginFullBox(HDLR, 0, 0);
    b.U32(0);
    b.Type(HandlerType(t));
    b.U32(0);
    b.U32(0);
    b.U32(0);
    b.Append(HandlerName(t));
    EndLeaf(before, b.buf, Hdlr(t));
    b.EndBox(start);
  }

  method WriteVmhd(b: BoxBuilder)
    modifies b
    ensures b.buf == old(b.buf) + Encode(Vmhd())
  {
    hide BE;
    ghost var before := b.buf;
    var start := b.BeginFullBox(VMHD, 0, 1);
    b.U16(0);
    b.U16(0);
    b.U16(0);
    b.U16(0);
    EndLeaf(before, b.buf, Vmhd());
    b.EndBox(start);
  }

  method WriteSmhd(b: BoxBuilder)
    modifies b
    ensures b.buf == old(b.buf) + Encode(Smhd())
  {
    hide BE;
    ghost var before := b.buf;
    var start := b.BeginFullBox(SMHD, 0, 0);
    b.U16(0);
    b.U16(0);
    EndLeaf(before, b.buf, Smhd());
    b.EndBox(start);
  }

  method WriteDinf(b: BoxBuilder)
    modifies b
    ensures b.buf == old(b.buf) + Encode(Dinf())
  {
    hide BE, Encode, Size;
    ghost var before := b.buf;
    ghost var box := Dinf().children[0];
    var dinf := b.BeginBox(DINF);
    ghost var inDinf := b.buf;
    var dref := b.BeginFullBox(DREF, 0, 0);
    b.U32(1);
    ghost var inDref := b.buf;
    var url := b.BeginFullBox(URL_, 0, 1);
    EndLeaf(inDref, b.buf, Url());
    b.EndBox(url);
    Written([], Url(), [Url()]);
    EndTree(inDinf, b.buf, box);
    b.EndBox(dref);
    Written([], box, [box]);
    EndTree(before, b.buf, Dinf());
    b.EndBox(dinf);
  }

  method WriteCodecConfig(b: BoxBuilder, codec: CodecParameters)
    requires codec.Video?
    modifies b
    ensures b.buf == old(b.buf) + EncodeAll(ConfigBoxes(codec))
  {
    hide BE, Encode, Size;
    if |codec.extradata| == 0 || ConfigBoxType(codec).None? {
      assert b.buf == old(b.buf) + [];
      return;
    }
    ghost var before := b.buf;
    ghost var box := ConfigBoxes(codec)[0];
    var start := b.BeginBox(ConfigBoxType(codec).value);
    b.Append(codec.extradata);
    EndLeaf(before, b.buf, box);
    b.EndBox(start);
    Written([], box, [box]);
  }

  method WriteDescriptorHeader(b: BoxBuilder, tag: Byte, size: Byte)
    modifies b
    ensures b.buf == old(b.buf) + Descriptor(tag, size)
  {
    b.U8(tag);
    b.U8(0x80);
    b.U8(0x80);
    b.U8(0x80);
    b.U8(size);
  }

  method WriteDecoderConfigFields(b: BoxBuilder, bitRate: int)
    modifies b
    ensures b.buf == old(b.buf) + DecoderConfigFields(bitRate)
  {
    hide BE, BitRate;
    b.U8(0x40);
    b.U8(0x15);
    b.U24(0);
    b.U32(0);
    b.U32(BitRate(bitRate));
  }

  /** The ES descriptor up to the decoder specific info. */
  method WriteDecoderConfig(b: BoxBuilder, esSize: Byte, dcdSize: Byte, bitRate: int)
    modifies b
    ensures b.buf == old(b.buf) + DescriptorHead(esSize, dcdSize, bitRate)
  {
    hide BE, Descriptor, DecoderConfigFields;
    WriteDescriptorHeader(b, 3, esSize);
    b.U16(0);
    b.U8(0);
    WriteDescriptorHeader(b, 4, dcdSize);
    WriteDecoderConfigFields(b, bitRate);
  }

  method WriteDecoderSpecific(b: BoxBuilder, extradata: seq<Byte>)
    modifies b
    ensures b.buf == old(b.buf) + DecoderSpecific(extradata)
  {
    hide Descriptor;
    var dsiSize := ToU8(|extradata|);
    WriteDescriptorHeader(b, 5, dsiSize);
    if dsiSize > 0 {
      b.Append(extradata[..dsiSize]);
    }
  }

  method WriteSlConfig(b: BoxBuilder)
    modifies b
    ensures b.buf == old(b.buf) + (Descriptor(6, 1) + [2])
  {
    hide Descriptor;
    WriteDescriptorHeader(b, 6, 1);
    b.U8(2);
  }

  method WriteEsds(b: BoxBuilder, extradata: seq<Byte>, bitRate: int)
    modifies b
    ensures b.buf == old(b.buf) + Encode(Esds(extradata, bitRate))
  {
    hide BE, Descriptor, DescriptorHead, DecoderSpecific, FullBoxHeader, ToU8, Encode, Size;
    ghost var before := b.buf;
    var dsiSize := ToU8(|extradata|);
    var dcdSize := ToU8(13 + 5 + dsiSize as int);
    var esSize := ToU8(3 + 5 + dcdSize as int + 5 + 1);
    var start := b.BeginFullBox(ESDS, 0, 0);
    WriteDecoderConfig(b, esSize, dcdSize, bitRate);
    WriteDecoderSpecific(b, extradata);
    WriteSlConfig(b);
    EsdsBytes(before, extradata, bitRate);
    EndLeaf(before, b.buf, Esds(extradata, bitRate));
    b.EndBox(start);
  }

  lemma EsdsBytes(before: seq<Byte>, extradata: seq<Byte>, bitRate: int)
    ensures before + BE(4, 0) + BE(4, ESDS) + FullBoxHeader(0, 0)
            + DescriptorHead(EsSize(extradata), DcdSize(extradata), bitRate) + DecoderSpecific(extradata)
            + (Descriptor(6, 1) + [2])
         == before + BE(4, 0) + BE(4, ESDS) + Esds(extradata, bitRate).fields
  {
    hide BE, Descriptor, DescriptorHead, FullBoxHeader, EsSize, DcdSize, DecoderSpecific;
    var h, head := before + BE(4, 0) + BE(4, ESDS), DescriptorHead(EsSize(extradata), DcdSize(extradata), bitRate);
    Flat(h, FullBoxHeader(0, 0), head, DecoderSpecific(extradata), Descriptor(6, 1) + [2], []);
    assert Esds(extradata, bitRate).fields
        == FullBoxHeader(0, 0) + head + DecoderSpecific(extradata) + (Descriptor(6, 1) + [2]) + [];
  }

  /** A box of an unknown type has the same bytes whether or not its parts are told apart. */
  lemma EntryBytes(fourcc: FourCC, fields: seq<Byte>, children: seq<Box>)
    ensures Encode(Entry(fourcc, fields, children)) == Encode(Box(fourcc, fields, children))
  {
    hide BE, FieldsBeforeChildren;
    if FieldsBeforeChildren(fourcc).None? {
      var whole := Box(fourcc, fields + EncodeAll(children), []);
      assert Size(whole) == Size(Box(fourcc, fields, children));
      assert Encode(whole) == BE(4, Size(whole)) + BE(4, fourcc) + (fields + EncodeAll(children)) + [];
    }
  }

  method WriteEntryHead(b: BoxBuilder)
    modifies b
    ensures b.buf == old(b.buf) + EntryHead()
  {
    hide BE, Zeros;
    WriteZeros(b, 6);
    b.U16(1);
  }

  method WriteVisualSize(b: BoxBuilder, width: int, height: int)
    modifies b
    ensures b.buf == old(b.buf) + VisualSize(width, height)
  {
    hide BE, Zeros;
    b.U16(0);
    b.U16(0);
    WriteZeros(b, 12);
    b.U16(width % 0x1_0000);
    b.U16(height % 0x1_0000);
  }

  method WriteVisualRest(b: BoxBuilder)
    modifies b
    ensures b.buf == old(b.buf) + VisualRest()
  {
    hide BE, Zeros;
    b.U32(0x48_0000);
    b.U32(0x48_0000);
    b.U32(0);
    b.U16(1);
    b.U8(0);
    WriteZeros(b, 31);
    b.U16(0x18);
    b.U16(0xFFFF);
  }

  method WriteVideoSampleEntry(b: BoxBuilder, codec: CodecParameters)
    requires codec.Video?
    modifies b
    ensures b.buf == old(b.buf) + Encode(SampleEntry(codec))
  {
    hide BE, Encode, Size, EncodeAll, SizeAll, Entry, ConfigBoxes, EntryHead, VisualSize, VisualRest, SampleEntryType;
    ghost var before := b.buf;
    ghost var box := Box(SampleEntryType(codec), VisualFields(codec.width, codec.height), ConfigBoxes(codec));
    var start := b.BeginBox(SampleEntryType(codec));
    ghost var header := b.buf;
    WriteEntryHead(b);
    WriteVisualSize(b, codec.width, codec.height);
    WriteVisualRest(b);
    assert b.buf == header + VisualFields(codec.width, codec.height);
    WriteCodecConfig(b, codec);
    EndTree(before, b.buf, box);
    EntryBytes(box.fourcc, box.fields, box.children);
    b.EndBox(start);
  }

  method WriteSoundFields(b: BoxBuilder, channels: int, rate: int)
    modifies b
    ensures b.buf == old(b.buf) + SoundFields(channels, rate)
  {
    hide BE, EntryHead, ToU32, Shifted16;
    WriteEntryHead(b);
    b.U32(0);
    b.U32(0);
    var count := if channels > 0 then channels else 2;
    b.U16(count % 0x1_0000);
    b.U16(16);
    b.U16(0);
    b.U16(0);
    var sampleRate := if rate > 0 then ToU32(rate) else 48000;
    b.U32(Shifted16(sampleRate));
  }

  method WriteAudioSampleEntry(b: BoxBuilder, codec: CodecParameters)
    requires codec.Audio?
    modifies b
    ensures b.buf == old(b.buf) + Encode(SampleEntry(codec))
  {
    hide BE, Encode, Size, EncodeAll, SizeAll, Entry, Esds, SoundFields, SampleEntryType;
    ghost var before := b.buf;
    ghost var esds := Esds(codec.extradata, codec.bitRate);
    ghost var box := Box(SampleEntryType(codec), SoundFields(codec.channels, codec.sampleRate), [esds]);
    var start := b.BeginBox(SampleEntryType(codec));
    WriteSoundFields(b, codec.channels, codec.sampleRate);
    WriteEsds(b, codec.extradata, codec.bitRate);
    Written([], esds, [esds]);
    EndTree(before, b.buf, box);
    EntryBytes(box.fourcc, box.fields, box.children);
    b.EndBox(start);
  }

  method WriteStsd(b: BoxBuilder, t: Track)
    modifies b
    ensures b.buf == old(b.buf) + Encode(Stsd(t))
  {
    hide BE, Encode, Size, SampleEntry;
    ghost var before := b.buf;
    var start := b.BeginFullBox(STSD, 0, 0);
    b.U32(1);
    ghost var header := b.buf;
    if IsVideo(t) {
      WriteVideoSampleEntry(b, t.codec);
    } else if IsAudio(t) {
      WriteAudioSampleEntry(b, t.codec);
    }
    if !t.codec.Neither? {
      Written([], SampleEntry(t.codec), [SampleEntry(t.codec)]);
    }
    assert b.buf == header + EncodeAll(Stsd(t).children);
    EndTree(before, b.buf, Stsd(t));
    b.EndBox(start);
  }

  method WriteEmpty(b: BoxBuilder, fourcc: FourCC)
    modifies b
    ensures b.buf == old(b.buf) + Encode(Empty(fourcc))
  {
    hide BE;
    ghost var before := b.buf;
    var start := b.BeginFullBox(fourcc, 0, 0);
    b.U32(0);
    EndLeaf(before, b.buf, Empty(fourcc));
    b.EndBox(start);
  }

  method WriteStsz(b: BoxBuilder)
    modifies b
    ensures b.buf == old(b.buf) + Encode(Stsz())
  {
    hide BE;
    ghost var before := b.buf;
    var start := b.BeginFullBox(STSZ, 0, 0);
    b.U32(0);
    b.U32(0);
    EndLeaf(before, b.buf, Stsz());
    b.EndBox(start);
  }

  method WriteStbl(b: BoxBuilder, t: Track)
    modifies b
    ensures b.buf == old(b.buf) + Encode(Stbl(t))
  {
    hide BE, Encode, Size, EncodeAll, SizeAll, Stsd, Empty, Stsz;
    ghost var before := b.buf;
    var start := b.BeginBox(STBL);
    ghost var header := b.buf;
    WriteStsd(b, t);
    WriteEmpty(b, STTS);
    WriteEmpty(b, STSC);
    WriteStsz(b);
    WriteEmpty(b, STCO);
    FiveWritten(header, Stsd(t), Empty(STTS), Empty(STSC), Stsz(), Empty(STCO));
    assert b.buf == header + EncodeAll(Stbl(t).children);
    EndTree(before, b.buf, Stbl(t));
    b.EndBox(start);
  }

  lemma FiveWritten(header: seq<Byte>, a: Box, b: Box, c: Box, d: Box, e: Box)
    ensures header + Encode(a) + Encode(b) + Encode(c) + Encode(d) + Encode(e) == header + EncodeAll([a, b, c, d, e])
  {
    hide *;
    Flat(header, Encode(a), Encode(b), Encode(c), Encode(d), Encode(e));
    Written([], a, [a]);
    Written([a], b, [a, b]);
    Written([a, b], c, [a, b, c]);
    Written([a, b, c], d, [a, b, c, d]);
    Written([a, b, c, d], e, [a, b, c, d, e]);
  }

  method WriteMinf(b: BoxBuilder, t: Track)
    modifies b
    ensures b.buf == old(b.buf) + Encode(Minf(t))
  {
    hide BE, Encode, Size, EncodeAll, SizeAll, Vmhd, Smhd, Dinf, Stbl;
    ghost var before := b.buf;
    var start := b.BeginBox(MINF);
    ghost var header := b.buf;
    if IsVideo(t) {
      WriteVmhd(b);
      Written([], Vmhd(), [Vmhd()]);
    } else if IsAudio(t) {
      WriteSmhd(b);
      Written([], Smhd(), [Smhd()]);
    }
    NothingWritten(header);
    assert b.buf == header + EncodeAll(MediaHeaders(t));
    WriteDinf(b);
    Written(MediaHeaders(t), Dinf(), MediaHeaders(t) + [Dinf()]);
    WriteStbl(b, t);
    Written(MediaHeaders(t) + [Dinf()], Stbl(t), Minf(t).children);
    EndTree(before, b.buf, Minf(t));
    b.EndBox(start);
  }

  method WriteMdia(b: BoxBuilder, t: Track)
    modifies b
    ensures b.buf == old(b.buf) + Encode(Mdia(t))
  {
    hide BE, Encode, Size, EncodeAll, SizeAll, Mdhd, Hdlr, Minf;
    ghost var before := b.buf;
    var start := b.BeginBox(MDIA);
    WriteMdhd(b, t);
    Written([], Mdhd(t), [Mdhd(t)]);
    WriteHdlr(b, t);
    Written([Mdhd(t)], Hdlr(t), [Mdhd(t), Hdlr(t)]);
    WriteMinf(b, t);
    Written([Mdhd(t), Hdlr(t)], Minf(t), [Mdhd(t), Hdlr(t), Minf(t)]);
    EndTree(before, b.buf, Mdia(t));
    b.EndBox(start);
  }

  method WriteEdtsForPriming(b: BoxBuilder, t: Track)
    requires IsAudio(t)
    modifies b
    ensures b.buf == old(b.buf) + EncodeAll(Edits(t))
  {
    hide BE, Encode, Size, ToU64;
    if t.initialPadding <= 0 {
      assert b.buf == old(b.buf) + [];
      return;
    }
    ghost var before := b.buf;
    var edts := b.BeginBox(EDTS);
    ghost var inEdts := b.buf;
    var elst := b.BeginFullBox(ELST, 1, 0);
    b.U32(1);
    b.U64(0);
    b.S64(t.initialPadding);
    b.U16(1);
    b.U16(0);
    EndLeaf(inEdts, b.buf, Elst(t.initialPadding));
    b.EndBox(elst);
    Written([], Elst(t.initialPadding), [Elst(t.initialPadding)]);
    EndTree(before, b.buf, Edts(t.initialPadding));
    b.EndBox(edts);
    Written([], Edts(t.initialPadding), [Edts(t.initialPadding)]);
  }

  method WriteTrak(b: BoxBuilder, t: Track)
    modifies b
    ensures b.buf == old(b.buf) + Encode(Trak(t))
  {
    hide BE, Encode, Size, EncodeAll, SizeAll, Tkhd, Mdia, Edits;
    ghost var before := b.buf;
    var start := b.BeginBox(TRAK);
    ghost var header := b.buf;
    WriteTkhd(b, t);
    NoEdits(header + Encode(Tkhd(t)), t);
    if IsAudio(t) {
      WriteEdtsForPriming(b, t);
    }
    WriteMdia(b, t);
    TrakChildren(header, t);
    EndTree(before, b.buf, Trak(t));
    b.EndBox(start);
  }

  lemma NoEdits(written: seq<Byte>, t: Track)
    ensures !IsAudio(t) ==> written + EncodeAll(Edits(t)) == written
  {
  }

  lemma TrakChildren(header: seq<Byte>, t: Track)
    ensures header + Encode(Tkhd(t)) + EncodeAll(Edits(t)) + Encode(Mdia(t)) == header + EncodeAll(Trak(t).children)
  {
    hide Encode, EncodeAll, Edits, Tkhd, Mdia, Size, SizeAll;
    var tkhd, edits, mdia := Tkhd(t), Edits(t), Mdia(t);
    Written([], tkhd, [tkhd]);
    EncodeAllConcat([tkhd], edits);
    Written([tkhd] + edits, mdia, Trak(t).children);
    Associate(header, Encode(tkhd), EncodeAll(edits), Encode(mdia));
  }

  method WriteMvex(b: BoxBuilder, tracks: seq<Track>)
    modifies b
    ensures b.buf == old(b.buf) + Encode(Box(MVEX, [], Trexs(tracks)))
  {
    hide BE, Encode, Size, EncodeAll, SizeAll, Trex;
    ghost var before := b.buf;
    var mvex := b.BeginBox(MVEX);
    ghost var header := b.buf;
    NothingWritten(header);
    assert Trexs(tracks[..0]) == [];
    for i := 0 to |tracks|
      invariant b.buf == header + EncodeAll(Trexs(tracks[..i]))
    {
      WriteTrex(b, tracks[i].trackId, IsVideo(tracks[i]));
      Written(Trexs(tracks[..i]), Trex(tracks[i].trackId, IsVideo(tracks[i])), Trexs(tracks[..i + 1]));
    }
    assert tracks[..|tracks|] == tracks;
    EndTree(before, b.buf, Box(MVEX, [], Trexs(tracks)));
    b.EndBox(mvex);
  }

  method WriteMoov(b: BoxBuilder, tracks: seq<Track>)
    modifies b
    ensures b.buf == old(b.buf) + Encode(Moov(tracks))
  {
    hide BE, Encode, Size, EncodeAll, SizeAll, Trak, Mvhd, Trexs, ToU32;
    ghost var before := b.buf;
    var start := b.BeginBox(MOOV);
    ghost var header := b.buf;
    var maxId: U32 := 0;
    for i := 0 to |tracks|
      invariant maxId == MaxTrackId(tracks[..i])
    {
      assert tracks[..i + 1][..i] == tracks[..i];
      if maxId < tracks[i].trackId {
        maxId := tracks[i].trackId;
      }
    }
    assert tracks[..|tracks|] == tracks;
    ghost var mvhd, mvex := Mvhd(ToU32(maxId + 1)), Box(MVEX, [], Trexs(tracks));
    WriteMvhd(b, ToU32(maxId + 1));
    Written([], mvhd, [mvhd]);
    WriteMvex(b, tracks);
    Written([mvhd], mvex, [mvhd, mvex]);
    assert [mvhd, mvex] + Traks(tracks[..0]) == [mvhd, mvex];
    for i := 0 to |tracks|
      invariant b.buf == header + EncodeAll([mvhd, mvex] + Traks(tracks[..i]))
    {
      WriteTrak(b, tracks[i]);
      Written([mvhd, mvex] + Traks(tracks[..i]), Trak(tracks[i]), [mvhd, mvex] + Traks(tracks[..i + 1]));
    }
    EndTree(before, b.buf, Moov(tracks));
    b.EndBox(start);
  }

  /** Every init segment is the bytes of its tree of boxes. */
  method BuildInit(tracks: seq<Track>) returns (r: Result<seq<Byte>, string>)
    ensures tracks == [] ==> r.Err?
    ensures tracks != [] ==> r == Ok(InitBytes(tracks))
  {
    hide BE, Encode, Size, EncodeAll, SizeAll, Ftyp, Moov;
    if |tracks| == 0 {
      return Err("Fmp4Writer::BuildInit: no tracks");
    }
    var b := new BoxBuilder();
    WriteFtyp(b);
    Written([], Ftyp(), [Ftyp()]);
    WriteMoov(b, tracks);
    Written([Ftyp()], Moov(tracks), [Ftyp(), Moov(tracks)]);
    var bytes := b.Take();
    return Ok(bytes);
  }
}
