/** The init segment that tests/test_init_roundtrip.cpp builds, byte for byte as in test_init.mp4, and an audio track. */
module GoldenInit {
  import opened Bytes
  import opened Wrappers
  import opened BoxTree
  import opened BoxBuilding
  import opened Tracks
  import opened InitLayout
  import opened FieldBytes

  // ---- the video track ----

  /** The avcC record of the test. */
  const AVC_RECORD: seq<Byte> :=
    [0x01, 0x42, 0x00, 0x1F, 0xFF, 0xE1, 0x00, 0x09, 0x67, 0x42, 0x00, 0x1E]
    + [0x99, 0x9A, 0x14, 0x01, 0x6E, 0x01, 0x00, 0x04, 0x68, 0xCE, 0x3C, 0x80]

  function TestTrack(): Track {
    Track(1, 16000, Video(H264, 1280, 720, AVC_RECORD), Some([0x75, 0x6E, 0x64]), 0)
  }

  const MATRIX: seq<Byte> :=
    [0, 1, 0, 0] + Zeros(4) + Zeros(4) + Zeros(4) + [0, 1, 0, 0] + Zeros(4) + Zeros(4) + Zeros(4) + [0x40, 0, 0, 0]

  lemma WordsUpTo(words: seq<U32>, n: nat)
    requires n < |words|
    ensures Words(words[..n + 1]) == Words(words[..n]) + BE(4, words[n])
  {
    hide BE;
    assert words[..n + 1][..n] == words[..n];
  }

  lemma NoWords()
    ensures Words([]) == []
  {
  }

  lemma MatrixBytes()
    ensures Words(IDENTITY) == MATRIX
  {
    hide BE, Words, Zeros;
    NoBytes(4);
    Four(0x1_0000, 0, 1, 0, 0);
    Four(0x4000_0000, 0x40, 0, 0, 0);
    NoWords();
    assert IDENTITY[..0] == [] && IDENTITY[..9] == IDENTITY;
    WordsUpTo(IDENTITY, 0);
    WordsUpTo(IDENTITY, 1);
    WordsUpTo(IDENTITY, 2);
    WordsUpTo(IDENTITY, 3);
    WordsUpTo(IDENTITY, 4);
    WordsUpTo(IDENTITY, 5);
    WordsUpTo(IDENTITY, 6);
    WordsUpTo(IDENTITY, 7);
    WordsUpTo(IDENTITY, 8);
    assert [] + [0, 1, 0, 0] == [0, 1, 0, 0];
  }

  const FTYP_BYTES: seq<Byte> :=
    [0, 0, 0, 0x1C] + [0x66, 0x74, 0x79, 0x70]
    + ([0x69, 0x73, 0x6F, 0x36] + [0, 0, 0, 1] + [0x69, 0x73, 0x6F, 0x36]
       + [0x69, 0x73, 0x6F, 0x35] + [0x64, 0x61, 0x73, 0x68])

  lemma FtypBytes()
    ensures Encode(Ftyp()) == FTYP_BYTES && |FTYP_BYTES| == 28
  {
    hide BE, Encode;
    Four(28, 0, 0, 0, 28);
    Four(FTYP, 0x66, 0x74, 0x79, 0x70);
    Four(ISO6, 0x69, 0x73, 0x6F, 0x36);
    Four(1, 0, 0, 0, 1);
    Four(ISO5, 0x69, 0x73, 0x6F, 0x35);
    Four(DASH, 0x64, 0x61, 0x73, 0x68);
    LeafBytes(FTYP, Ftyp().fields);
  }

  const MVHD_BYTES: seq<Byte> :=
    [0, 0, 0, 0x78] + [0x6D, 0x76, 0x68, 0x64] + ([1, 0, 0, 0] + Zeros(8) + Zeros(8) + [0, 0, 0x03, 0xE8]
    + Zeros(8) + [0, 1, 0, 0] + [1, 0] + Zeros(2) + Zeros(4) + Zeros(4) + MATRIX + Zeros(24) + [0, 0, 0, 2])

  const TREX_BYTES: seq<Byte> :=
    [0, 0, 0, 0x20] + [0x74, 0x72, 0x65, 0x78] + ([0, 0, 0, 0] + [0, 0, 0, 1] + [0, 0, 0, 1] + Zeros(4)
    + Zeros(4) + [1, 1, 0, 0])

  const TKHD_BYTES: seq<Byte> :=
    [0, 0, 0, 0x68] + [0x74, 0x6B, 0x68, 0x64] + (([1, 0, 0, 7] + Zeros(8) + Zeros(8) + [0, 0, 0, 1] + Zeros(4)
    + Zeros(8) + Zeros(4) + Zeros(4)) + (Zeros(2) + Zeros(2) + Zeros(2) + Zeros(2) + MATRIX) + ([5, 0, 0, 0]
    + [2, 0xD0, 0, 0]))

  lemma HeadBytes()
    ensures Encode(Mvhd(2)) == MVHD_BYTES && |MVHD_BYTES| == 120
    ensures Encode(Trex(1, true)) == TREX_BYTES && |TREX_BYTES| == 32
    ensures Encode(Tkhd(TestTrack())) == TKHD_BYTES && |TKHD_BYTES| == 104
  {
    hide BE, Zeros, Words, FullBoxHeader, Encode, MATRIX;
    MatrixBytes();
    NoBytes(8);
    NoBytes(4);
    NoBytes(2);
    Full(1, 0);
    Four(1000, 0, 0, 3, 0xE8);
    Four(0x1_0000, 0, 1, 0, 0);
    Two(0x100, 1, 0);
    Four(2, 0, 0, 0, 2);
    Four(120, 0, 0, 0, 0x78);
    Four(MVHD, 0x6D, 0x76, 0x68, 0x64);
    LeafBytes(MVHD, Mvhd(2).fields);
    Full(0, 0);
    Four(1, 0, 0, 0, 1);
    Four(0x0101_0000, 1, 1, 0, 0);
    Four(32, 0, 0, 0, 0x20);
    Four(TREX, 0x74, 0x72, 0x65, 0x78);
    LeafBytes(TREX, Trex(1, true).fields);
    Full(1, 7);
    Four(0x0500_0000, 5, 0, 0, 0);
    Four(0x02D0_0000, 2, 0xD0, 0, 0);
    Four(104, 0, 0, 0, 0x68);
    Four(TKHD, 0x74, 0x6B, 0x68, 0x64);
    LeafBytes(TKHD, Tkhd(TestTrack()).fields);
  }

  const MDHD_BYTES: seq<Byte> :=
    [0, 0, 0, 0x2C] + [0x6D, 0x64, 0x68, 0x64] + ([1, 0, 0, 0] + Zeros(8) + Zeros(8) + [0, 0, 0x3E, 0x80]
    + Zeros(8) + [0x55, 0xC4] + Zeros(2))

  lemma Letters()
    ensures PackedLanguage(TestTrack().language) == 0x55C4
  {
    assert PackedLetters([0x75, 0x6E, 0x64], 1) == 21;
    assert PackedLetters([0x75, 0x6E, 0x64], 2) == 21 * 32 + 14;
  }

  const HDLR_BYTES: seq<Byte> :=
    [0, 0, 0, 0x2D] + [0x68, 0x64, 0x6C, 0x72] + ([0, 0, 0, 0] + Zeros(4) + [0x76, 0x69, 0x64, 0x65] + Zeros(4)
    + Zeros(4) + Zeros(4) + [0x56, 0x69, 0x64, 0x65, 0x6F, 0x48, 0x61, 0x6E, 0x64, 0x6C, 0x65, 0x72, 0])

  const VMHD_BYTES: seq<Byte> :=
    [0, 0, 0, 0x14] + [0x76, 0x6D, 0x68, 0x64] + ([0, 0, 0, 1] + Zeros(2) + Zeros(2) + Zeros(2) + Zeros(2))

  const URL_BYTES: seq<Byte> :=
    [0, 0, 0, 0x0C] + [0x75, 0x72, 0x6C, 0x20] + [0, 0, 0, 1]

  lemma MediaHeadBytes()
    ensures Encode(Mdhd(TestTrack())) == MDHD_BYTES && |MDHD_BYTES| == 44
    ensures Encode(Hdlr(TestTrack())) == HDLR_BYTES && |HDLR_BYTES| == 45
    ensures Encode(Vmhd()) == VMHD_BYTES && |VMHD_BYTES| == 20
    ensures Encode(Url()) == URL_BYTES && |URL_BYTES| == 12
  {
    hide BE, Zeros, Words, FullBoxHeader, Encode, MATRIX, PackedLanguage;
    Letters();
    NoBytes(8);
    NoBytes(2);
    Full(1, 0);
    Four(16000, 0, 0, 0x3E, 0x80);
    Two(0x55C4, 0x55, 0xC4);
    Four(44, 0, 0, 0, 0x2C);
    Four(MDHD, 0x6D, 0x64, 0x68, 0x64);
    LeafBytes(MDHD, Mdhd(TestTrack()).fields);
    NoBytes(4);
    Full(0, 0);
    Four(VIDE, 0x76, 0x69, 0x64, 0x65);
    Four(45, 0, 0, 0, 0x2D);
    Four(HDLR, 0x68, 0x64, 0x6C, 0x72);
    LeafBytes(HDLR, Hdlr(TestTrack()).fields);
    Full(0, 1);
    Four(20, 0, 0, 0, 0x14);
    Four(VMHD, 0x76, 0x6D, 0x68, 0x64);
    LeafBytes(VMHD, Vmhd().fields);
    Four(12, 0, 0, 0, 0x0C);
    Four(URL_, 0x75, 0x72, 0x6C, 0x20);
    LeafBytes(URL_, Url().fields);
  }

  const DREF_BYTES: seq<Byte> :=
    [0, 0, 0, 0x1C] + [0x64, 0x72, 0x65, 0x66] + ([0, 0, 0, 0] + [0, 0, 0, 1]) + URL_BYTES

  const DINF_BYTES: seq<Byte> := [0, 0, 0, 0x24] + [0x64, 0x69, 0x6E, 0x66] + [] + DREF_BYTES

  lemma DinfBytes()
    ensures Encode(Dinf()) == DINF_BYTES && |DINF_BYTES| == 36
  {
    hide BE, FullBoxHeader, Encode, EncodeAll, Url;
    MediaHeadBytes();
    Full(0, 0);
    Four(1, 0, 0, 0, 1);
    Four(28, 0, 0, 0, 0x1C);
    Four(36, 0, 0, 0, 0x24);
    Four(DREF, 0x64, 0x72, 0x65, 0x66);
    Four(DINF, 0x64, 0x69, 0x6E, 0x66);
    var dref := Dinf().children[0];
    BoxesOf1(Url());
    NodeBytes(DREF, dref.fields, [Url()]);
    BoxesOf1(dref);
    NodeBytes(DINF, [], [dref]);
  }

  const AVCC_BYTES: seq<Byte> :=
    [0, 0, 0, 0x20] + [0x61, 0x76, 0x63, 0x43] + AVC_RECORD

  const AVC1_BYTES: seq<Byte> :=
    [0, 0, 0, 0x76] + [0x61, 0x76, 0x63, 0x31] + (Zeros(6) + [0, 1]) + (Zeros(2) + Zeros(2) + Zeros(12) + [5, 0]
    + [2, 0xD0]) + ([0, 0x48, 0, 0] + [0, 0x48, 0, 0] + Zeros(4) + [0, 1] + [0] + Zeros(31) + [0, 0x18]
    + [0xFF, 0xFF]) + AVCC_BYTES

  lemma EntryIs()
    ensures SampleEntry(TestTrack().codec) == Box(AVC1, VisualFields(1280, 720), [Box(AVCC, AVC_RECORD, [])])
  {
    hide VisualFields;
    assert |AVC_RECORD| == 24;
  }

  const STSD_BYTES: seq<Byte> :=
    [0, 0, 0, 0x86] + [0x73, 0x74, 0x73, 0x64] + ([0, 0, 0, 0] + [0, 0, 0, 1]) + AVC1_BYTES

  lemma SampleEntryBytes()
    ensures Encode(SampleEntry(TestTrack().codec)) == AVC1_BYTES && |AVC1_BYTES| == 118
    ensures Encode(Stsd(TestTrack())) == STSD_BYTES && |STSD_BYTES| == 134
  {
    hide BE, Zeros, Words, FullBoxHeader, Encode, EncodeAll, AVCC_BYTES;
    TableBytes();
    EntryIs();
    NoBytes(2);
    NoBytes(4);
    Two(1, 0, 1);
    Two(1280, 5, 0);
    Two(720, 2, 0xD0);
    Four(0x48_0000, 0, 0x48, 0, 0);
    Two(0x18, 0, 0x18);
    Two(0xFFFF, 0xFF, 0xFF);
    Four(118, 0, 0, 0, 0x76);
    Four(AVC1, 0x61, 0x76, 0x63, 0x31);
    assert SampleEntry(TestTrack().codec).children == [Box(AVCC, AVC_RECORD, [])];
    BoxesOf1(Box(AVCC, AVC_RECORD, []));
    NodeBytes(AVC1, SampleEntry(TestTrack().codec).fields, SampleEntry(TestTrack().codec).children);
    Full(0, 0);
    Four(1, 0, 0, 0, 1);
    Four(134, 0, 0, 0, 0x86);
    Four(STSD, 0x73, 0x74, 0x73, 0x64);
    assert Stsd(TestTrack()).children == [SampleEntry(TestTrack().codec)];
    BoxesOf1(SampleEntry(TestTrack().codec));
    NodeBytes(STSD, Stsd(TestTrack()).fields, Stsd(TestTrack()).children);
  }

  const STTS_BYTES: seq<Byte> :=
    [0, 0, 0, 0x10] + [0x73, 0x74, 0x74, 0x73] + ([0, 0, 0, 0] + Zeros(4))

  const STSC_BYTES: seq<Byte> :=
    [0, 0, 0, 0x10] + [0x73, 0x74, 0x73, 0x63] + ([0, 0, 0, 0] + Zeros(4))

  const STCO_BYTES: seq<Byte> :=
    [0, 0, 0, 0x10] + [0x73, 0x74, 0x63, 0x6F] + ([0, 0, 0, 0] + Zeros(4))

  const STSZ_BYTES: seq<Byte> :=
    [0, 0, 0, 0x14] + [0x73, 0x74, 0x73, 0x7A] + ([0, 0, 0, 0] + Zeros(4) + Zeros(4))

  lemma TableBytes()
    ensures Encode(Box(AVCC, AVC_RECORD, [])) == AVCC_BYTES && |AVCC_BYTES| == 32
    ensures Encode(Empty(STTS)) == STTS_BYTES && |STTS_BYTES| == 16
    ensures Encode(Empty(STSC)) == STSC_BYTES && |STSC_BYTES| == 16
    ensures Encode(Empty(STCO)) == STCO_BYTES && |STCO_BYTES| == 16
    ensures Encode(Stsz()) == STSZ_BYTES && |STSZ_BYTES| == 20
  {
    hide BE, Zeros, Words, FullBoxHeader, Encode, MATRIX;
    Four(32, 0, 0, 0, 0x20);
    Four(AVCC, 0x61, 0x76, 0x63, 0x43);
    LeafBytes(AVCC, Box(AVCC, AVC_RECORD, []).fields);
    NoBytes(4);
    Full(0, 0);
    Four(16, 0, 0, 0, 0x10);
    Four(STTS, 0x73, 0x74, 0x74, 0x73);
    LeafBytes(STTS, Empty(STTS).fields);
    Four(STSC, 0x73, 0x74, 0x73, 0x63);
    LeafBytes(STSC, Empty(STSC).fields);
    Four(STCO, 0x73, 0x74, 0x63, 0x6F);
    LeafBytes(STCO, Empty(STCO).fields);
    Four(20, 0, 0, 0, 0x14);
    Four(STSZ, 0x73, 0x74, 0x73, 0x7A);
    LeafBytes(STSZ, Stsz().fields);
  }

  const STBL_BYTES: seq<Byte> :=
    [0, 0, 0, 0xD2] + [0x73, 0x74, 0x62, 0x6C] + [] + (STSD_BYTES + STTS_BYTES + STSC_BYTES + STSZ_BYTES
    + STCO_BYTES)

  lemma TableListBytes()
    ensures Encode(Stbl(TestTrack())) == STBL_BYTES && |STBL_BYTES| == 210
  {
    hide BE, Zeros, Words, FullBoxHeader, Encode, EncodeAll, Stsd, Empty, Stsz, STSD_BYTES, STTS_BYTES, STSC_BYTES,
         STSZ_BYTES, STCO_BYTES;
    SampleEntryBytes();
    TableBytes();
    Four(210, 0, 0, 0, 0xD2);
    Four(STBL, 0x73, 0x74, 0x62, 0x6C);
    assert Stbl(TestTrack()).children == [Stsd(TestTrack()), Empty(STTS), Empty(STSC), Stsz(), Empty(STCO)];
    BoxesOf5(Stsd(TestTrack()), Empty(STTS), Empty(STSC), Stsz(), Empty(STCO));
    NodeBytes(STBL, Stbl(TestTrack()).fields, Stbl(TestTrack()).children);
  }

  const MINF_BYTES: seq<Byte> :=
    [0, 0, 1, 0x12] + [0x6D, 0x69, 0x6E, 0x66] + [] + (VMHD_BYTES + DINF_BYTES + STBL_BYTES)

  const MDIA_BYTES: seq<Byte> :=
    [0, 0, 1, 0x73] + [0x6D, 0x64, 0x69, 0x61] + [] + (MDHD_BYTES + HDLR_BYTES + MINF_BYTES)

  lemma MediaBytes()
    ensures Encode(Minf(TestTrack())) == MINF_BYTES && |MINF_BYTES| == 274
    ensures Encode(Mdia(TestTrack())) == MDIA_BYTES && |MDIA_BYTES| == 371
  {
    hide BE, Zeros, Words, FullBoxHeader, Encode, EncodeAll, Stbl, Dinf, Vmhd, Mdhd, Hdlr, VMHD_BYTES, DINF_BYTES,
         STBL_BYTES, MDHD_BYTES, HDLR_BYTES;
    TableListBytes();
    MediaHeadBytes();
    DinfBytes();
    Four(274, 0, 0, 1, 0x12);
    Four(MINF, 0x6D, 0x69, 0x6E, 0x66);
    assert Minf(TestTrack()).children == [Vmhd(), Dinf(), Stbl(TestTrack())];
    BoxesOf3(Vmhd(), Dinf(), Stbl(TestTrack()));
    NodeBytes(MINF, Minf(TestTrack()).fields, Minf(TestTrack()).children);
    Four(371, 0, 0, 1, 0x73);
    Four(MDIA, 0x6D, 0x64, 0x69, 0x61);
    assert Mdia(TestTrack()).children == [Mdhd(TestTrack()), Hdlr(TestTrack()), Minf(TestTrack())];
    BoxesOf3(Mdhd(TestTrack()), Hdlr(TestTrack()), Minf(TestTrack()));
    NodeBytes(MDIA, Mdia(TestTrack()).fields, Mdia(TestTrack()).children);
  }

  const TRAK_BYTES: seq<Byte> :=
    [0, 0, 1, 0xE3] + [0x74, 0x72, 0x61, 0x6B] + [] + (TKHD_BYTES + MDIA_BYTES)

  lemma TraksAre()
    ensures Trak(TestTrack()) == Box(TRAK, [], [Tkhd(TestTrack()), Mdia(TestTrack())])
    ensures Trak(SoundTrack()) == Box(TRAK, [], [Tkhd(SoundTrack()), Edts(1024), Mdia(SoundTrack())])
  {
    hide Tkhd, Mdia, Edts;
  }

  lemma TrackBytes()
    ensures Encode(Trak(TestTrack())) == TRAK_BYTES && |TRAK_BYTES| == 483
  {
    hide BE, Zeros, Words, FullBoxHeader, Encode, EncodeAll, Trak, Tkhd, Mdia, TKHD_BYTES, MDIA_BYTES;
    HeadBytes();
    MediaBytes();
    TraksAre();
    Four(483, 0, 0, 1, 0xE3);
    Four(TRAK, 0x74, 0x72, 0x61, 0x6B);
    assert Trak(TestTrack()).children == [Tkhd(TestTrack()), Mdia(TestTrack())];
    BoxesOf2(Tkhd(TestTrack()), Mdia(TestTrack()));
    NodeBytes(TRAK, Trak(TestTrack()).fields, Trak(TestTrack()).children);
  }

  const MVEX_BYTES: seq<Byte> :=
    [0, 0, 0, 0x28] + [0x6D, 0x76, 0x65, 0x78] + [] + TREX_BYTES

  const MOOV_BYTES: seq<Byte> :=
    [0, 0, 2, 0x8B] + [0x6D, 0x6F, 0x6F, 0x76] + [] + (MVHD_BYTES + MVEX_BYTES + TRAK_BYTES)

  lemma MovieBytes()
    ensures Encode(Box(MVEX, [], [Trex(1, true)])) == MVEX_BYTES && |MVEX_BYTES| == 40
    ensures Encode(Moov([TestTrack()])) == MOOV_BYTES && |MOOV_BYTES| == 651
  {
    hide BE, Zeros, Words, FullBoxHeader, Encode, EncodeAll, Trex, Mvhd, Trak, Moov, TREX_BYTES, MVHD_BYTES,
         TRAK_BYTES;
    HeadBytes();
    TrackBytes();
    MoovIs();
    Four(40, 0, 0, 0, 0x28);
    Four(MVEX, 0x6D, 0x76, 0x65, 0x78);
    assert Box(MVEX, [], [Trex(1, true)]).children == [Trex(1, true)];
    BoxesOf1(Trex(1, true));
    NodeBytes(MVEX, Box(MVEX, [], [Trex(1, true)]).fields, Box(MVEX, [], [Trex(1, true)]).children);
    Four(651, 0, 0, 2, 0x8B);
    Four(MOOV, 0x6D, 0x6F, 0x6F, 0x76);
    assert Moov([TestTrack()]).children == [Mvhd(2), Box(MVEX, [], [Trex(1, true)]), Trak(TestTrack())];
    BoxesOf3(Mvhd(2), Box(MVEX, [], [Trex(1, true)]), Trak(TestTrack()));
    NodeBytes(MOOV, Moov([TestTrack()]).fields, Moov([TestTrack()]).children);
  }

  lemma MoovIs()
    ensures Moov([TestTrack()]) == Box(MOOV, [], [Mvhd(2), Box(MVEX, [], [Trex(1, true)]), Trak(TestTrack())])
  {
    hide Mvhd, Trex, Trak;
    assert MaxTrackId([TestTrack()]) == 1;
    assert Trexs([TestTrack()]) == [Trex(1, true)] && Traks([TestTrack()]) == [Trak(TestTrack())];
  }

  /** The file test_init.mp4: for the track of the test, the init segment is these 679 bytes. */
  lemma InitOfTest()
    ensures InitBytes([TestTrack()]) == FTYP_BYTES + MOOV_BYTES
    ensures |FTYP_BYTES + MOOV_BYTES| == 679
  {
    hide Ftyp, Moov, Encode, EncodeAll, FTYP_BYTES, MOOV_BYTES;
    FtypBytes();
    MovieBytes();
    BoxesOf2(Ftyp(), Moov([TestTrack()]));
  }

  // ---- an audio track ----

  /** AAC-LC, 48 kHz, stereo, 128 kbit/s, with 1024 samples of priming. */
  function SoundTrack(): Track {
    Track(2, 48000, Audio(AAC, 2, 48000, 128000, [0x11, 0x90]), None, 1024)
  }

  const SOUND_TREX_BYTES: seq<Byte> :=
    [0, 0, 0, 0x20] + [0x74, 0x72, 0x65, 0x78] + ([0, 0, 0, 0] + [0, 0, 0, 2] + [0, 0, 0, 1] + Zeros(4)
    + Zeros(4) + Zeros(4))

  const SOUND_TKHD_BYTES: seq<Byte> :=
    [0, 0, 0, 0x68] + [0x74, 0x6B, 0x68, 0x64] + (([1, 0, 0, 7] + Zeros(8) + Zeros(8) + [0, 0, 0, 2] + Zeros(4)
    + Zeros(8) + Zeros(4) + Zeros(4)) + (Zeros(2) + Zeros(2) + [1, 0] + Zeros(2) + MATRIX) + (Zeros(4)
    + Zeros(4)))

  const ELST_BYTES: seq<Byte> :=
    [0, 0, 0, 0x24] + [0x65, 0x6C, 0x73, 0x74] + ([1, 0, 0, 0] + [0, 0, 0, 1] + Zeros(8)
    + [0, 0, 0, 0, 0, 0, 4, 0] + [0, 1] + Zeros(2))

  lemma SoundHeadBytes()
    ensures Encode(Trex(2, false)) == SOUND_TREX_BYTES && |SOUND_TREX_BYTES| == 32
    ensures Encode(Tkhd(SoundTrack())) == SOUND_TKHD_BYTES && |SOUND_TKHD_BYTES| == 104
    ensures Encode(Elst(1024)) == ELST_BYTES && |ELST_BYTES| == 36
  {
    hide BE, Zeros, Words, FullBoxHeader, Encode, MATRIX;
    Priming();
    NoBytes(4);
    Full(0, 0);
    Four(1, 0, 0, 0, 1);
    Four(2, 0, 0, 0, 2);
    Four(32, 0, 0, 0, 0x20);
    Four(TREX, 0x74, 0x72, 0x65, 0x78);
    LeafBytes(TREX, Trex(2, false).fields);
    MatrixBytes();
    NoBytes(8);
    NoBytes(2);
    Full(1, 7);
    Two(0x100, 1, 0);
    Four(104, 0, 0, 0, 0x68);
    Four(TKHD, 0x74, 0x6B, 0x68, 0x64);
    LeafBytes(TKHD, Tkhd(SoundTrack()).fields);
    Full(1, 0);
    Two(1, 0, 1);
    Four(36, 0, 0, 0, 0x24);
    Four(ELST, 0x65, 0x6C, 0x73, 0x74);
    LeafBytes(ELST, Elst(1024).fields);
  }

  lemma Priming()
    ensures BE(8, ToU64(1024)) == [0, 0, 0, 0, 0, 0, 4, 0]
  {
    hide BE;
    NoBytes(6);
    NextByte(6, 0, 4);
    NextByte(7, 4, 0);
    assert Zeros(6) == [0, 0, 0, 0, 0, 0];
  }

  const EDTS_BYTES: seq<Byte> :=
    [0, 0, 0, 0x2C] + [0x65, 0x64, 0x74, 0x73] + [] + ELST_BYTES

  const SOUND_MDHD_BYTES: seq<Byte> :=
    [0, 0, 0, 0x2C] + [0x6D, 0x64, 0x68, 0x64] + ([1, 0, 0, 0] + Zeros(8) + Zeros(8) + [0, 0, 0xBB, 0x80]
    + Zeros(8) + [0x55, 0xC4] + Zeros(2))

  const SOUND_HDLR_BYTES: seq<Byte> :=
    [0, 0, 0, 0x2D] + [0x68, 0x64, 0x6C, 0x72] + ([0, 0, 0, 0] + Zeros(4) + [0x73, 0x6F, 0x75, 0x6E] + Zeros(4)
    + Zeros(4) + Zeros(4) + [0x53, 0x6F, 0x75, 0x6E, 0x64, 0x48, 0x61, 0x6E, 0x64, 0x6C, 0x65, 0x72, 0])

  const SMHD_BYTES: seq<Byte> :=
    [0, 0, 0, 0x10] + [0x73, 0x6D, 0x68, 0x64] + ([0, 0, 0, 0] + Zeros(2) + Zeros(2))

  const ESDS_BYTES: seq<Byte> :=
    [0, 0, 0, 0x33] + [0x65, 0x73, 0x64, 0x73] + ([0, 0, 0, 0] + (([3, 0x80, 0x80, 0x80, 0x22] + (Zeros(2)
    + [0]) + [4, 0x80, 0x80, 0x80, 0x14] + ([0x40] + [0x15] + Zeros(3) + Zeros(4) + [0, 1, 0xF4, 0]))
    + ([5, 0x80, 0x80, 0x80, 2] + [0x11, 0x90]) + ([6, 0x80, 0x80, 0x80, 1] + [2])))

  lemma SoundMediaHeadBytes()
    ensures Encode(Mdhd(SoundTrack())) == SOUND_MDHD_BYTES && |SOUND_MDHD_BYTES| == 44
    ensures Encode(Hdlr(SoundTrack())) == SOUND_HDLR_BYTES && |SOUND_HDLR_BYTES| == 45
    ensures Encode(Smhd()) == SMHD_BYTES && |SMHD_BYTES| == 16
    ensures Encode(Esds([0x11, 0x90], 128000)) == ESDS_BYTES && |ESDS_BYTES| == 51
  {
    hide BE, Zeros, Words, FullBoxHeader, Encode, MATRIX;
    NoBytes(8);
    NoBytes(2);
    Full(1, 0);
    Four(48000, 0, 0, 0xBB, 0x80);
    Two(0x55C4, 0x55, 0xC4);
    Four(44, 0, 0, 0, 0x2C);
    Four(MDHD, 0x6D, 0x64, 0x68, 0x64);
    LeafBytes(MDHD, Mdhd(SoundTrack()).fields);
    NoBytes(4);
    Full(0, 0);
    Four(SOUN, 0x73, 0x6F, 0x75, 0x6E);
    Four(45, 0, 0, 0, 0x2D);
    Four(HDLR, 0x68, 0x64, 0x6C, 0x72);
    LeafBytes(HDLR, Hdlr(SoundTrack()).fields);
    Four(16, 0, 0, 0, 0x10);
    Four(SMHD, 0x73, 0x6D, 0x68, 0x64);
    LeafBytes(SMHD, Smhd().fields);
    NoBytes(3);
    Four(128000, 0, 1, 0xF4, 0);
    assert [0x11, 0x90][..2] == [0x11, 0x90];
    Four(51, 0, 0, 0, 0x33);
    Four(ESDS, 0x65, 0x73, 0x64, 0x73);
    LeafBytes(ESDS, Esds([0x11, 0x90], 128000).fields);
  }

  const MP4A_BYTES: seq<Byte> :=
    [0, 0, 0, 0x57] + [0x6D, 0x70, 0x34, 0x61] + (Zeros(6) + [0, 1]) + Zeros(4) + Zeros(4) + [0, 2] + [0, 0x10]
    + Zeros(2) + Zeros(2) + ([0xBB, 0x80, 0, 0]) + ESDS_BYTES

  const SOUND_STSD_BYTES: seq<Byte> :=
    [0, 0, 0, 0x67] + [0x73, 0x74, 0x73, 0x64] + ([0, 0, 0, 0] + [0, 0, 0, 1]) + MP4A_BYTES

  lemma SoundEntryBytes()
    ensures Encode(Edts(1024)) == EDTS_BYTES && |EDTS_BYTES| == 44
    ensures Encode(SampleEntry(SoundTrack().codec)) == MP4A_BYTES && |MP4A_BYTES| == 87
    ensures Encode(Stsd(SoundTrack())) == SOUND_STSD_BYTES && |SOUND_STSD_BYTES| == 103
  {
    hide BE, Zeros, Words, FullBoxHeader, Encode, EncodeAll, Elst, Esds, ELST_BYTES, ESDS_BYTES;
    SoundHeadBytes();
    SoundMediaHeadBytes();
    Four(44, 0, 0, 0, 0x2C);
    Four(EDTS, 0x65, 0x64, 0x74, 0x73);
    assert Edts(1024).children == [Elst(1024)];
    BoxesOf1(Elst(1024));
    NodeBytes(EDTS, Edts(1024).fields, Edts(1024).children);
    NoBytes(2);
    NoBytes(4);
    Two(1, 0, 1);
    Two(2, 0, 2);
    Two(16, 0, 0x10);
    Four(0xBB80_0000, 0xBB, 0x80, 0, 0);
    Four(87, 0, 0, 0, 0x57);
    Four(MP4A, 0x6D, 0x70, 0x34, 0x61);
    assert SampleEntry(SoundTrack().codec).children == [Esds([0x11, 0x90], 128000)];
    BoxesOf1(Esds([0x11, 0x90], 128000));
    NodeBytes(MP4A, SampleEntry(SoundTrack().codec).fields, SampleEntry(SoundTrack().codec).children);
    Full(0, 0);
    Four(1, 0, 0, 0, 1);
    Four(103, 0, 0, 0, 0x67);
    Four(STSD, 0x73, 0x74, 0x73, 0x64);
    assert Stsd(SoundTrack()).children == [SampleEntry(SoundTrack().codec)];
    BoxesOf1(SampleEntry(SoundTrack().codec));
    NodeBytes(STSD, Stsd(SoundTrack()).fields, Stsd(SoundTrack()).children);
  }

  const SOUND_STBL_BYTES: seq<Byte> :=
    [0, 0, 0, 0xB3] + [0x73, 0x74, 0x62, 0x6C] + [] + (SOUND_STSD_BYTES + STTS_BYTES + STSC_BYTES + STSZ_BYTES
    + STCO_BYTES)

  lemma SoundTablesBytes()
    ensures Encode(Stbl(SoundTrack())) == SOUND_STBL_BYTES && |SOUND_STBL_BYTES| == 179
  {
    hide BE, Zeros, Words, FullBoxHeader, Encode, EncodeAll, Stsd, Empty, Stsz, SOUND_STSD_BYTES, STTS_BYTES,
         STSC_BYTES, STSZ_BYTES, STCO_BYTES;
    SoundEntryBytes();
    TableBytes();
    Four(179, 0, 0, 0, 0xB3);
    Four(STBL, 0x73, 0x74, 0x62, 0x6C);
    assert Stbl(SoundTrack()).children == [Stsd(SoundTrack()), Empty(STTS), Empty(STSC), Stsz(), Empty(STCO)];
    BoxesOf5(Stsd(SoundTrack()), Empty(STTS), Empty(STSC), Stsz(), Empty(STCO));
    NodeBytes(STBL, Stbl(SoundTrack()).fields, Stbl(SoundTrack()).children);
  }

  const SOUND_MINF_BYTES: seq<Byte> :=
    [0, 0, 0, 0xEF] + [0x6D, 0x69, 0x6E, 0x66] + [] + (SMHD_BYTES + DINF_BYTES + SOUND_STBL_BYTES)

  const SOUND_MDIA_BYTES: seq<Byte> :=
    [0, 0, 1, 0x50] + [0x6D, 0x64, 0x69, 0x61] + [] + (SOUND_MDHD_BYTES + SOUND_HDLR_BYTES + SOUND_MINF_BYTES)

  lemma SoundMediaBytes()
    ensures Encode(Minf(SoundTrack())) == SOUND_MINF_BYTES && |SOUND_MINF_BYTES| == 239
    ensures Encode(Mdia(SoundTrack())) == SOUND_MDIA_BYTES && |SOUND_MDIA_BYTES| == 336
  {
    hide BE, Zeros, Words, FullBoxHeader, Encode, EncodeAll, Stbl, Dinf, Smhd, Mdhd, Hdlr, SMHD_BYTES, DINF_BYTES,
         SOUND_STBL_BYTES, SOUND_MDHD_BYTES, SOUND_HDLR_BYTES;
    SoundTablesBytes();
    SoundMediaHeadBytes();
    DinfBytes();
    Four(239, 0, 0, 0, 0xEF);
    Four(MINF, 0x6D, 0x69, 0x6E, 0x66);
    assert Minf(SoundTrack()).children == [Smhd(), Dinf(), Stbl(SoundTrack())];
    BoxesOf3(Smhd(), Dinf(), Stbl(SoundTrack()));
    NodeBytes(MINF, Minf(SoundTrack()).fields, Minf(SoundTrack()).children);
    Four(336, 0, 0, 1, 0x50);
    Four(MDIA, 0x6D, 0x64, 0x69, 0x61);
    assert Mdia(SoundTrack()).children == [Mdhd(SoundTrack()), Hdlr(SoundTrack()), Minf(SoundTrack())];
    BoxesOf3(Mdhd(SoundTrack()), Hdlr(SoundTrack()), Minf(SoundTrack()));
    NodeBytes(MDIA, Mdia(SoundTrack()).fields, Mdia(SoundTrack()).children);
  }

  const SOUND_TRAK_BYTES: seq<Byte> :=
    [0, 0, 1, 0xEC] + [0x74, 0x72, 0x61, 0x6B] + [] + (SOUND_TKHD_BYTES + EDTS_BYTES + SOUND_MDIA_BYTES)

  /** The same for sound: its track box, byte by byte. */
  lemma SoundTrakBytes()
    ensures Encode(Trak(SoundTrack())) == SOUND_TRAK_BYTES && |SOUND_TRAK_BYTES| == 492
  {
    hide BE, Zeros, Words, FullBoxHeader, Encode, EncodeAll, Trak, Tkhd, Edts, Mdia, SOUND_TKHD_BYTES, EDTS_BYTES,
         SOUND_MDIA_BYTES;
    SoundHeadBytes();
    SoundEntryBytes();
    SoundMediaBytes();
    TraksAre();
    Four(492, 0, 0, 1, 0xEC);
    Four(TRAK, 0x74, 0x72, 0x61, 0x6B);
    assert Trak(SoundTrack()).children == [Tkhd(SoundTrack()), Edts(1024), Mdia(SoundTrack())];
    BoxesOf3(Tkhd(SoundTrack()), Edts(1024), Mdia(SoundTrack()));
    NodeBytes(TRAK, Trak(SoundTrack()).fields, Trak(SoundTrack()).children);
  }
}
