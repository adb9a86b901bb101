/** The media segment that tests/test_segment_roundtrip.cpp builds, byte for byte as in test_seg.mp4. */
module GoldenSegment {
  import opened Bytes
  import opened BoxTree
  import opened BoxBuilding
  import opened InitLayout
  import opened SegmentLayout
  import opened FieldBytes

  /** A sample of the test: a length of 60 and the numbers from 4 to 63. */
  function TestData(): (s: seq<Byte>)
    ensures |s| == 64
  {
    [0, 0, 0, 60] + seq(60, j requires 0 <= j < 60 => 4 + j)
  }

  /** 25 samples, 25 a second. */
  function TestSamples(): (s: seq<Sample>)
    ensures |s| == 25
  {
    seq(25, i requires 0 <= i < 25 => Sample(TestData(), 640 * i, 640, 0, i == 0))
  }

  function TestInput(): TrackInput {
    TrackInput(1, 16000, TestSamples(), 0)
  }

  /** `n` copies of `s`. */
  function Times(n: nat, s: seq<Byte>): (r: seq<Byte>)
    ensures |r| == n * |s|
  {
    if n == 0 then [] else Times(n - 1, s) + s
  }

  const STYP_BYTES: seq<Byte> :=
    [0, 0, 0, 0x18] + [0x73, 0x74, 0x79, 0x70] + ([0x6D, 0x73, 0x64, 0x68] + [0, 0, 0, 0]
    + [0x6D, 0x73, 0x64, 0x68] + [0x6D, 0x73, 0x69, 0x78])

  const SIDX_BYTES: seq<Byte> :=
    [0, 0, 0, 0x34] + [0x73, 0x69, 0x64, 0x78]
    + (([1, 0, 0, 0] + [0, 0, 0, 1] + [0, 0, 0x3E, 0x80] + Zeros(8) + Zeros(8) + [0, 0] + [0, 1])
       + [0, 0, 0x07, 0xD0] + ([0, 0, 0x3E, 0x80] + [0x90, 0, 0, 0]))

  const MFHD_BYTES: seq<Byte> := [0, 0, 0, 0x10] + [0x6D, 0x66, 0x68, 0x64] + ([0, 0, 0, 0] + [0, 0, 0, 1])

  const TFHD_BYTES: seq<Byte> := [0, 0, 0, 0x10] + [0x74, 0x66, 0x68, 0x64] + ([0, 2, 0, 0] + [0, 0, 0, 1])

  const TFDT_BYTES: seq<Byte> := [0, 0, 0, 0x14] + [0x74, 0x66, 0x64, 0x74] + ([1, 0, 0, 0] + Zeros(8))

  const ENTRY_BYTES: seq<Byte> := [0, 0, 0x02, 0x80] + [0, 0, 0, 0x40] + [0, 0, 0, 0]

  const TRUN_BYTES: seq<Byte> :=
    [0, 0, 0x01, 0x44] + [0x74, 0x72, 0x75, 0x6E]
    + (([1, 0, 0x0B, 0x05] + [0, 0, 0, 0x19]) + [0, 0, 0x01, 0x90] + ([0x02, 0, 0, 0] + Times(25, ENTRY_BYTES)))

  const TRAF_BYTES: seq<Byte> := [0, 0, 0x01, 0x70] + [0x74, 0x72, 0x61, 0x66] + [] + (TFHD_BYTES + TFDT_BYTES + TRUN_BYTES)

  const MOOF_BYTES: seq<Byte> := [0, 0, 0x01, 0x88] + [0x6D, 0x6F, 0x6F, 0x66] + [] + (MFHD_BYTES + TRAF_BYTES)

  const MDAT_BYTES: seq<Byte> := [0, 0, 0x06, 0x48] + [0x6D, 0x64, 0x61, 0x74] + Times(25, TestData())

  // ---- what 25 equal samples make ----

  predicate AllAlike(samples: seq<Sample>) {
    forall i :: 0 <= i < |samples| ==>
      samples[i].data == TestData() && samples[i].duration == 640 && samples[i].ctsOffset == 0
  }

  lemma {:induction false} EntriesRepeat(samples: seq<Sample>)
    requires AllAlike(samples)
    ensures TrunEntries(samples) == Times(|samples|, ENTRY_BYTES)
  {
    hide BE, TestData;
    if samples != [] {
      var n := |samples| - 1;
      EntriesRepeat(samples[..n]);
      Four(640, 0, 0, 0x02, 0x80);
      Four(64, 0, 0, 0, 0x40);
      Four(0, 0, 0, 0, 0);
      assert TrunEntry(samples[n]) == ENTRY_BYTES;
    }
  }

  lemma {:induction false} PayloadRepeats(samples: seq<Sample>)
    requires AllAlike(samples)
    ensures SamplePayload(samples) == Times(|samples|, TestData())
  {
    hide TestData;
    if samples != [] {
      PayloadRepeats(samples[..|samples| - 1]);
    }
  }

  lemma {:induction false} DurationsAdd(samples: seq<Sample>)
    requires AllAlike(samples)
    ensures TotalDuration(samples) == 640 * |samples|
  {
    hide TestData;
    if samples != [] {
      DurationsAdd(samples[..|samples| - 1]);
    }
  }

  lemma OneTrack(track: TrackInput)
    ensures Payload([track]) == SamplePayload(track.samples)
  {
    hide SamplePayload;
    assert [track][..0] == [] && Payload([]) == [];
    assert Payload([track]) == Payload([]) + SamplePayload(track.samples);
  }

  lemma TheseAreAlike()
    ensures AllAlike(TestSamples())
  {
    hide TestData;
  }

  // ---- the boxes ----

  lemma StypBytes()
    ensures Encode(Styp()) == STYP_BYTES
  {
    hide BE, Encode;
    Four(24, 0, 0, 0, 0x18);
    Four(0, 0, 0, 0, 0);
    Four(STYP, 0x73, 0x74, 0x79, 0x70);
    Four(BRAND_MSDH, 0x6D, 0x73, 0x64, 0x68);
    Four(BRAND_MSIX, 0x6D, 0x73, 0x69, 0x78);
    LeafBytes(STYP, Styp().fields);
  }

  lemma SidxBytes()
    ensures Encode(Sidx(1, 16000, 0, 16000, 2000)) == SIDX_BYTES
  {
    hide BE, Encode, FullBoxHeader, Zeros;
    Full(1, 0);
    Four(52, 0, 0, 0, 0x34);
    Four(SIDX, 0x73, 0x69, 0x64, 0x78);
    Four(1, 0, 0, 0, 1);
    Four(16000, 0, 0, 0x3E, 0x80);
    Four(2000, 0, 0, 0x07, 0xD0);
    Four(STARTS_WITH_SAP_1, 0x90, 0, 0, 0);
    Two(0, 0, 0);
    Two(1, 0, 1);
    NoBytes(8);
    LeafBytes(SIDX, Sidx(1, 16000, 0, 16000, 2000).fields);
  }

  lemma HeaderBytes()
    ensures Encode(Mfhd(1)) == MFHD_BYTES && Encode(Tfhd(1)) == TFHD_BYTES && Encode(Tfdt(0)) == TFDT_BYTES
  {
    hide BE, Encode, FullBoxHeader, Zeros;
    Full(0, 0);
    Full(1, 0);
    FullWide(0, 2, 0, 0);
    Four(16, 0, 0, 0, 0x10);
    Four(20, 0, 0, 0, 0x14);
    Four(1, 0, 0, 0, 1);
    NoBytes(8);
    Four(MFHD, 0x6D, 0x66, 0x68, 0x64);
    Four(TFHD, 0x74, 0x66, 0x68, 0x64);
    Four(TFDT, 0x74, 0x66, 0x64, 0x74);
    LeafBytes(MFHD, Mfhd(1).fields);
    LeafBytes(TFHD, Tfhd(1).fields);
    LeafBytes(TFDT, Tfdt(0).fields);
  }

  lemma TrunBytes()
    ensures Encode(Trun(TestSamples(), 400)) == TRUN_BYTES && |TRUN_BYTES| == 324
  {
    hide BE, Encode, FullBoxHeader, TrunEntries, TestSamples, Times, ENTRY_BYTES, AllAlike;
    TheseAreAlike();
    EntriesRepeat(TestSamples());
    FullWide(1, 0, 0x0B, 0x05);
    Four(25, 0, 0, 0, 0x19);
    Four(400, 0, 0, 0x01, 0x90);
    Four(KEY_SAMPLE_FLAGS, 0x02, 0, 0, 0);
    Four(324, 0, 0, 0x01, 0x44);
    Four(TRUN, 0x74, 0x72, 0x75, 0x6E);
    LeafBytes(TRUN, Trun(TestSamples(), 400).fields);
    EntryLength();
  }

  lemma EntryLength()
    ensures |ENTRY_BYTES| == 12
  {
  }

  lemma HeaderLengths()
    ensures |TFHD_BYTES| == 16 && |TFDT_BYTES| == 20
  {
  }

  lemma TrafBytes()
    ensures Encode(Traf(TestInput(), 400)) == TRAF_BYTES && |TRAF_BYTES| == 368
  {
    hide BE, Encode, EncodeAll, Tfhd, Tfdt, Trun, TestSamples, Zeros, TRUN_BYTES, TFHD_BYTES, TFDT_BYTES;
    HeaderBytes();
    HeaderLengths();
    TrunBytes();
    var input := TestInput();
    assert input.samples == TestSamples() && input.trackId == 1 && input.tfdt == 0;
    assert Traf(input, 400).children == [Tfhd(1), Tfdt(0), Trun(TestSamples(), 400)];
    BoxesOf3(Tfhd(1), Tfdt(0), Trun(TestSamples(), 400));
    Four(368, 0, 0, 0x01, 0x70);
    Four(TRAF, 0x74, 0x72, 0x61, 0x66);
    NodeBytes(TRAF, [], Traf(input, 400).children);
  }

  lemma MoofBytes()
    ensures Encode(Moof(1, [TestInput()], [400])) == MOOF_BYTES && |MOOF_BYTES| == 392
  {
    HeaderBytes();
    TrafBytes();
    hide BE, Encode, EncodeAll, Mfhd, Traf, TestInput, TRAF_BYTES;
    assert Trafs([TestInput()], [400]) == [Traf(TestInput(), 400)];
    assert Moof(1, [TestInput()], [400]).children == [Mfhd(1), Traf(TestInput(), 400)];
    BoxesOf2(Mfhd(1), Traf(TestInput(), 400));
    Four(392, 0, 0, 0x01, 0x88);
    Four(MOOF, 0x6D, 0x6F, 0x6F, 0x66);
    NodeBytes(MOOF, [], Moof(1, [TestInput()], [400]).children);
  }

  lemma MdatBytes()
    ensures Encode(Mdat([TestInput()])) == MDAT_BYTES && |MDAT_BYTES| == 1608
  {
    assert TestInput().samples == TestSamples();
    hide BE, Encode, Payload, SamplePayload, TestSamples, TestInput, TestData, Times, AllAlike;
    TheseAreAlike();
    PayloadRepeats(TestSamples());
    OneTrack(TestInput());
    Four(1608, 0, 0, 0x06, 0x48);
    Four(MDAT, 0x6D, 0x64, 0x61, 0x74);
    LeafBytes(MDAT, Payload([TestInput()]));
  }

  lemma IndexOfTest()
    ensures SidxOf(TestInput(), 2000) == Sidx(1, 16000, 0, 16000, 2000)
  {
    hide TotalDuration, Sidx, TestData, AllAlike;
    TheseAreAlike();
    DurationsAdd(TestSamples());
    assert TestSamples()[0].dts == 0 && TestSamples()[0].ctsOffset == 0;
  }

  lemma Forward()
    ensures DataOffsets(1, [TestInput()]) == [400] && ReferencedSize(1, [TestInput()]) == 2000
  {
    hide Encode, EncodeAll, BE, MOOF_BYTES, MDAT_BYTES, TestInput, Moof, Mdat, MoofSize, Size;
    var tracks := [TestInput()];
    MoofBytes();
    MdatBytes();
    MoofSizeFixed(1, tracks, [400]);
    assert MoofSize(1, tracks) == 392 && Size(Mdat(tracks)) == 1608;
    assert tracks[..0] == [] && Payload([]) == [];
  }

  /** The part of test_seg.mp4 that follows the init segment: for the 25 samples of the test, the media segment is these
      2076 bytes. */
  lemma SegmentOfTest()
    ensures SegmentBytes(1, [TestInput()]) == STYP_BYTES + SIDX_BYTES + MOOF_BYTES + MDAT_BYTES
    ensures |STYP_BYTES + SIDX_BYTES + MOOF_BYTES + MDAT_BYTES| == 2076
  {
    var tracks := [TestInput()];
    Forward();
    IndexOfTest();
    StypBytes();
    SidxBytes();
    MoofBytes();
    MdatBytes();
    hide BE, Encode, EncodeAll, Styp, SidxOf, Sidx, Moof, Mdat, TestInput, DataOffsets, ReferencedSize, MOOF_BYTES,
         MDAT_BYTES, Zeros;
    var styp, sidx, moof, mdat := Styp(), SidxOf(TestInput(), 2000), Moof(1, tracks, [400]), Mdat(tracks);
    assert SegmentBoxes(1, tracks) == [styp, sidx, moof, mdat];
    NextBox(styp, [sidx, moof, mdat]);
    BoxesOf3(sidx, moof, mdat);
    assert [styp] + [sidx, moof, mdat] == [styp, sidx, moof, mdat];
  }
}
