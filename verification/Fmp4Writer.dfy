/** The writer of media segments (src/Fmp4Writer.cpp), proved to produce the boxes of SegmentLayout. */
module Fmp4Writer {
  import opened Bytes
  import opened BoxTree
  import opened BoxBuilding
  import opened SegmentLayout
  import opened Tracks
  import opened Wrappers

  method WriteStyp(b: BoxBuilder)
    modifies b
    ensures b.buf == old(b.buf) + Encode(Styp())
  {
    hide BE;
    ghost var before := b.buf;
    var start := b.BeginBox(STYP);
    b.Type(BRAND_MSDH);
    b.U32(0);
    b.Type(BRAND_MSDH);
    b.Type(BRAND_MSIX);
    EndLeaf(before, b.buf, Styp());
    b.EndBox(start);
  }

  /** Returns the offset of the referenced size field, which the caller patches. */
  method WriteSidx(b: BoxBuilder, referenceId: U32, timescale: U32, ept: int, subsegmentDuration: U32)
    returns (sizeOffset: nat)
    modifies b
    ensures b.buf == old(b.buf) + Encode(Sidx(referenceId, timescale, ept, subsegmentDuration, 0))
    ensures sizeOffset == |old(b.buf)| + 40
  {
    hide BE;
    ghost var before := b.buf;
    var start := b.BeginFullBox(SIDX, 1, 0);
    b.U32(referenceId);
    b.U32(timescale);
    b.S64(ept);
    b.U64(0);
    b.U16(0);
    b.U16(1);
    sizeOffset := |b.buf|;
    b.U32(0);
    b.U32(subsegmentDuration);
    b.U32(STARTS_WITH_SAP_1);
    EndLeaf(before, b.buf, Sidx(referenceId, timescale, ept, subsegmentDuration, 0));
    b.EndBox(start);
  }

  method WriteMfhd(b: BoxBuilder, sequenceNumber: U32)
    modifies b
    ensures b.buf == old(b.buf) + Encode(Mfhd(sequenceNumber))
  {
    hide BE;
    ghost var before := b.buf;
    var start := b.BeginFullBox(MFHD, 0, 0);
    b.U32(sequenceNumber);
    EndLeaf(before, b.buf, Mfhd(sequenceNumber));
    b.EndBox(start);
  }

  method WriteTfhd(b: BoxBuilder, trackId: U32)
    modifies b
    ensures b.buf == old(b.buf) + Encode(Tfhd(trackId))
  {
    hide BE;
    ghost var before := b.buf;
    var start := b.BeginFullBox(TFHD, 0, DEFAULT_BASE_IS_MOOF);
    b.U32(trackId);
    EndLeaf(before, b.buf, Tfhd(trackId));
    b.EndBox(start);
  }

  method WriteTfdt(b: BoxBuilder, baseMediaDecodeTime: int)
    modifies b
    ensures b.buf == old(b.buf) + Encode(Tfdt(baseMediaDecodeTime))
  {
    hide BE;
    ghost var before := b.buf;
    var start := b.BeginFullBox(TFDT, 1, 0);
    b.S64(baseMediaDecodeTime);
    EndLeaf(before, b.buf, Tfdt(baseMediaDecodeTime));
    b.EndBox(start);
  }

  /** Returns the offset of the data offset field, which the caller patches. */
  method WriteTrun(b: BoxBuilder, samples: seq<Sample>) returns (dataOffsetPos: nat)
    modifies b
    ensures b.buf == old(b.buf) + Encode(Trun(samples, 0))
    ensures dataOffsetPos == |old(b.buf)| + 16
  {
    hide BE;
    ghost var before := b.buf;
    var start := b.BeginFullBox(TRUN, 1, TRUN_FLAGS);
    b.U32(ToU32(|samples|));
    dataOffsetPos := |b.buf|;
    b.S32(0);
    b.U32(KEY_SAMPLE_FLAGS);
    ghost var header := b.buf;
    for i := 0 to |samples|
      invariant b.buf == header + TrunEntries(samples[..i])
    {
      assert samples[..i + 1][..i] == samples[..i];
      b.U32(samples[i].duration);
      b.U32(ToU32(|samples[i].data|));
      b.S32(samples[i].ctsOffset);
    }
    assert samples[..|samples|] == samples;
    EndLeaf(before, b.buf, Trun(samples, 0));
    b.EndBox(start);
  }

  /** One index a track. Returns the offsets of the referenced sizes. */
  method WriteSidxs(b: BoxBuilder, tracks: seq<TrackInput>) returns (sizeOffsets: seq<nat>)
    modifies b
    ensures b.buf == old(b.buf) + EncodeAll(Sidxs(tracks, Repeat(0, |tracks|)))
    ensures |sizeOffsets| == |tracks|
    ensures forall i :: 0 <= i < |tracks| ==> sizeOffsets[i] == |old(b.buf)| + SIDX_SIZE * i + 40
  {
    hide BE, Encode, Size, Sidx;
    sizeOffsets := [];
    assert b.buf == old(b.buf) + [];
    for i := 0 to |tracks|
      invariant b.buf == old(b.buf) + EncodeAll(Sidxs(tracks[..i], Repeat(0, i)))
      invariant |sizeOffsets| == i
      invariant forall j :: 0 <= j < i ==> sizeOffsets[j] == |old(b.buf)| + SIDX_SIZE * j + 40
    {
      var samples := tracks[i].samples;
      var ept: int := tracks[i].tfdt;
      var subsegmentDuration := 0;
      if samples != [] {
        ept := samples[0].dts + samples[0].ctsOffset;
        var total := SumDurations(samples);
        subsegmentDuration := ToU32(total);
      }
      SidxsSize(tracks[..i], Repeat(0, i));
      var off := WriteSidx(b, tracks[i].trackId, tracks[i].timescale, ept, subsegmentDuration);
      sizeOffsets := sizeOffsets + [off];
      SidxsNext(tracks, i);
    }
    assert tracks[..|tracks|] == tracks;
  }

  method SumDurations(samples: seq<Sample>) returns (total: nat)
    ensures total == TotalDuration(samples)
  {
    total := 0;
    for i := 0 to |samples|
      invariant total == TotalDuration(samples[..i])
    {
      assert samples[..i + 1][..i] == samples[..i];
      total := total + samples[i].duration;
    }
    assert samples[..|samples|] == samples;
  }

  lemma SidxsNext(tracks: seq<TrackInput>, i: nat)
    requires i < |tracks|
    ensures EncodeAll(Sidxs(tracks[..i + 1], Repeat(0, i + 1)))
         == EncodeAll(Sidxs(tracks[..i], Repeat(0, i))) + Encode(SidxOf(tracks[i], 0))
  {
    hide Encode, EncodeAll, SidxOf;
    EncodeAllConcat(Sidxs(tracks[..i], Repeat(0, i)), [SidxOf(tracks[i], 0)]);
    SizeAllOne(SidxOf(tracks[i], 0));
    assert Sidxs(tracks[..i + 1], Repeat(0, i + 1)) == Sidxs(tracks[..i], Repeat(0, i)) + [SidxOf(tracks[i], 0)];
  }

  /** The track fragment, and the offset of its data offset field or 0 if it has no run. */
  method WriteTraf(b: BoxBuilder, track: TrackInput) returns (dataOffsetPos: nat)
    modifies b
    ensures b.buf == old(b.buf) + Encode(Traf(track, 0))
    ensures dataOffsetPos == if track.samples == [] then 0 else |old(b.buf)| + 60
  {
    hide BE, Encode, Size;
    ghost var before := b.buf;
    ghost var traf := Traf(track, 0);
    LeafSizes(track, 0, 0);
    var start := b.BeginBox(TRAF);
    ghost var header := b.buf;
    WriteTfhd(b, track.trackId);
    WriteTfdt(b, track.tfdt);
    dataOffsetPos := 0;
    if track.samples != [] {
      dataOffsetPos := WriteTrun(b, track.samples);
    }
    TrafChildren(track);
    assert b.buf == header + EncodeAll(traf.children);
    assert header == before + BE(4, 0) + BE(4, TRAF) + traf.fields;
    Closed(before, traf);
    b.EndBox(start);
  }

  lemma TrafChildren(track: TrackInput)
    ensures EncodeAll(Traf(track, 0).children)
         == Encode(Tfhd(track.trackId)) + Encode(Tfdt(track.tfdt))
            + (if track.samples == [] then [] else Encode(Trun(track.samples, 0)))
  {
    hide Encode, Tfhd, Tfdt, Trun, EncodeAll;
    var run := Traf(track, 0).children[2..];
    EncodeAllCons(Tfhd(track.trackId), [Tfdt(track.tfdt)] + run);
    EncodeAllCons(Tfdt(track.tfdt), run);
    assert Traf(track, 0).children == [Tfhd(track.trackId)] + ([Tfdt(track.tfdt)] + run);
    if track.samples != [] {
      SizeAllOne(Trun(track.samples, 0));
    }
  }

  /** The moof with placeholders. Returns the offsets of the data offsets, 0 for a track without samples. */
  method WriteMoof(b: BoxBuilder, sequenceNumber: U32, tracks: seq<TrackInput>) returns (positions: seq<nat>)
    modifies b
    ensures b.buf == old(b.buf) + Encode(Moof(sequenceNumber, tracks, Repeat(0, |tracks|)))
    ensures |positions| == |tracks|
    ensures forall i :: 0 <= i < |tracks| ==>
              positions[i] == if tracks[i].samples == [] then 0
                              else |old(b.buf)| + 24 + SizeAll(Trafs(tracks[..i], Repeat(0, i))) + 60
  {
    hide BE, Encode, Size, SizeAll, Traf, Mfhd, ToU32, ToU64;
    ghost var before := b.buf;
    ghost var moof := Moof(sequenceNumber, tracks, Repeat(0, |tracks|));
    var start := b.BeginBox(MOOF);
    ghost var header := b.buf;
    WriteMfhd(b, sequenceNumber);
    ghost var mfhd := Mfhd(sequenceNumber);
    assert Size(mfhd) == 16 by { MfhdSize(sequenceNumber); }
    positions := [];
    assert b.buf == header + Encode(mfhd) + [];
    for i := 0 to |tracks|
      invariant b.buf == header + Encode(mfhd) + EncodeAll(Trafs(tracks[..i], Repeat(0, i)))
      invariant |positions| == i
      invariant forall j :: 0 <= j < i ==>
                  positions[j] == if tracks[j].samples == [] then 0
                                  else |old(b.buf)| + 24 + SizeAll(Trafs(tracks[..j], Repeat(0, j))) + 60
    {
      var pos := WriteTraf(b, tracks[i]);
      positions := positions + [pos];
      TrafsNext(tracks, i);
    }
    assert tracks[..|tracks|] == tracks;
    EncodeAllCons(mfhd, Trafs(tracks, Repeat(0, |tracks|)));
    assert b.buf == header + EncodeAll(moof.children);
    assert header == before + BE(4, 0) + BE(4, MOOF) + moof.fields;
    Closed(before, moof);
    b.EndBox(start);
  }

  lemma StypSize()
    ensures Size(Styp()) == STYP_SIZE
  {
  }

  lemma MfhdSize(sequenceNumber: U32)
    ensures Size(Mfhd(sequenceNumber)) == 16
  {
  }

  lemma TrafsNext(tracks: seq<TrackInput>, i: nat)
    requires i < |tracks|
    ensures EncodeAll(Trafs(tracks[..i + 1], Repeat(0, i + 1)))
         == EncodeAll(Trafs(tracks[..i], Repeat(0, i))) + Encode(Traf(tracks[i], 0))
  {
    hide Encode, EncodeAll, Traf;
    EncodeAllConcat(Trafs(tracks[..i], Repeat(0, i)), [Traf(tracks[i], 0)]);
    SizeAllOne(Traf(tracks[i], 0));
    assert Trafs(tracks[..i + 1], Repeat(0, i + 1)) == Trafs(tracks[..i], Repeat(0, i)) + [Traf(tracks[i], 0)];
  }

  /** All payloads, track after track. Returns where each track's payload starts, counted from `moofStart`. */
  method WriteMdat(b: BoxBuilder, tracks: seq<TrackInput>, moofStart: nat) returns (payloadOffsets: seq<nat>)
    requires moofStart <= |b.buf|
    modifies b
    ensures b.buf == old(b.buf) + Encode(Mdat(tracks))
    ensures |payloadOffsets| == |tracks|
    ensures forall i :: 0 <= i < |tracks| ==>
              payloadOffsets[i] == |old(b.buf)| - moofStart + 8 + |Payload(tracks[..i])|
  {
    hide BE, Encode, SamplePayload, Size;
    ghost var before := b.buf;
    var start := b.BeginBox(MDAT);
    ghost var header := b.buf;
    payloadOffsets := [];
    assert b.buf == header + [];
    for i := 0 to |tracks|
      invariant b.buf == header + Payload(tracks[..i])
      invariant |payloadOffsets| == i
      invariant forall j :: 0 <= j < i ==>
                  payloadOffsets[j] == |old(b.buf)| - moofStart + 8 + |Payload(tracks[..j])|
    {
      payloadOffsets := payloadOffsets + [|b.buf| - moofStart];
      assert tracks[..i + 1][..i] == tracks[..i];
      WriteSamples(b, tracks[i].samples);
    }
    assert tracks[..|tracks|] == tracks;
    EndLeaf(before, b.buf, Mdat(tracks));
    b.EndBox(start);
  }

  method WriteSamples(b: BoxBuilder, samples: seq<Sample>)
    modifies b
    ensures b.buf == old(b.buf) + SamplePayload(samples)
  {
    assert b.buf == old(b.buf) + [];
    for i := 0 to |samples|
      invariant b.buf == old(b.buf) + SamplePayload(samples[..i])
    {
      assert samples[..i + 1][..i] == samples[..i];
      if |samples[i].data| > 0 {
        b.Append(samples[i].data);
      }
    }
    assert samples[..|samples|] == samples;
  }

  /** What the four writing phases leave, before any forward reference is patched. */
  lemma Assembled(sequenceNumber: U32, tracks: seq<TrackInput>, sizes: seq<nat>, dataOffsets: seq<nat>)
    requires |sizes| == |dataOffsets| == |tracks|
    ensures EncodeAll(BoxesWith(sequenceNumber, tracks, sizes, dataOffsets))
         == Encode(Styp()) + EncodeAll(Sidxs(tracks, sizes))
            + Encode(Moof(sequenceNumber, tracks, dataOffsets)) + Encode(Mdat(tracks))
  {
    hide Encode, EncodeAll, Styp, Sidxs, Moof, Mdat;
    var moof, mdat := Moof(sequenceNumber, tracks, dataOffsets), Mdat(tracks);
    EncodeAllCons(Styp(), Sidxs(tracks, sizes) + [moof, mdat]);
    EncodeAllConcat(Sidxs(tracks, sizes), [moof, mdat]);
    EncodeAllCons(moof, [mdat]);
    SizeAllOne(mdat);
    assert [moof, mdat] == [moof] + [mdat];
    assert BoxesWith(sequenceNumber, tracks, sizes, dataOffsets)
        == [Styp()] + (Sidxs(tracks, sizes) + [moof, mdat]);
    Associate(Encode(Styp()), EncodeAll(Sidxs(tracks, sizes)), Encode(moof), Encode(mdat));
  }

  /** Patches the data offset of every track that has a run. */
  method PatchDataOffsets(b: BoxBuilder, ghost sequenceNumber: U32, tracks: seq<TrackInput>,
                          positions: seq<nat>, payloadOffsets: seq<nat>)
    requires |positions| == |payloadOffsets| == |tracks|
    requires forall i :: 0 <= i < |tracks| ==>
               positions[i] == if tracks[i].samples == [] then 0 else DataOffsetPos(tracks, i)
    requires forall i :: 0 <= i < |tracks| ==>
               ToU32(payloadOffsets[i]) == DataOffset(sequenceNumber, tracks, i)
    requires b.buf == EncodeAll(BoxesWith(sequenceNumber, tracks, Repeat(0, |tracks|), Repeat(0, |tracks|)))
    modifies b
    ensures b.buf == EncodeAll(BoxesWith(sequenceNumber, tracks, Repeat(0, |tracks|),
                                         DataOffsets(sequenceNumber, tracks)))
  {
    hide EncodeAll, BoxesWith, DataOffset, DataOffsetPos, Patched, Traf;
    ghost var final := DataOffsets(sequenceNumber, tracks);
    ghost var sizes := Repeat(0, |tracks|);
    ghost var current := Repeat(0, |tracks|);
    for i := 0 to |tracks|
      invariant |current| == |tracks|
      invariant forall j :: 0 <= j < i ==> current[j] == final[j]
      invariant b.buf == EncodeAll(BoxesWith(sequenceNumber, tracks, sizes, current))
    {
      if positions[i] == 0 {
        NoRun(sequenceNumber, tracks, sizes, current, i, final[i]);
      } else {
        PatchDataOffset(sequenceNumber, tracks, sizes, current, i, final[i]);
        b.Patch32(positions[i], ToU32(payloadOffsets[i]));
      }
      current := current[i := final[i]];
    }
    assert current == final;
  }

  lemma NoRun(sequenceNumber: U32, tracks: seq<TrackInput>, sizes: seq<nat>, dataOffsets: seq<nat>, i: nat, v: nat)
    requires |sizes| == |dataOffsets| == |tracks| && i < |tracks|
    ensures DataOffsetPos(tracks, i) > 0
    ensures tracks[i].samples == [] ==>
              (BoxesWith(sequenceNumber, tracks, sizes, dataOffsets[i := v])
               == BoxesWith(sequenceNumber, tracks, sizes, dataOffsets))
  {
    if tracks[i].samples == [] {
      assert Trafs(tracks, dataOffsets[i := v]) == Trafs(tracks, dataOffsets);
    }
  }

  /** Patches the referenced size of every index. */
  method PatchSizes(b: BoxBuilder, ghost sequenceNumber: U32, ghost tracks: seq<TrackInput>,
                    ghost dataOffsets: seq<nat>, sizeOffsets: seq<nat>, referencedSize: U32)
    requires |dataOffsets| == |sizeOffsets| == |tracks|
    requires forall i :: 0 <= i < |tracks| ==> sizeOffsets[i] == SizePos(i)
    requires b.buf == EncodeAll(BoxesWith(sequenceNumber, tracks, Repeat(0, |tracks|), dataOffsets))
    modifies b
    ensures b.buf == EncodeAll(BoxesWith(sequenceNumber, tracks,
                                         Repeat(referencedSize % 0x8000_0000, |tracks|), dataOffsets))
  {
    hide EncodeAll, BoxesWith, SizePos, Patched;
    var size: U32 := referencedSize % 0x8000_0000;
    ghost var current: seq<nat> := Repeat(0, |tracks|);
    for i := 0 to |sizeOffsets|
      invariant |current| == |tracks|
      invariant forall j :: 0 <= j < i ==> current[j] == size
      invariant b.buf == EncodeAll(BoxesWith(sequenceNumber, tracks, current, dataOffsets))
    {
      PatchReferencedSize(sequenceNumber, tracks, current, dataOffsets, i, size);
      b.Patch32(sizeOffsets[i], size);
      current := current[i := size];
    }
    assert current == Repeat(size, |tracks|);
  }

  function Zip(tracks: seq<Track>, samplesPerTrack: seq<seq<Sample>>, tfdtPerTrack: seq<I64>): (r: seq<TrackInput>)
    requires |tracks| == |samplesPerTrack| == |tfdtPerTrack|
    ensures |r| == |tracks|
  {
    seq(|tracks|, i requires 0 <= i < |tracks| =>
      TrackInput(tracks[i].trackId, tracks[i].timescale, samplesPerTrack[i], tfdtPerTrack[i]))
  }

  /** Writes all boxes, with placeholders for the forward references. Returns where those stand, where each track's
      payload starts, counted from the moof, and where the moof starts. */
  method WriteBoxes(b: BoxBuilder, sequenceNumber: U32, inputs: seq<TrackInput>)
    returns (sizeOffsets: seq<nat>, dataOffsetPositions: seq<nat>, payloadOffsets: seq<nat>, moofStart: nat)
    requires b.buf == []
    modifies b
    ensures b.buf == EncodeAll(BoxesWith(sequenceNumber, inputs, Repeat(0, |inputs|), Repeat(0, |inputs|)))
    ensures |sizeOffsets| == |dataOffsetPositions| == |payloadOffsets| == |inputs|
    ensures forall i :: 0 <= i < |inputs| ==> sizeOffsets[i] == SizePos(i)
    ensures forall i :: 0 <= i < |inputs| ==>
              dataOffsetPositions[i] == if inputs[i].samples == [] then 0 else DataOffsetPos(inputs, i)
    ensures forall i :: 0 <= i < |inputs| ==>
              payloadOffsets[i] == MoofSize(sequenceNumber, inputs) + 8 + |Payload(inputs[..i])|
    ensures |b.buf| - moofStart == MoofSize(sequenceNumber, inputs) + Size(Mdat(inputs))
  {
    hide BE, Encode, EncodeAll, Size, SizeAll, BoxesWith, Moof, Sidxs, Mdat, Payload, Styp;
    ghost var zeros := Repeat(0, |inputs|);
    WriteStyp(b);
    sizeOffsets := WriteSidxs(b, inputs);
    moofStart := |b.buf|;
    dataOffsetPositions := WriteMoof(b, sequenceNumber, inputs);
    payloadOffsets := WriteMdat(b, inputs, moofStart);
    Assembled(sequenceNumber, inputs, zeros, zeros);
    SidxsSize(inputs, zeros);
    StypSize();
  }

  lemma PatchedBoxes(sequenceNumber: U32, inputs: seq<TrackInput>, size: U32)
    requires size == ToU32(MoofSize(sequenceNumber, inputs) + Size(Mdat(inputs)))
    ensures BoxesWith(sequenceNumber, inputs, Repeat(size % 0x8000_0000, |inputs|), DataOffsets(sequenceNumber, inputs))
         == SegmentBoxes(sequenceNumber, inputs)
  {
    hide BoxesWith, MoofSize, Size, Mdat, DataOffsets;
  }

  lemma OffsetIs(sequenceNumber: U32, inputs: seq<TrackInput>, i: nat)
    requires i <= |inputs|
    ensures ToU32(MoofSize(sequenceNumber, inputs) + 8 + |Payload(inputs[..i])|) == DataOffset(sequenceNumber, inputs, i)
  {
    hide MoofSize, Payload;
  }

  /** Every segment is the bytes of its tree of boxes, forward references included. */
  method BuildSegment(sequenceNumber: U32, tracks: seq<Track>, samplesPerTrack: seq<seq<Sample>>,
                      tfdtPerTrack: seq<I64>)
    returns (r: Result<seq<Byte>, string>)
    ensures |tracks| == |samplesPerTrack| == |tfdtPerTrack| ==>
              r == Ok(EncodeAll(SegmentBoxes(sequenceNumber, Zip(tracks, samplesPerTrack, tfdtPerTrack))))
    ensures !(|tracks| == |samplesPerTrack| == |tfdtPerTrack|) ==> r.Err?
  {
    hide Encode, EncodeAll, Size, SizeAll, BoxesWith, Mdat, Payload, MoofSize, SizePos, DataOffsetPos, Zip,
         SegmentBoxes, ReferencedSize, DataOffsets, ToU32;
    if |tracks| != |samplesPerTrack| || |tracks| != |tfdtPerTrack| {
      return Err("track/sample/tfdt size mismatch");
    }
    var inputs := Zip(tracks, samplesPerTrack, tfdtPerTrack);
    var b := new BoxBuilder();
    var sizeOffsets, dataOffsetPositions, payloadOffsets, moofStart := WriteBoxes(b, sequenceNumber, inputs);
    var totalSize := |b.buf|;
    forall i | 0 <= i < |inputs|
      ensures ToU32(payloadOffsets[i]) == DataOffset(sequenceNumber, inputs, i)
    {
      OffsetIs(sequenceNumber, inputs, i);
    }
    hide DataOffset;
    PatchDataOffsets(b, sequenceNumber, inputs, dataOffsetPositions, payloadOffsets);
    PatchSizes(b, sequenceNumber, inputs, DataOffsets(sequenceNumber, inputs), sizeOffsets,
               ToU32(totalSize - moofStart));
    PatchedBoxes(sequenceNumber, inputs, ToU32(totalSize - moofStart));
    var bytes := b.Take();
    return Ok(bytes);
  }

  /** What EndBox leaves when exactly the fields of a leaf box have been written since it was begun. */
  lemma EndLeaf(before: seq<Byte>, buf: seq<Byte>, box: Box)
    requires box.children == []
    requires buf == before + BE(4, 0) + BE(4, box.fourcc) + box.fields
    ensures |buf| - |before| == Size(box) && |before| + 4 <= |buf|
    ensures Patched(buf, |before|, Size(box)) == before + Encode(box)
  {
    assert buf == before + BE(4, 0) + BE(4, box.fourcc) + box.fields + [];
    Closed(before, box);
  }
}
