/** The tree of boxes that a media segment is meant to be, as a function of its inputs (src/Fmp4Writer.cpp). */
module SegmentLayout {
  import opened Bytes
  import opened BoxTree
  import opened BoxBuilding

  /** A coded sample. The source's `size` is the number of bytes of `data`. */
  datatype Sample = Sample(data: seq<Byte>, dts: I64, duration: U32, ctsOffset: I32, isKeyframe: bool)

  /** What one track contributes to a segment. */
  datatype TrackInput = TrackInput(trackId: U32, timescale: U32, samples: seq<Sample>, tfdt: I64)

  const BRAND_MSDH: FourCC := 0x6D736468
  const BRAND_MSIX: FourCC := 0x6D736978
  const DEFAULT_BASE_IS_MOOF: U24 := 0x02_0000
  /** data offset, first sample flags, and per sample a duration, a size and a composition time offset. */
  const TRUN_FLAGS: U24 := 0xB05
  const KEY_SAMPLE_FLAGS: U32 := 0x0200_0000
  const STARTS_WITH_SAP_1: U32 := 0x9000_0000

  function Styp(): Box {
    Box(STYP, BE(4, BRAND_MSDH) + BE(4, 0) + BE(4, BRAND_MSDH) + BE(4, BRAND_MSIX), [])
  }

  function Sidx(trackId: U32, timescale: U32, ept: int, duration: U32, referencedSize: nat): Box {
    Box(SIDX,
        (FullBoxHeader(1, 0) + BE(4, trackId) + BE(4, timescale) + BE(8, ToU64(ept)) + BE(8, 0) + BE(2, 0) + BE(2, 1))
        + BE(4, referencedSize) + (BE(4, duration) + BE(4, STARTS_WITH_SAP_1)), [])
  }

  function Mfhd(sequenceNumber: U32): Box {
    Box(MFHD, FullBoxHeader(0, 0) + BE(4, sequenceNumber), [])
  }

  function Tfhd(trackId: U32): Box {
    Box(TFHD, FullBoxHeader(0, DEFAULT_BASE_IS_MOOF) + BE(4, trackId), [])
  }

  function Tfdt(baseMediaDecodeTime: int): Box {
    Box(TFDT, FullBoxHeader(1, 0) + BE(8, ToU64(baseMediaDecodeTime)), [])
  }

  function TrunEntry(s: Sample): (e: seq<Byte>)
    ensures |e| == 12
  {
    BE(4, s.duration) + BE(4, ToU32(|s.data|)) + BE(4, ToU32(s.ctsOffset))
  }

  function TrunEntries(samples: seq<Sample>): (e: seq<Byte>)
    ensures |e| == 12 * |samples|
  {
    if samples == [] then [] else TrunEntries(samples[..|samples| - 1]) + TrunEntry(samples[|samples| - 1])
  }

  function Trun(samples: seq<Sample>, dataOffset: nat): Box {
    Box(TRUN,
        (FullBoxHeader(1, TRUN_FLAGS) + BE(4, ToU32(|samples|)))
        + BE(4, dataOffset) + (BE(4, KEY_SAMPLE_FLAGS) + TrunEntries(samples)), [])
  }

  /** A track fragment; one without samples has no run. */
  function Traf(track: TrackInput, dataOffset: nat): Box {
    Box(TRAF, [], [Tfhd(track.trackId), Tfdt(track.tfdt)]
                  + (if track.samples == [] then [] else [Trun(track.samples, dataOffset)]))
  }

  function Trafs(tracks: seq<TrackInput>, dataOffsets: seq<nat>): (boxes: seq<Box>)
    requires |dataOffsets| == |tracks|
    ensures |boxes| == |tracks|
  {
    seq(|tracks|, i requires 0 <= i < |tracks| => Traf(tracks[i], dataOffsets[i]))
  }

  function Moof(sequenceNumber: U32, tracks: seq<TrackInput>, dataOffsets: seq<nat>): Box
    requires |dataOffsets| == |tracks|
  {
    Box(MOOF, [], [Mfhd(sequenceNumber)] + Trafs(tracks, dataOffsets))
  }

  function SamplePayload(samples: seq<Sample>): seq<Byte> {
    if samples == [] then [] else SamplePayload(samples[..|samples| - 1]) + samples[|samples| - 1].data
  }

  function Payload(tracks: seq<TrackInput>): seq<Byte> {
    if tracks == [] then [] else Payload(tracks[..|tracks| - 1]) + SamplePayload(tracks[|tracks| - 1].samples)
  }

  function Mdat(tracks: seq<TrackInput>): Box {
    Box(MDAT, Payload(tracks), [])
  }

  /** The first sample's presentation time, not the earliest one; the decode time of a track without samples. */
  function FirstPresentationTime(track: TrackInput): int {
    if track.samples == [] then track.tfdt else track.samples[0].dts + track.samples[0].ctsOffset
  }

  function TotalDuration(samples: seq<Sample>): nat {
    if samples == [] then 0 else TotalDuration(samples[..|samples| - 1]) + samples[|samples| - 1].duration
  }

  function SidxOf(track: TrackInput, referencedSize: nat): Box {
    Sidx(track.trackId, track.timescale, FirstPresentationTime(track), ToU32(TotalDuration(track.samples)), referencedSize)
  }

  function Sidxs(tracks: seq<TrackInput>, sizes: seq<nat>): (boxes: seq<Box>)
    requires |sizes| == |tracks|
    ensures |boxes| == |tracks|
  {
    seq(|tracks|, i requires 0 <= i < |tracks| => SidxOf(tracks[i], sizes[i]))
  }

  /** The boxes of a segment with the given values in its forward references. */
  function BoxesWith(sequenceNumber: U32, tracks: seq<TrackInput>, sizes: seq<nat>, dataOffsets: seq<nat>): seq<Box>
    requires |sizes| == |dataOffsets| == |tracks|
  {
    [Styp()] + Sidxs(tracks, sizes) + [Moof(sequenceNumber, tracks, dataOffsets), Mdat(tracks)]
  }

  function Repeat(v: nat, n: nat): (s: seq<nat>)
    ensures |s| == n && forall i :: 0 <= i < n ==> s[i] == v
  {
    seq(n, i => v)
  }

  /** A forward reference has the same width whatever its value, so sizes can be known before values. */
  function MoofSize(sequenceNumber: U32, tracks: seq<TrackInput>): nat {
    Size(Moof(sequenceNumber, tracks, Repeat(0, |tracks|)))
  }

  /** Where the payload of track `i` starts, counted from the start of the moof. */
  function DataOffset(sequenceNumber: U32, tracks: seq<TrackInput>, i: nat): U32
    requires i <= |tracks|
  {
    ToU32(MoofSize(sequenceNumber, tracks) + 8 + |Payload(tracks[..i])|)
  }

  function DataOffsets(sequenceNumber: U32, tracks: seq<TrackInput>): (s: seq<nat>)
    ensures |s| == |tracks|
  {
    seq(|tracks|, i requires 0 <= i < |tracks| => DataOffset(sequenceNumber, tracks, i))
  }

  /** The bytes that every segment index refers to: the moof and the mdat, in 31 bits. */
  function ReferencedSize(sequenceNumber: U32, tracks: seq<TrackInput>): nat {
    (MoofSize(sequenceNumber, tracks) + Size(Mdat(tracks))) % 0x8000_0000
  }

  /** The boxes of a segment: styp, one sidx a track, moof, mdat. */
  function SegmentBoxes(sequenceNumber: U32, tracks: seq<TrackInput>): seq<Box> {
    BoxesWith(sequenceNumber, tracks,
              Repeat(ReferencedSize(sequenceNumber, tracks), |tracks|), DataOffsets(sequenceNumber, tracks))
  }

  const STYP_SIZE: nat := 24
  const SIDX_SIZE: nat := 52

  function SegmentSize(sequenceNumber: U32, tracks: seq<TrackInput>): nat {
    STYP_SIZE + SIDX_SIZE * |tracks| + MoofSize(sequenceNumber, tracks) + Size(Mdat(tracks))
  }

  function SegmentBytes(sequenceNumber: U32, tracks: seq<TrackInput>): seq<Byte> {
    EncodeAll(SegmentBoxes(sequenceNumber, tracks))
  }

  lemma LeafSizes(track: TrackInput, v: nat, sequenceNumber: U32)
    ensures Size(Styp()) == STYP_SIZE
    ensures Size(SidxOf(track, v)) == SIDX_SIZE
    ensures Size(Mfhd(sequenceNumber)) == 16
    ensures Size(Tfhd(track.trackId)) == 16
    ensures Size(Tfdt(track.tfdt)) == 20
    ensures Size(Trun(track.samples, v)) == 24 + 12 * |track.samples|
  {
  }

  lemma TrafSize(track: TrackInput, v: nat)
    ensures Size(Traf(track, v)) == if track.samples == [] then 44 else 68 + 12 * |track.samples|
  {
    LeafSizes(track, v, 0);
    var hdr := [Tfhd(track.trackId), Tfdt(track.tfdt)];
    SizeAllConcat(hdr[..1], hdr[1..]);
    SizeAllConcat(hdr, Traf(track, v).children[2..]);
    assert hdr == hdr[..1] + hdr[1..];
    assert Traf(track, v).children == hdr + Traf(track, v).children[2..];
  }

  lemma SizeAllConcat(a: seq<Box>, b: seq<Box>)
    ensures SizeAll(a + b) == SizeAll(a) + SizeAll(b)
  {
    EncodeAllConcat(a, b);
  }

  lemma SizeAllOne(box: Box)
    ensures SizeAll([box]) == Size(box) && EncodeAll([box]) == Encode(box)
  {
  }

  /** Boxes that agree in size one by one take the same room. */
  lemma {:induction false} SameSizes(a: seq<Box>, b: seq<Box>)
    requires |a| == |b| && forall i :: 0 <= i < |a| ==> Size(a[i]) == Size(b[i])
    ensures SizeAll(a) == SizeAll(b)
  {
    if a != [] {
      SameSizes(a[1..], b[1..]);
    }
  }

  lemma MoofSizeFixed(sequenceNumber: U32, tracks: seq<TrackInput>, dataOffsets: seq<nat>)
    requires |dataOffsets| == |tracks|
    ensures Size(Moof(sequenceNumber, tracks, dataOffsets)) == MoofSize(sequenceNumber, tracks)
  {
    var zeros := Repeat(0, |tracks|);
    forall i | 0 <= i < |tracks|
      ensures Size(Trafs(tracks, dataOffsets)[i]) == Size(Trafs(tracks, zeros)[i])
    {
      TrafSize(tracks[i], dataOffsets[i]);
      TrafSize(tracks[i], zeros[i]);
    }
    SameSizes(Moof(sequenceNumber, tracks, dataOffsets).children, Moof(sequenceNumber, tracks, zeros).children);
  }

  lemma {:induction false} SidxsSize(tracks: seq<TrackInput>, sizes: seq<nat>)
    requires |sizes| == |tracks|
    ensures SizeAll(Sidxs(tracks, sizes)) == SIDX_SIZE * |tracks|
  {
    hide Size, SidxOf;
    if tracks != [] {
      LeafSizes(tracks[0], sizes[0], 0);
      SidxsSize(tracks[1..], sizes[1..]);
      assert Sidxs(tracks, sizes)[1..] == Sidxs(tracks[1..], sizes[1..]);
    }
  }

  /** The referenced size field is 40 bytes into its sidx; patching it changes that field alone. */
  lemma PatchSidx(track: TrackInput, before: nat, after: nat)
    ensures Patched(Encode(SidxOf(track, before)), 40, after) == Encode(SidxOf(track, after))
  {
    var a, b := SidxOf(track, before), SidxOf(track, after);
    var head := FullBoxHeader(1, 0) + BE(4, track.trackId) + BE(4, track.timescale)
                + BE(8, ToU64(FirstPresentationTime(track))) + BE(8, 0) + BE(2, 0) + BE(2, 1);
    var tail := BE(4, ToU32(TotalDuration(track.samples))) + BE(4, STARTS_WITH_SAP_1);
    PatchField(a, b, head, before, after, tail);
  }

  /** The data offset field is 16 bytes into its trun. */
  lemma PatchTrun(samples: seq<Sample>, before: nat, after: nat)
    ensures Patched(Encode(Trun(samples, before)), 16, after) == Encode(Trun(samples, after))
  {
    PatchField(Trun(samples, before), Trun(samples, after),
               FullBoxHeader(1, TRUN_FLAGS) + BE(4, ToU32(|samples|)), before, after,
               BE(4, KEY_SAMPLE_FLAGS) + TrunEntries(samples));
  }

  lemma PatchField(a: Box, b: Box, head: seq<Byte>, before: nat, after: nat, tail: seq<Byte>)
    requires a.fourcc == b.fourcc && a.children == b.children == []
    requires a.fields == head + BE(4, before) + tail && b.fields == head + BE(4, after) + tail
    ensures Size(a) == 12 + |head| + |tail| && Patched(Encode(a), 8 + |head|, after) == Encode(b)
  {
    hide *;
    Leaf(a);
    Leaf(b);
    PatchFieldBytes(BE(4, Size(a)) + BE(4, a.fourcc), head, BE(4, before), tail, after);
  }

  lemma Leaf(box: Box)
    requires box.children == []
    ensures Size(box) == 8 + |box.fields|
    ensures Encode(box) == BE(4, Size(box)) + BE(4, box.fourcc) + box.fields
  {
  }

  lemma PatchFieldBytes(h: seq<Byte>, head: seq<Byte>, field: seq<Byte>, tail: seq<Byte>, value: nat)
    requires |field| == 4
    ensures Patched(h + (head + field + tail), |h| + |head|, value) == h + (head + BE(4, value) + tail)
  {
  }

  /** Patching inside one box of a sequence replaces that box. */
  lemma PatchInList(before: seq<Byte>, boxes: seq<Box>, after: seq<Byte>, i: nat, box: Box, offset: nat, value: nat)
    requires i < |boxes| && offset + 4 <= Size(boxes[i])
    requires Patched(Encode(boxes[i]), offset, value) == Encode(box)
    ensures var pos := |before| + SizeAll(boxes[..i]) + offset;
            var s := before + EncodeAll(boxes) + after;
            pos + 4 <= |s| && Patched(s, pos, value) == before + EncodeAll(boxes[i := box]) + after
  {
    hide *;
    var p, r := EncodeAll(boxes[..i]), EncodeAll(boxes[i + 1..]);
    EncodeAllSplit(boxes, i);
    EncodeAllSplit(boxes[i := box], i);
    assert boxes[i := box][..i] == boxes[..i] && boxes[i := box][i + 1..] == boxes[i + 1..];
    var s := before + EncodeAll(boxes) + after;
    Associate(before, p, Encode(boxes[i]), r);
    Associate(before, p, Encode(box), r);
    Associate(before + p, Encode(boxes[i]), r, after);
    Associate(before + p, Encode(box), r, after);
    PatchedInside(before + p, Encode(boxes[i]), r + after, offset, value);
  }

  /** Patching inside one child of a box replaces that child. */
  lemma PatchInChild(box: Box, i: nat, child: Box, offset: nat, value: nat)
    requires i < |box.children| && offset + 4 <= Size(box.children[i])
    requires Patched(Encode(box.children[i]), offset, value) == Encode(child)
    ensures var pos := 8 + |box.fields| + SizeAll(box.children[..i]) + offset;
            && pos + 4 <= Size(box)
            && Patched(Encode(box), pos, value) == Encode(box.(children := box.children[i := child]))
  {
    var box' := box.(children := box.children[i := child]);
    var header := BE(4, Size(box)) + BE(4, box.fourcc) + box.fields;
    PatchInList(header, box.children, [], i, child, offset, value);
    SameLength(box.children, i, child);
    assert Encode(box) == header + EncodeAll(box.children) + [];
    assert Encode(box') == header + EncodeAll(box'.children) + [];
  }

  lemma SameLength(boxes: seq<Box>, i: nat, box: Box)
    requires i < |boxes| && Size(box) == Size(boxes[i])
    ensures SizeAll(boxes[i := box]) == SizeAll(boxes)
  {
    SameSizes(boxes, boxes[i := box]);
  }

  /** Where the data offset of track `i` stands in the segment. */
  function DataOffsetPos(tracks: seq<TrackInput>, i: nat): nat
    requires i < |tracks|
  {
    STYP_SIZE + SIDX_SIZE * |tracks| + 24 + SizeAll(Trafs(tracks[..i], Repeat(0, i))) + 60
  }

  function SizePos(i: nat): nat {
    STYP_SIZE + SIDX_SIZE * i + 40
  }

  lemma PatchTraf(track: TrackInput, before: nat, after: nat)
    requires track.samples != []
    ensures Size(Traf(track, before)) >= 64
    ensures Patched(Encode(Traf(track, before)), 60, after) == Encode(Traf(track, after))
  {
    hide Encode, EncodeAll, Patched, BE, Tfhd, Tfdt, Trun;
    var traf := Traf(track, before);
    LeafSizes(track, before, 0);
    PatchTrun(track.samples, before, after);
    assert SizeAll(traf.children[..2]) == 36 by {
      assert traf.children[..2] == [traf.children[0]] + [traf.children[1]];
      SizeAllConcat([traf.children[0]], [traf.children[1]]);
    }
    PatchInChild(traf, 2, Trun(track.samples, after), 16, after);
    assert traf.(children := traf.children[2 := Trun(track.samples, after)]) == Traf(track, after);
  }

  lemma PatchMoof(sequenceNumber: U32, tracks: seq<TrackInput>, dataOffsets: seq<nat>, i: nat, value: nat)
    requires |dataOffsets| == |tracks| && i < |tracks| && tracks[i].samples != []
    ensures var moof, pos := Moof(sequenceNumber, tracks, dataOffsets), 24 + SizeAll(Trafs(tracks[..i], Repeat(0, i))) + 60;
            && pos + 4 <= Size(moof)
            && Patched(Encode(moof), pos, value) == Encode(Moof(sequenceNumber, tracks, dataOffsets[i := value]))
  {
    hide Encode, EncodeAll, Size, SizeAll, Patched, BE, Traf, Styp, Sidx, SidxOf, Mdat, Mfhd;
    var moof := Moof(sequenceNumber, tracks, dataOffsets);
    PatchTraf(tracks[i], dataOffsets[i], value);
    PatchInChild(moof, i + 1, Traf(tracks[i], value), 60, value);
    assert moof.children[..i + 1] == [Mfhd(sequenceNumber)] + Trafs(tracks, dataOffsets)[..i];
    SizeAllConcat([Mfhd(sequenceNumber)], Trafs(tracks, dataOffsets)[..i]);
    SizeAllOne(Mfhd(sequenceNumber));
    LeafSizes(tracks[i], 0, sequenceNumber);
    forall j | 0 <= j < i
      ensures Size(Trafs(tracks, dataOffsets)[j]) == Size(Trafs(tracks[..i], Repeat(0, i))[j])
    {
      TrafSize(tracks[j], dataOffsets[j]);
      TrafSize(tracks[j], 0);
    }
    SameSizes(Trafs(tracks, dataOffsets)[..i], Trafs(tracks[..i], Repeat(0, i)));
    assert moof.children[i + 1 := Traf(tracks[i], value)]
        == [Mfhd(sequenceNumber)] + Trafs(tracks, dataOffsets[i := value]);
  }

  /** Patching at DataOffsetPos sets the data offset of that track and changes no other byte of the segment. */
  lemma PatchDataOffset(sequenceNumber: U32, tracks: seq<TrackInput>, sizes: seq<nat>, dataOffsets: seq<nat>,
                        i: nat, value: nat)
    requires |sizes| == |dataOffsets| == |tracks| && i < |tracks| && tracks[i].samples != []
    ensures var s := EncodeAll(BoxesWith(sequenceNumber, tracks, sizes, dataOffsets));
            && DataOffsetPos(tracks, i) + 4 <= |s|
            && Patched(s, DataOffsetPos(tracks, i), value)
            == EncodeAll(BoxesWith(sequenceNumber, tracks, sizes, dataOffsets[i := value]))
  {
    hide Encode, EncodeAll, Size, SizeAll, Patched, BE, Traf, Styp, Sidx, SidxOf, Mdat, Mfhd;
    var boxes := BoxesWith(sequenceNumber, tracks, sizes, dataOffsets);
    var moof' := Moof(sequenceNumber, tracks, dataOffsets[i := value]);
    PatchMoof(sequenceNumber, tracks, dataOffsets, i, value);
    PatchInList([], boxes, [], |tracks| + 1, moof', 24 + SizeAll(Trafs(tracks[..i], Repeat(0, i))) + 60, value);
    HeadSize(sequenceNumber, tracks, sizes, dataOffsets, |tracks|);
    assert boxes[|tracks| + 1 := moof'] == BoxesWith(sequenceNumber, tracks, sizes, dataOffsets[i := value]);
    Brackets(EncodeAll(boxes));
    Brackets(EncodeAll(boxes[|tracks| + 1 := moof']));
  }

  lemma HeadSize(sequenceNumber: U32, tracks: seq<TrackInput>, sizes: seq<nat>, dataOffsets: seq<nat>, i: nat)
    requires |sizes| == |dataOffsets| == |tracks| && i <= |tracks|
    ensures SizeAll(BoxesWith(sequenceNumber, tracks, sizes, dataOffsets)[..i + 1]) == STYP_SIZE + SIDX_SIZE * i
  {
    var boxes := BoxesWith(sequenceNumber, tracks, sizes, dataOffsets);
    assert boxes[..i + 1] == [Styp()] + Sidxs(tracks[..i], sizes[..i]);
    SizeAllConcat([Styp()], Sidxs(tracks[..i], sizes[..i]));
    SidxsSize(tracks[..i], sizes[..i]);
    assert Size(Styp()) == STYP_SIZE;
  }

  lemma Brackets(s: seq<Byte>)
    ensures [] + s + [] == s
  {
  }

  /** Patching at SizePos sets the size that index refers to and changes no other byte of the segment. */
  lemma PatchReferencedSize(sequenceNumber: U32, tracks: seq<TrackInput>, sizes: seq<nat>, dataOffsets: seq<nat>,
                            i: nat, value: nat)
    requires |sizes| == |dataOffsets| == |tracks| && i < |tracks|
    ensures var s := EncodeAll(BoxesWith(sequenceNumber, tracks, sizes, dataOffsets));
            && SizePos(i) + 4 <= |s|
            && Patched(s, SizePos(i), value)
            == EncodeAll(BoxesWith(sequenceNumber, tracks, sizes[i := value], dataOffsets))
  {
    hide Encode, EncodeAll, Size, SizeAll, Patched, BE, Traf, Styp, Sidx, SidxOf, Mdat, Mfhd;
    var boxes := BoxesWith(sequenceNumber, tracks, sizes, dataOffsets);
    var sidx' := SidxOf(tracks[i], value);
    LeafSizes(tracks[i], sizes[i], 0);
    PatchSidx(tracks[i], sizes[i], value);
    PatchInList([], boxes, [], i + 1, sidx', 40, value);
    HeadSize(sequenceNumber, tracks, sizes, dataOffsets, i);
    assert boxes[i + 1 := sidx'] == BoxesWith(sequenceNumber, tracks, sizes[i := value], dataOffsets);
    Brackets(EncodeAll(boxes));
    Brackets(EncodeAll(boxes[i + 1 := sidx']));
  }

  lemma EncodeAllSplit(boxes: seq<Box>, i: nat)
    requires i < |boxes|
    ensures EncodeAll(boxes) == EncodeAll(boxes[..i]) + Encode(boxes[i]) + EncodeAll(boxes[i + 1..])
  {
    hide *;
    var a, b, c := boxes[..i], boxes[i], boxes[i + 1..];
    SplitAt(boxes, i);
    EncodeAllConcat(a, [b] + c);
    EncodeAllCons(b, c);
    Associates(EncodeAll(a), Encode(b), EncodeAll(c));
  }

  lemma SplitAt<T>(s: seq<T>, i: nat)
    requires i < |s|
    ensures s == s[..i] + ([s[i]] + s[i + 1..])
  {
  }

  lemma Associates(a: seq<Byte>, b: seq<Byte>, c: seq<Byte>)
    ensures a + (b + c) == a + b + c
  {
  }

  lemma EncodeAllCons(box: Box, rest: seq<Box>)
    ensures EncodeAll([box] + rest) == Encode(box) + EncodeAll(rest)
  {
    assert ([box] + rest)[1..] == rest;
  }
}
