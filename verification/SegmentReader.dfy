/** A reader of movie fragments written from ISO/IEC 14496-12: boxes (4.2), movie fragment header (8.8.5), track
    fragment header (8.8.7), track fragment run (8.8.8), decode time (8.8.12), segment index (8.16.3). It reads
    fragments that are complete in themselves: data relative to the moof, and a size and duration for each sample. */
module SegmentReader {
  import opened Bytes
  import opened BoxTree
  import opened IsoTypes
  import opened Wrappers

  /** A segment index with one reference. `anchor` is the first byte the reference covers, `sap` tells what stream access
      point it starts with. */
  datatype Reference =
    Reference(trackId: nat, timescale: nat, ept: int, anchor: nat, size: nat, duration: nat, sap: nat)

  /** `flags` is None when the track's default sample flags apply. */
  datatype ReadSample = ReadSample(duration: nat, ctsOffset: int, flags: Option<nat>, data: seq<Byte>)

  datatype TrackFragment = TrackFragment(trackId: nat, tfdt: int, samples: seq<ReadSample>)

  datatype Fragment = Fragment(sequenceNumber: nat, references: seq<Reference>, tracks: seq<TrackFragment>)

  function Field(fields: seq<Byte>, at: nat, width: nat): Option<nat> {
    if at + width <= |fields| then Some(UnBE(fields[at..at + width])) else None
  }

  predicate Has(flags: nat, bit: nat)
    requires bit > 0
  {
    flags / bit % 2 == 1
  }

  /** The index of the first box of the given type. */
  function Find(boxes: seq<Box>, fourcc: FourCC): (r: Option<nat>)
    ensures r.Some? ==> r.value < |boxes| && boxes[r.value].fourcc == fourcc
  {
    if boxes == [] then None
    else if boxes[0].fourcc == fourcc then Some(0)
    else
      var i :- Find(boxes[1..], fourcc);
      Some(i + 1)
  }

  /** A sidx box that ends at byte `end` of the file. */
  function ReadSidx(sidx: Box, end: nat): Option<Reference> {
    var version :- Field(sidx.fields, 0, 1);
    var w: nat := if version == 0 then 4 else 8;
    var trackId :- Field(sidx.fields, 4, 4);
    var timescale :- Field(sidx.fields, 8, 4);
    var ept :- Field(sidx.fields, 12, w);
    var firstOffset :- Field(sidx.fields, 12 + w, w);
    var count :- Field(sidx.fields, 14 + 2 * w, 2);
    var reference :- Field(sidx.fields, 16 + 2 * w, 4);
    var duration :- Field(sidx.fields, 20 + 2 * w, 4);
    var sap :- Field(sidx.fields, 24 + 2 * w, 4);
    if count != 1 || reference >= 0x8000_0000 then None
    else Some(Reference(trackId, timescale, if w == 4 then ept else ToI64(ept), end + firstOffset, reference, duration,
                        sap))
  }

  /** The segment indexes among `boxes`, the first of which starts at byte `at` of the file. */
  function ReadReferences(boxes: seq<Box>, at: nat): Option<seq<Reference>> {
    if boxes == [] then Some([])
    else
      var rest :- ReadReferences(boxes[1..], at + Size(boxes[0]));
      if boxes[0].fourcc != ISO_SIDX then Some(rest)
      else
        var reference :- ReadSidx(boxes[0], at + Size(boxes[0]));
        Some([reference] + rest)
  }

  /** Which optional fields each sample of a run has. */
  datatype RunShape = RunShape(hasFlags: bool, hasCtsOffset: bool, signedCtsOffset: bool)

  /** `count` samples whose fields stand in `entries` and whose data starts at byte `at` of the file. */
  function ReadSamples(entries: seq<Byte>, count: nat, shape: RunShape, firstFlags: Option<nat>,
                       file: seq<Byte>, at: nat): Option<seq<ReadSample>>
    decreases count
  {
    if count == 0 then Some([])
    else
      var w := 8 + (if shape.hasFlags then 4 else 0);
      var duration :- Field(entries, 0, 4);
      var size :- Field(entries, 4, 4);
      var ownFlags :- (if shape.hasFlags then Field(entries, 8, 4) else Some(0));
      var cts :- (if shape.hasCtsOffset then Field(entries, w, 4) else Some(0));
      var width := w + if shape.hasCtsOffset then 4 else 0;
      if |entries| < width || |file| < at + size then None
      else
        var rest :- ReadSamples(entries[width..], count - 1, shape, None, file, at + size);
        var flags := if firstFlags.Some? then firstFlags else if shape.hasFlags then Some(ownFlags) else None;
        Some([ReadSample(duration, if shape.signedCtsOffset then ToI32(cts) else cts, flags, file[at..at + size])] + rest)
  }

  function ReadTrun(fields: seq<Byte>, file: seq<Byte>, moofStart: nat): Option<seq<ReadSample>> {
    var version :- Field(fields, 0, 1);
    var flags :- Field(fields, 1, 3);
    var count :- Field(fields, 4, 4);
    var dataOffset :- Field(fields, 8, 4);
    if !Has(flags, 0x1) || !Has(flags, 0x100) || !Has(flags, 0x200) || moofStart + ToI32(dataOffset) < 0 then None
    else
      var firstFlags :- (if Has(flags, 0x4) then Field(fields, 12, 4) else Some(0));
      var entriesAt := if Has(flags, 0x4) then 16 else 12;
      if |fields| < entriesAt then None
      else
        ReadSamples(fields[entriesAt..], count, RunShape(Has(flags, 0x400), Has(flags, 0x800), version != 0),
                    if Has(flags, 0x4) then Some(firstFlags) else None, file, moofStart + ToI32(dataOffset))
  }

  function ReadRuns(boxes: seq<Box>, file: seq<Byte>, moofStart: nat): Option<seq<ReadSample>> {
    if boxes == [] then Some([])
    else if boxes[0].fourcc != ISO_TRUN then ReadRuns(boxes[1..], file, moofStart)
    else
      var samples :- ReadTrun(boxes[0].fields, file, moofStart);
      var rest :- ReadRuns(boxes[1..], file, moofStart);
      Some(samples + rest)
  }

  function ReadTfhd(fields: seq<Byte>): Option<nat> {
    var flags :- Field(fields, 1, 3);
    if Has(flags, 0x1) || !Has(flags, 0x02_0000) then None else Field(fields, 4, 4)
  }

  function ReadTfdt(fields: seq<Byte>): Option<int> {
    var version :- Field(fields, 0, 1);
    if version == 0 then Field(fields, 4, 4)
    else
      var time :- Field(fields, 4, 8);
      Some(ToI64(time))
  }

  function ReadTraf(traf: Box, file: seq<Byte>, moofStart: nat): Option<TrackFragment> {
    var tfhd :- Find(traf.children, ISO_TFHD);
    var trackId :- ReadTfhd(traf.children[tfhd].fields);
    var tfdt :- Find(traf.children, ISO_TFDT);
    var time :- ReadTfdt(traf.children[tfdt].fields);
    var samples :- ReadRuns(traf.children, file, moofStart);
    Some(TrackFragment(trackId, time, samples))
  }

  function ReadTrafs(boxes: seq<Box>, file: seq<Byte>, moofStart: nat): Option<seq<TrackFragment>> {
    if boxes == [] then Some([])
    else
      var rest :- ReadTrafs(boxes[1..], file, moofStart);
      if boxes[0].fourcc != ISO_TRAF then Some(rest)
      else
        var track :- ReadTraf(boxes[0], file, moofStart);
        Some([track] + rest)
  }

  /** The movie fragment in `file`, with the segment indexes in front of it. */
  function ReadFragment(file: seq<Byte>): Option<Fragment> {
    var boxes :- Parse(file);
    var references :- ReadReferences(boxes, 0);
    var moof :- Find(boxes, ISO_MOOF);
    var mfhd :- Find(boxes[moof].children, ISO_MFHD);
    var sequenceNumber :- Field(boxes[moof].children[mfhd].fields, 4, 4);
    var tracks :- ReadTrafs(boxes[moof].children, file, SizeAll(boxes[..moof]));
    Some(Fragment(sequenceNumber, references, tracks))
  }
}
