/** A reader of init segments written from ISO/IEC 14496-12 (movie header 8.2.2, track header 8.3.2, media header
    8.4.2, handler 8.4.3, sample descriptions 8.5.2, edit list 8.6.6, track extends 8.8.3), ISO/IEC 14496-15 (avc1 and
    hev1), ISO/IEC 14496-14 (mp4a) and ISO/IEC 14496-1 (descriptors, 7.2.6 and 8.3.3). */
module InitReader {
  import opened Bytes
  import opened Wrappers
  import opened BoxTree
  import opened IsoTypes
  import opened SegmentReader

  /** A sample entry. `config` is the decoder configuration, None if there is none or it cannot be read. */
  datatype ReadEntry =
    | VisualEntry(format: FourCC, width: nat, height: nat, config: Option<seq<Byte>>)
    | SoundEntry(format: FourCC, channels: nat, sampleRate: nat, config: Option<seq<Byte>>)
    | OpaqueEntry(format: FourCC)

  /** `width` and `height` in 1/65536 pixels; `priming` is where the edit list starts. */
  datatype ReadTrack = ReadTrack(trackId: nat, width: nat, height: nat, priming: Option<int>, timescale: nat,
                                 language: seq<nat>, handler: nat, entry: ReadEntry)

  /** `defaults` holds a track id and the default sample flags for each trex. */
  datatype Movie = Movie(nextTrackId: nat, defaults: seq<(nat, nat)>, tracks: seq<ReadTrack>)

  function Child(boxes: seq<Box>, fourcc: FourCC): Option<Box> {
    var i :- Find(boxes, fourcc);
    Some(boxes[i])
  }

  // ---- descriptors ----

  /** A length of at most `most` bytes: seven bits a byte, and another byte while the top bit is set. */
  function ReadLength(s: seq<Byte>, most: nat, value: nat): Option<(nat, seq<Byte>)> {
    if most == 0 || s == [] then None
    else if s[0] < 0x80 then Some((value * 0x80 + s[0], s[1..]))
    else ReadLength(s[1..], most - 1, value * 0x80 + (s[0] - 0x80))
  }

  /** The payload of a descriptor, and what follows it. */
  function ReadDescriptor(s: seq<Byte>, tag: Byte): Option<(seq<Byte>, seq<Byte>)> {
    if s == [] || s[0] != tag then None
    else
      var length :- ReadLength(s[1..], 4, 0);
      if length.0 > |length.1| then None else Some((length.1[..length.0], length.1[length.0..]))
  }

  /** The decoder specific info inside an ES descriptor without optional fields. */
  function ReadDecoderSpecific(s: seq<Byte>): Option<seq<Byte>> {
    var es :- ReadDescriptor(s, 3);
    if |es.0| < 3 || es.0[2] != 0 then None
    else
      var dcd :- ReadDescriptor(es.0[3..], 4);
      if |dcd.0| < 13 then None
      else
        var dsi :- ReadDescriptor(dcd.0[13..], 5);
        Some(dsi.0)
  }

  function ReadEsds(esds: Box): Option<seq<Byte>> {
    if |esds.fields| < 4 then None else ReadDecoderSpecific(esds.fields[4..])
  }

  // ---- tracks ----

  function ReadEntryBox(entry: Box): Option<ReadEntry> {
    if entry.fourcc == ISO_AVC1 || entry.fourcc == ISO_HEV1 then
      var width :- Field(entry.fields, 24, 2);
      var height :- Field(entry.fields, 26, 2);
      var config := match Child(entry.children, if entry.fourcc == ISO_AVC1 then ISO_AVCC else ISO_HVCC)
                    case None => None
                    case Some(box) => Some(box.fields);
      Some(VisualEntry(entry.fourcc, width, height, config))
    else if entry.fourcc == ISO_MP4A then
      var channels :- Field(entry.fields, 16, 2);
      var rate :- Field(entry.fields, 24, 4);
      var config := match Child(entry.children, ISO_ESDS)
                    case None => None
                    case Some(box) => ReadEsds(box);
      Some(SoundEntry(entry.fourcc, channels, rate / 0x1_0000, config))
    else Some(OpaqueEntry(entry.fourcc))
  }

  /** A sample description with exactly one entry. */
  function ReadStsd(stsd: Box): Option<ReadEntry> {
    var count :- Field(stsd.fields, 4, 4);
    if count != 1 || |stsd.children| != 1 then None else ReadEntryBox(stsd.children[0])
  }

  /** Track id, width and height. */
  function ReadTkhd(fields: seq<Byte>): Option<(nat, nat, nat)> {
    var version :- Field(fields, 0, 1);
    var trackId :- Field(fields, if version == 0 then 12 else 20, 4);
    var width :- Field(fields, if version == 0 then 76 else 88, 4);
    var height :- Field(fields, if version == 0 then 80 else 92, 4);
    Some((trackId, width, height))
  }

  /** Three letters of five bits. */
  function Letters(packed: nat): seq<nat> {
    [packed / 1024 % 32 + 0x60, packed / 32 % 32 + 0x60, packed % 32 + 0x60]
  }

  /** Timescale and language. */
  function ReadMdhd(fields: seq<Byte>): Option<(nat, seq<nat>)> {
    var version :- Field(fields, 0, 1);
    var timescale :- Field(fields, if version == 0 then 12 else 20, 4);
    var packed :- Field(fields, if version == 0 then 20 else 32, 2);
    Some((timescale, Letters(packed)))
  }

  /** The media time of an edit list with a single edit. */
  function ReadElst(fields: seq<Byte>): Option<int> {
    var version :- Field(fields, 0, 1);
    var count :- Field(fields, 4, 4);
    var time :- Field(fields, if version == 0 then 12 else 16, if version == 0 then 4 else 8);
    if count != 1 then None else Some(if version == 0 then ToI32(time) else ToI64(time))
  }

  /** Where the presentation of a track starts; None without an edit list. */
  function ReadPriming(children: seq<Box>): Option<Option<int>> {
    match Child(children, ISO_EDTS)
    case None => Some(None)
    case Some(edts) =>
      var elst :- Child(edts.children, ISO_ELST);
      var time :- ReadElst(elst.fields);
      Some(Some(time))
  }

  function ReadMdia(mdia: Box): Option<(nat, seq<nat>, nat, ReadEntry)> {
    var mdhd :- Child(mdia.children, ISO_MDHD);
    var media :- ReadMdhd(mdhd.fields);
    var hdlr :- Child(mdia.children, ISO_HDLR);
    var handler :- Field(hdlr.fields, 8, 4);
    var minf :- Child(mdia.children, ISO_MINF);
    var stbl :- Child(minf.children, ISO_STBL);
    var stsd :- Child(stbl.children, ISO_STSD);
    var entry :- ReadStsd(stsd);
    Some((media.0, media.1, handler, entry))
  }

  function ReadTrak(trak: Box): Option<ReadTrack> {
    var tkhd :- Child(trak.children, ISO_TKHD);
    var header :- ReadTkhd(tkhd.fields);
    var priming :- ReadPriming(trak.children);
    var mdia :- Child(trak.children, ISO_MDIA);
    var media :- ReadMdia(mdia);
    Some(ReadTrack(header.0, header.1, header.2, priming, media.0, media.1, media.2, media.3))
  }

  function ReadTraks(boxes: seq<Box>): Option<seq<ReadTrack>> {
    if boxes == [] then Some([])
    else
      var rest :- ReadTraks(boxes[1..]);
      if boxes[0].fourcc != ISO_TRAK then Some(rest)
      else
        var track :- ReadTrak(boxes[0]);
        Some([track] + rest)
  }

  function ReadTrexs(boxes: seq<Box>): Option<seq<(nat, nat)>> {
    if boxes == [] then Some([])
    else
      var rest :- ReadTrexs(boxes[1..]);
      if boxes[0].fourcc != ISO_TREX then Some(rest)
      else
        var trackId :- Field(boxes[0].fields, 4, 4);
        var flags :- Field(boxes[0].fields, 20, 4);
        Some([(trackId, flags)] + rest)
  }

  function ReadMvhd(fields: seq<Byte>): Option<nat> {
    var version :- Field(fields, 0, 1);
    Field(fields, if version == 0 then 96 else 108, 4)
  }

  /** The movie that an init segment declares. */
  function ReadInit(file: seq<Byte>): Option<Movie> {
    var boxes :- Parse(file);
    var moov :- Child(boxes, ISO_MOOV);
    var mvhd :- Child(moov.children, ISO_MVHD);
    var nextTrackId :- ReadMvhd(mvhd.fields);
    var mvex :- Child(moov.children, ISO_MVEX);
    var defaults :- ReadTrexs(mvex.children);
    var tracks :- ReadTraks(moov.children);
    Some(Movie(nextTrackId, defaults, tracks))
  }
}
