/** Reading the beginning of a Matroska file: where its Cues are, its time scale and its video track
    (parse_cues_location and parse_segment_info in src/EbmlParser.h; RFC 9559, sections 5.1.1 to 5.1.4). */
module MkvHeader {
  import opened Bytes
  import opened Wrappers
  import opened Ebml
  import opened Cues

  const EBML_HEADER: nat := 0x1A45DFA3
  const SEGMENT: nat := 0x18538067
  const SEEK_HEAD: nat := 0x114D9B74
  const SEEK: nat := 0x4DBB
  const SEEK_ID: nat := 0x53AB
  const SEEK_POSITION: nat := 0x53AC
  const INFO: nat := 0x1549A966
  const TIMESTAMP_SCALE: nat := 0x2AD7B1
  const TRACKS: nat := 0x1654AE6B
  const TRACK_ENTRY: nat := 0xAE
  const TRACK_NUMBER: nat := 0xD7
  const TRACK_TYPE: nat := 0x83

  const DEFAULT_TIMESTAMP_SCALE: int := 1000000

  /** `size` is 0 when unknown. */
  datatype CuesLocation = CuesLocation(offset: int, size: nat, segmentStart: nat)

  datatype SegmentInfo = SegmentInfo(timestampScale: int, videoTrack: int)

  // ---- finding the segment ----

  /** Where the last EBML header among the visits ends. */
  function HeaderEnd(visits: seq<Visit>): Option<nat> {
    if visits == [] then None
    else
      var v := visits[|visits| - 1];
      if v.id == EBML_HEADER then Some(v.offset + v.size) else HeaderEnd(visits[..|visits| - 1])
  }

  /** Where the children of the segment start. */
  function SegmentStart(buf: seq<Byte>): (r: Option<nat>)
    ensures r.Some? ==> r.value <= |buf|
  {
    if |buf| < 32 then None
    else
      var pos :- HeaderEnd(Scan(buf, 0));
      if pos >= |buf| then None
      else
        var id :- ReadId(buf[pos..]);
        if id.value != SEGMENT then None
        else
          var size :- ReadSize(buf[pos + id.width..]);
          Some(pos + id.width + size.width)
  }

  method FindSegmentStart(buf: seq<Byte>) returns (start: Option<nat>)
    ensures start == SegmentStart(buf)
  {
    hide ReadId, ReadSize;
    if |buf| < 32 {
      return None;
    }
    var visits := EbmlScanChildren(buf, 0);
    var headerEnd: Option<nat> := None;
    for i := 0 to |visits|
      invariant headerEnd == HeaderEnd(visits[..i])
    {
      assert visits[..i + 1][..i] == visits[..i];
      if visits[i].id == EBML_HEADER {
        headerEnd := Some(visits[i].offset + visits[i].size);
      }
    }
    assert visits[..|visits|] == visits;
    if headerEnd == None || headerEnd.value >= |buf| {
      return None;
    }
    var pos := headerEnd.value;
    var idBytes, id := EbmlReadId(buf[pos..]);
    if idBytes == 0 || id != SEGMENT {
      return None;
    }
    var sizeBytes, size := EbmlReadSize(buf[pos + idBytes..]);
    if sizeBytes == 0 {
      return None;
    }
    return Some(pos + idBytes + sizeBytes);
  }

  // ---- the seek head ----

  /** The variables a visitor of Seek assigns. */
  datatype SeekEntry = SeekEntry(id: Option<nat>, position: Option<nat>)

  function SeekStep(s: SeekEntry, v: Visit): SeekEntry {
    if v.id == SEEK_ID then s.(id := Some(ReadUint(v.data)))
    else if v.id == SEEK_POSITION then s.(position := Some(ReadUint(v.data)))
    else s
  }

  function FoldSeek(visits: seq<Visit>): SeekEntry {
    if visits == [] then SeekEntry(None, None)
    else SeekStep(FoldSeek(visits[..|visits| - 1]), visits[|visits| - 1])
  }

  function ReadSeek(data: seq<Byte>): SeekEntry {
    FoldSeek(Scan(data, 0))
  }

  /** The position that a Seek entry gives for the Cues. */
  function SeekToCues(data: seq<Byte>): Option<nat> {
    var s := ReadSeek(data);
    if s.id == Some(CUES) then s.position else None
  }

  function SeekHeadStep(found: Option<nat>, v: Visit): Option<nat> {
    if v.id == SEEK && SeekToCues(v.data).Some? then SeekToCues(v.data) else found
  }

  /** The last position given for the Cues, after `found` in earlier seek heads. */
  function FoldSeekHead(found: Option<nat>, visits: seq<Visit>): Option<nat> {
    if visits == [] then found
    else SeekHeadStep(FoldSeekHead(found, visits[..|visits| - 1]), visits[|visits| - 1])
  }

  function FoldSegment(visits: seq<Visit>): Option<nat> {
    if visits == [] then None
    else
      var found, v := FoldSegment(visits[..|visits| - 1]), visits[|visits| - 1];
      if v.id == SEEK_HEAD then FoldSeekHead(found, Scan(v.data, 0)) else found
  }

  /** The whole size of the Cues element at `offset` if its header is in the buffer, 0 otherwise. */
  function CuesSizeAt(buf: seq<Byte>, offset: int): nat {
    if offset < 0 || offset >= |buf| then 0
    else
      match ReadId(buf[offset..])
      case None => 0
      case Some(id) =>
        if id.value != CUES then 0
        else
          match ReadSize(buf[offset + id.width..])
          case None => 0
          case Some(size) => if size.value > 0 then id.width + size.width + size.value else 0
  }

  function LocateCues(buf: seq<Byte>): Option<CuesLocation> {
    var start :- SegmentStart(buf);
    var position :- FoldSegment(Scan(buf[start..], start));
    var offset := start + ToI64(position);
    Some(CuesLocation(offset, CuesSizeAt(buf, offset), start))
  }

  method ParseSeek(data: seq<Byte>) returns (s: SeekEntry)
    ensures s == ReadSeek(data)
  {
    var visits := EbmlScanChildren(data, 0);
    s := SeekEntry(None, None);
    for i := 0 to |visits|
      invariant s == FoldSeek(visits[..i])
    {
      assert visits[..i + 1][..i] == visits[..i];
      var v := EbmlReadUint(visits[i].data);
      if visits[i].id == SEEK_ID {
        s := s.(id := Some(v));
      } else if visits[i].id == SEEK_POSITION {
        s := s.(position := Some(v));
      }
    }
    assert visits[..|visits|] == visits;
  }

  method ParseSeekHead(before: Option<nat>, data: seq<Byte>) returns (found: Option<nat>)
    ensures found == FoldSeekHead(before, Scan(data, 0))
  {
    hide ReadSeek;
    var visits := EbmlScanChildren(data, 0);
    found := before;
    for i := 0 to |visits|
      invariant found == FoldSeekHead(before, visits[..i])
    {
      assert visits[..i + 1][..i] == visits[..i];
      if visits[i].id == SEEK {
        var s := ParseSeek(visits[i].data);
        if s.id.Some? && s.position.Some? && s.id.value == CUES {
          found := s.position;
        }
      }
    }
    assert visits[..|visits|] == visits;
  }

  method ParseCuesSize(buf: seq<Byte>, offset: int) returns (size: nat)
    ensures size == CuesSizeAt(buf, offset)
  {
    hide ReadId, ReadSize;
    if offset < 0 || offset >= |buf| {
      return 0;
    }
    var idBytes, id := EbmlReadId(buf[offset..]);
    if idBytes == 0 || id != CUES {
      return 0;
    }
    var sizeBytes, dataSize := EbmlReadSize(buf[offset + idBytes..]);
    if sizeBytes == 0 || dataSize == 0 {
      return 0;
    }
    return idBytes + sizeBytes + dataSize;
  }

  /** Positions are resolved here once the last one is known; the source resolves each as it finds it. */
  method ParseCuesLocation(buf: seq<Byte>) returns (location: Option<CuesLocation>)
    ensures location == LocateCues(buf)
  {
    hide SegmentStart, Scan, FoldSeekHead, CuesSizeAt;
    var start := FindSegmentStart(buf);
    if start == None {
      return None;
    }
    var visits := EbmlScanChildren(buf[start.value..], start.value);
    var found: Option<nat> := None;
    for i := 0 to |visits|
      invariant found == FoldSegment(visits[..i])
    {
      assert visits[..i + 1][..i] == visits[..i];
      if visits[i].id == SEEK_HEAD {
        found := ParseSeekHead(found, visits[i].data);
      }
    }
    assert visits[..|visits|] == visits;
    if found == None {
      return None;
    }
    var offset := start.value + ToI64(found.value);
    var size := ParseCuesSize(buf, offset);
    return Some(CuesLocation(offset, size, start.value));
  }

  // ---- segment info ----

  function InfoStep(scale: int, v: Visit): int {
    if v.id == TIMESTAMP_SCALE then ToI64(ReadUint(v.data)) else scale
  }

  function FoldInfo(scale: int, visits: seq<Visit>): int {
    if visits == [] then scale
    else InfoStep(FoldInfo(scale, visits[..|visits| - 1]), visits[|visits| - 1])
  }

  /** The variables a visitor of TrackEntry assigns. */
  datatype TrackEntryInfo = TrackEntryInfo(number: int, kind: int)

  function TrackStep(t: TrackEntryInfo, v: Visit): TrackEntryInfo {
    if v.id == TRACK_NUMBER then t.(number := ToI32(ReadUint(v.data)))
    else if v.id == TRACK_TYPE then t.(kind := ToI32(ReadUint(v.data)))
    else t
  }

  function FoldTrack(visits: seq<Visit>): TrackEntryInfo {
    if visits == [] then TrackEntryInfo(0, 0)
    else TrackStep(FoldTrack(visits[..|visits| - 1]), visits[|visits| - 1])
  }

  function ReadTrackEntry(data: seq<Byte>): TrackEntryInfo {
    FoldTrack(Scan(data, 0))
  }

  function TracksStep(videoTrack: int, v: Visit): int {
    if v.id == TRACK_ENTRY && ReadTrackEntry(v.data).kind == 1 && ReadTrackEntry(v.data).number > 0 then
      ReadTrackEntry(v.data).number
    else videoTrack
  }

  function FoldTracks(videoTrack: int, visits: seq<Visit>): int {
    if visits == [] then videoTrack
    else TracksStep(FoldTracks(videoTrack, visits[..|visits| - 1]), visits[|visits| - 1])
  }

  function SegmentInfoStep(info: SegmentInfo, v: Visit): SegmentInfo {
    if v.id == INFO then info.(timestampScale := FoldInfo(info.timestampScale, Scan(v.data, 0)))
    else if v.id == TRACKS then info.(videoTrack := FoldTracks(info.videoTrack, Scan(v.data, 0)))
    else info
  }

  function FoldSegmentInfo(visits: seq<Visit>): SegmentInfo {
    if visits == [] then SegmentInfo(DEFAULT_TIMESTAMP_SCALE, 1)
    else SegmentInfoStep(FoldSegmentInfo(visits[..|visits| - 1]), visits[|visits| - 1])
  }

  function ReadSegmentInfo(buf: seq<Byte>): SegmentInfo {
    match SegmentStart(buf)
    case None => SegmentInfo(DEFAULT_TIMESTAMP_SCALE, 1)
    case Some(start) => FoldSegmentInfo(Scan(buf[start..], start))
  }

  method ParseInfo(before: int, data: seq<Byte>) returns (scale: int)
    ensures scale == FoldInfo(before, Scan(data, 0))
  {
    var visits := EbmlScanChildren(data, 0);
    scale := before;
    for i := 0 to |visits|
      invariant scale == FoldInfo(before, visits[..i])
    {
      assert visits[..i + 1][..i] == visits[..i];
      if visits[i].id == TIMESTAMP_SCALE {
        var v := EbmlReadUint(visits[i].data);
        scale := ToI64(v);
      }
    }
    assert visits[..|visits|] == visits;
  }

  method ParseTrackEntry(data: seq<Byte>) returns (t: TrackEntryInfo)
    ensures t == ReadTrackEntry(data)
  {
    var visits := EbmlScanChildren(data, 0);
    t := TrackEntryInfo(0, 0);
    for i := 0 to |visits|
      invariant t == FoldTrack(visits[..i])
    {
      assert visits[..i + 1][..i] == visits[..i];
      var v := EbmlReadUint(visits[i].data);
      if visits[i].id == TRACK_NUMBER {
        t := t.(number := ToI32(v));
      } else if visits[i].id == TRACK_TYPE {
        t := t.(kind := ToI32(v));
      }
    }
    assert visits[..|visits|] == visits;
  }

  method ParseTracks(before: int, data: seq<Byte>) returns (videoTrack: int)
    ensures videoTrack == FoldTracks(before, Scan(data, 0))
  {
    hide ReadTrackEntry;
    var visits := EbmlScanChildren(data, 0);
    videoTrack := before;
    for i := 0 to |visits|
      invariant videoTrack == FoldTracks(before, visits[..i])
    {
      assert visits[..i + 1][..i] == visits[..i];
      if visits[i].id == TRACK_ENTRY {
        var t := ParseTrackEntry(visits[i].data);
        if t.kind == 1 && t.number > 0 {
          videoTrack := t.number;
        }
      }
    }
    assert visits[..|visits|] == visits;
  }

  method ParseSegmentInfo(buf: seq<Byte>) returns (info: SegmentInfo)
    ensures info == ReadSegmentInfo(buf)
  {
    hide SegmentStart, Scan, FoldInfo, FoldTracks;
    info := SegmentInfo(DEFAULT_TIMESTAMP_SCALE, 1);
    var start := FindSegmentStart(buf);
    if start == None {
      return;
    }
    var visits := EbmlScanChildren(buf[start.value..], start.value);
    for i := 0 to |visits|
      invariant info == FoldSegmentInfo(visits[..i])
    {
      assert visits[..i + 1][..i] == visits[..i];
      if visits[i].id == INFO {
        var scale := ParseInfo(info.timestampScale, visits[i].data);
        info := info.(timestampScale := scale);
      } else if visits[i].id == TRACKS {
        var videoTrack := ParseTracks(info.videoTrack, visits[i].data);
        info := info.(videoTrack := videoTrack);
      }
    }
    assert visits[..|visits|] == visits;
  }
}
