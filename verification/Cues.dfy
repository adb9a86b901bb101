/** Reading the Cues element (parse_cues_data in src/EbmlParser.h; RFC 9559, section 5.1.5). */
module Cues {
  import opened Bytes
  import opened Wrappers
  import opened Ebml

  const CUES: nat := 0x1C53BB6B
  const CUE_POINT: nat := 0xBB
  const CUE_TIME: nat := 0xB3
  const CUE_TRACK_POSITIONS: nat := 0xB7
  const CUE_TRACK: nat := 0xF7
  const CUE_CLUSTER_POSITION: nat := 0xF1
  const CUE_RELATIVE_POSITION: nat := 0xF0

  /** Positions are -1 when absent. */
  datatype CueEntry = CueEntry(timeMs: int, timestamp: int, trackNumber: int, clusterPos: int, relativePos: int)

  /** The variables a visitor of CueTrackPositions assigns. */
  datatype Positions = Positions(track: int, clusterPos: int, relativePos: int)

  /** The variables a visitor of CuePoint assigns. */
  datatype Point = Point(time: int, video: Option<Positions>)

  function PositionsStep(p: Positions, v: Visit): Positions {
    if v.id == CUE_TRACK then p.(track := ToI32(ReadUint(v.data)))
    else if v.id == CUE_CLUSTER_POSITION then p.(clusterPos := ToI64(ReadUint(v.data)))
    else if v.id == CUE_RELATIVE_POSITION then p.(relativePos := ToI64(ReadUint(v.data)))
    else p
  }

  function FoldPositions(visits: seq<Visit>): Positions {
    if visits == [] then Positions(0, -1, -1)
    else PositionsStep(FoldPositions(visits[..|visits| - 1]), visits[|visits| - 1])
  }

  function ReadPositions(data: seq<Byte>): Positions {
    FoldPositions(Scan(data, 0))
  }

  function PointStep(p: Point, v: Visit, videoTrack: int): Point {
    if v.id == CUE_TIME then p.(time := ToI64(ReadUint(v.data)))
    else if v.id == CUE_TRACK_POSITIONS && ReadPositions(v.data).track == videoTrack then
      p.(video := Some(ReadPositions(v.data)))
    else p
  }

  function FoldPoint(visits: seq<Visit>, videoTrack: int): Point {
    if visits == [] then Point(-1, None)
    else PointStep(FoldPoint(visits[..|visits| - 1], videoTrack), visits[|visits| - 1], videoTrack)
  }

  function ReadPoint(data: seq<Byte>, videoTrack: int): Point {
    FoldPoint(Scan(data, 0), videoTrack)
  }

  /** Integer division truncates towards zero. */
  function TruncDiv(a: int, b: int): int
    requires b > 0
  {
    if a >= 0 then a / b else -(-a / b)
  }

  /** The entry of a cue point that has a time and the video track; none otherwise. */
  function EntryOfPoint(p: Point, scale: int, segmentStart: int): seq<CueEntry> {
    if p.time >= 0 && p.video.Some? then
      [CueEntry(TruncDiv(p.time * scale, 1000000), p.time, p.video.value.track,
                if p.video.value.clusterPos >= 0 && segmentStart >= 0 then segmentStart + p.video.value.clusterPos else -1,
                p.video.value.relativePos)]
    else []
  }

  function EntryOfVisit(v: Visit, scale: int, videoTrack: int, segmentStart: int): (e: seq<CueEntry>)
    ensures |e| <= 1
  {
    if v.id != CUE_POINT then [] else EntryOfPoint(ReadPoint(v.data, videoTrack), scale, segmentStart)
  }

  function EntriesOf(visits: seq<Visit>, scale: int, videoTrack: int, segmentStart: int): seq<CueEntry> {
    if visits == [] then []
    else EntriesOf(visits[..|visits| - 1], scale, videoTrack, segmentStart)
         + EntryOfVisit(visits[|visits| - 1], scale, videoTrack, segmentStart)
  }

  /** Where the children of the Cues element start; None if the buffer does not start with its header. */
  function CuesChildren(buf: seq<Byte>): (r: Option<nat>)
    ensures r.Some? ==> r.value <= |buf|
  {
    var id :- ReadId(buf);
    if id.value != CUES then None
    else
      var size :- ReadSize(buf[id.width..]);
      Some(id.width + size.width)
  }

  function ReadCues(buf: seq<Byte>, scale: int, videoTrack: int, segmentStart: int): seq<CueEntry> {
    if |buf| < 4 || CuesChildren(buf) == None then []
    else
      var pos := CuesChildren(buf).value;
      EntriesOf(Scan(buf[pos..], pos), scale, videoTrack, segmentStart)
  }

  // ---- the parser ----

  method ParsePositions(data: seq<Byte>) returns (p: Positions)
    ensures p == ReadPositions(data)
  {
    var track, clusterPos, relativePos := 0, -1, -1;
    var visits := EbmlScanChildren(data, 0);
    for i := 0 to |visits|
      invariant Positions(track, clusterPos, relativePos) == FoldPositions(visits[..i])
    {
      assert visits[..i + 1][..i] == visits[..i];
      var v := EbmlReadUint(visits[i].data);
      if visits[i].id == CUE_TRACK {
        track := ToI32(v);
      } else if visits[i].id == CUE_CLUSTER_POSITION {
        clusterPos := ToI64(v);
      } else if visits[i].id == CUE_RELATIVE_POSITION {
        relativePos := ToI64(v);
      }
    }
    assert visits[..|visits|] == visits;
    p := Positions(track, clusterPos, relativePos);
  }

  method ParsePoint(data: seq<Byte>, videoTrack: int) returns (p: Point)
    ensures p == ReadPoint(data, videoTrack)
  {
    hide ReadPositions;
    var cueTime := -1;
    var video: Option<Positions> := None;
    var visits := EbmlScanChildren(data, 0);
    for i := 0 to |visits|
      invariant Point(cueTime, video) == FoldPoint(visits[..i], videoTrack)
    {
      assert visits[..i + 1][..i] == visits[..i];
      if visits[i].id == CUE_TIME {
        var v := EbmlReadUint(visits[i].data);
        cueTime := ToI64(v);
      } else if visits[i].id == CUE_TRACK_POSITIONS {
        var positions := ParsePositions(visits[i].data);
        if positions.track == videoTrack {
          video := Some(positions);
        }
      }
    }
    assert visits[..|visits|] == visits;
    p := Point(cueTime, video);
  }

  method ParseCuesData(buf: seq<Byte>, scale: int, videoTrack: int, segmentStart: int)
    returns (entries: seq<CueEntry>)
    ensures entries == ReadCues(buf, scale, videoTrack, segmentStart)
  {
    hide ReadId, ReadSize, ReadPoint;
    entries := [];
    if |buf| < 4 {
      return;
    }
    var idBytes, id := EbmlReadId(buf);
    if idBytes == 0 || id != CUES {
      return;
    }
    var pos := idBytes;
    var sizeBytes, size := EbmlReadSize(buf[pos..]);
    if sizeBytes == 0 {
      return;
    }
    pos := pos + sizeBytes;
    var visits := EbmlScanChildren(buf[pos..], pos);
    for i := 0 to |visits|
      invariant entries == EntriesOf(visits[..i], scale, videoTrack, segmentStart)
    {
      assert visits[..i + 1][..i] == visits[..i];
      if visits[i].id == CUE_POINT {
        var p := ParsePoint(visits[i].data, videoTrack);
        if p.time >= 0 && p.video.Some? {
          var timeMs := TruncDiv(p.time * scale, 1000000);
          var absolutePos := -1;
          if p.video.value.clusterPos >= 0 && segmentStart >= 0 {
            absolutePos := segmentStart + p.video.value.clusterPos;
          }
          entries := entries + [CueEntry(timeMs, p.time, p.video.value.track, absolutePos, p.video.value.relativePos)];
        }
      }
    }
    assert visits[..|visits|] == visits;
  }

  // ---- truncation ----

  lemma {:induction false} EntriesConcat(a: seq<Visit>, b: seq<Visit>, scale: int, videoTrack: int, segmentStart: int)
    ensures EntriesOf(a + b, scale, videoTrack, segmentStart)
         == EntriesOf(a, scale, videoTrack, segmentStart) + EntriesOf(b, scale, videoTrack, segmentStart)
  {
    hide *;
    if b == [] {
      NoEntries(scale, videoTrack, segmentStart);
      assert a + b == a;
    } else {
      var n := |b| - 1;
      EntriesConcat(a, b[..n], scale, videoTrack, segmentStart);
      EntriesNext(b[..n], b[n], scale, videoTrack, segmentStart);
      EntriesNext(a + b[..n], b[n], scale, videoTrack, segmentStart);
      assert b[..n] + [b[n]] == b && a + b[..n] + [b[n]] == a + b;
    }
  }

  lemma EntriesNext(visits: seq<Visit>, v: Visit, scale: int, videoTrack: int, segmentStart: int)
    ensures EntriesOf(visits + [v], scale, videoTrack, segmentStart)
         == EntriesOf(visits, scale, videoTrack, segmentStart) + EntryOfVisit(v, scale, videoTrack, segmentStart)
  {
    hide EntryOfVisit;
    assert (visits + [v])[..|visits|] == visits;
  }

  lemma NoEntries(scale: int, videoTrack: int, segmentStart: int)
    ensures EntriesOf([], scale, videoTrack, segmentStart) == []
  {
  }

  /** On a Cues element cut off anywhere, the parser finds the entries of the whole element, except that the last
      entry it finds may be wrong. */
  lemma TruncatedCues(buf: seq<Byte>, k: nat, scale: int, videoTrack: int, segmentStart: int)
    requires k <= |buf|
    ensures var cut, whole := ReadCues(buf[..k], scale, videoTrack, segmentStart),
                              ReadCues(buf, scale, videoTrack, segmentStart);
            cut != [] ==> cut[..|cut| - 1] <= whole
  {
    hide *;
    var p := buf[..k];
    if k >= 4 && CuesChildren(p).Some? {
      ChildrenPrefix(buf, k);
      var pos := CuesChildren(p).value;
      assert p[pos..] == buf[pos..][..k - pos];
      ScanOfPrefix(buf[pos..], k - pos, pos);
      EntriesTruncated(Scan(p[pos..], pos), Scan(buf[pos..], pos), scale, videoTrack, segmentStart);
      ReadCuesFrom(p, scale, videoTrack, segmentStart);
      ReadCuesFrom(buf, scale, videoTrack, segmentStart);
    } else {
      NoCues(p, scale, videoTrack, segmentStart);
    }
  }

  lemma NoCues(buf: seq<Byte>, scale: int, videoTrack: int, segmentStart: int)
    requires |buf| < 4 || CuesChildren(buf) == None
    ensures ReadCues(buf, scale, videoTrack, segmentStart) == []
  {
    hide CuesChildren;
  }

  lemma ReadCuesFrom(buf: seq<Byte>, scale: int, videoTrack: int, segmentStart: int)
    requires |buf| >= 4 && CuesChildren(buf).Some?
    ensures var pos := CuesChildren(buf).value;
            (ReadCues(buf, scale, videoTrack, segmentStart)
             == EntriesOf(Scan(buf[pos..], pos), scale, videoTrack, segmentStart))
  {
    hide CuesChildren, EntriesOf;
  }

  lemma ScanOfPrefix(s: seq<Byte>, k: nat, base: nat)
    requires k <= |s|
    ensures Truncates(Scan(s[..k], base), Scan(s, base))
  {
    ScanPrefix(s, k, 0, base);
  }

  lemma ChildrenPrefix(buf: seq<Byte>, k: nat)
    requires k <= |buf| && CuesChildren(buf[..k]).Some?
    ensures CuesChildren(buf) == CuesChildren(buf[..k])
  {
    hide ReadId, ReadSize;
    ReadPrefix(buf, k);
    var w := ReadId(buf[..k]).value.width;
    assert buf[..k][w..] == buf[w..][..k - w];
    ReadPrefix(buf[w..], k - w);
  }

  lemma EntriesTruncated(short: seq<Visit>, full: seq<Visit>, scale: int, videoTrack: int, segmentStart: int)
    requires Truncates(short, full)
    ensures var cut, whole := EntriesOf(short, scale, videoTrack, segmentStart),
                              EntriesOf(full, scale, videoTrack, segmentStart);
            cut != [] ==> cut[..|cut| - 1] <= whole
  {
    hide EntryOfVisit;
    if short != [] {
      var n := |short| - 1;
      assert short[..n] == full[..n];
      assert full == full[..n] + full[n..];
      EntriesConcat(full[..n], full[n..], scale, videoTrack, segmentStart);
    }
  }
}
