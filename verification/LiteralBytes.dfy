/** The parser on bytes that are written out: a Cues element and the start of a file. */
module LiteralBytes {
  import opened Bytes
  import opened FieldBytes
  import opened Wrappers
  import opened EbmlEncoding
  import opened MatroskaIds
  import opened Cues
  import opened CuesEncoding
  import opened MkvHeader
  import opened MkvHeaderEncoding
  import opened SmallFile

  /** The bytes of an element whose size takes one byte. */
  lemma ShortElement(e: Element)
    requires e.sizeWidth == 1 && |e.data| < 0x80
    ensures EncodeElement(e) == BE(IdWidth(e.id), e.id) + [0x80 + |e.data|] + e.data
  {
    EightByteSizes();
    OneByte(0x80 + |e.data|);
    hide BE, IdWidth, Marker;
    assert EncodeElement(e) == Header(e.id, 1, |e.data|) + e.data;
  }

  lemma IdBytes()
    ensures BE(IdWidth(ID_CUES), ID_CUES) == [0x1C, 0x53, 0xBB, 0x6B]
    ensures BE(IdWidth(ID_CUE_POINT), ID_CUE_POINT) == [0xBB] && BE(IdWidth(ID_CUE_TIME), ID_CUE_TIME) == [0xB3]
    ensures BE(IdWidth(ID_CUE_TRACK_POSITIONS), ID_CUE_TRACK_POSITIONS) == [0xB7]
    ensures BE(IdWidth(ID_CUE_TRACK), ID_CUE_TRACK) == [0xF7]
    ensures BE(IdWidth(ID_CUE_CLUSTER_POSITION), ID_CUE_CLUSTER_POSITION) == [0xF1]
    ensures BE(IdWidth(ID_CUE_RELATIVE_POSITION), ID_CUE_RELATIVE_POSITION) == [0xF0]
  {
    hide BE, IdWidth;
    KnownIds();
    BE4(ID_CUES);
    OneByte(0xBB);
    OneByte(0xB3);
    OneByte(0xB7);
    OneByte(0xF7);
    OneByte(0xF1);
    OneByte(0xF0);
  }

  // ---- a Cues element ----

  /** A Cues element with one cue point: time 5, track 1, cluster position 7, relative position 3. */
  const CUES_BYTES: seq<Byte> := [
    0x1C, 0x53, 0xBB, 0x6B, 0x90,
      0xBB, 0x8E,
        0xB3, 0x81, 0x05,
        0xB7, 0x89,
          0xF7, 0x81, 0x01,
          0xF1, 0x81, 0x07,
          0xF0, 0x81, 0x03]

  function ThreePositions(): seq<PositionItem> {
    [CueTrack(Uint(1, 1, 1)), CueClusterPosition(Uint(1, 1, 7)), CueRelativePosition(Uint(1, 1, 3))]
  }

  function OnePoint(): seq<PointItem> {
    [CueTime(Uint(1, 1, 5)), CueTrackPositions(1, ThreePositions())]
  }

  lemma ThreeElements(a: Element, b: Element, c: Element)
    ensures EncodeElements([a, b, c]) == EncodeElement(a) + EncodeElement(b) + EncodeElement(c)
  {
    hide EncodeElement;
    TwoElements(b, c);
    assert [a, b, c][1..] == [b, c];
  }

  lemma UintBytes(id: nat, v: nat)
    requires v < 0x100 && IdWidth(id) == 1 && id < 0x100
    ensures EncodeElement(UintElement(id, Uint(1, 1, v))) == [id, 0x81, v]
  {
    hide IdWidth, BE;
    OneByte(v);
    OneByte(id);
    ShortElement(UintElement(id, Uint(1, 1, v)));
  }

  lemma PositionsBytes()
    ensures EncodeElements(PositionElements(ThreePositions())) == [0xF7, 0x81, 0x01, 0xF1, 0x81, 0x07, 0xF0, 0x81, 0x03]
  {
    KnownIds();
    hide IdWidth, EncodeElement, EncodeElements;
    UintBytes(0xF7, 1);
    UintBytes(0xF1, 7);
    UintBytes(0xF0, 3);
    var a, b, c := UintElement(0xF7, Uint(1, 1, 1)), UintElement(0xF1, Uint(1, 1, 7)), UintElement(0xF0, Uint(1, 1, 3));
    assert PositionElements(ThreePositions()) == [a, b, c];
    ThreeElements(a, b, c);
  }

  lemma PointBytes()
    ensures EncodeElements(PointElements(OnePoint()))
         == [0xB3, 0x81, 0x05, 0xB7, 0x89, 0xF7, 0x81, 0x01, 0xF1, 0x81, 0x07, 0xF0, 0x81, 0x03]
  {
    KnownIds();
    IdBytes();
    PositionsBytes();
    hide IdWidth, EncodeElement, EncodeElements, BE, ThreePositions;
    UintBytes(0xB3, 5);
    var a, b := UintElement(0xB3, Uint(1, 1, 5)), PointElement(CueTrackPositions(1, ThreePositions()));
    ShortElement(b);
    assert PointElements(OnePoint()) == [a, b];
    TwoElements(a, b);
  }

  function PointData(): seq<Byte> {
    [0xB3, 0x81, 0x05, 0xB7, 0x89, 0xF7, 0x81, 0x01, 0xF1, 0x81, 0x07, 0xF0, 0x81, 0x03]
  }

  lemma PointElementIs()
    ensures CuesElement(CuePoint(1, OnePoint())) == Element(ID_CUE_POINT, 1, PointData())
    ensures EncodeElement(Element(ID_CUE_POINT, 1, PointData())) == [0xBB, 0x8E] + PointData()
  {
    PointBytes();
    IdBytes();
    ShortElement(Element(ID_CUE_POINT, 1, PointData()));
    hide IdWidth, EncodeElement, EncodeElements, BE, OnePoint;
  }

  lemma ShortHeader(id: nat, size: nat)
    requires size < 0x80
    ensures Header(id, 1, size) == BE(IdWidth(id), id) + [0x80 + size]
  {
    EightByteSizes();
    OneByte(0x80 + size);
    hide BE, IdWidth, Marker;
  }

  lemma CutCues()
    ensures CUES_BYTES == [0x1C, 0x53, 0xBB, 0x6B] + [0x90] + ([0xBB, 0x8E] + PointData())
  {
  }

  lemma CuesEncodingIs(items: seq<CuesItem>, size: nat)
    requires size == |EncodeElements(CuesElements(items))|
    ensures EncodeCues(1, items) == Header(ID_CUES, 1, size) + EncodeElements(CuesElements(items))
  {
    hide Header, EncodeElements, CuesElements;
  }

  lemma OneCuesElement(item: CuesItem)
    ensures CuesElements([item]) == [CuesElement(item)]
  {
    hide CuesElement;
  }

  lemma CuesBytesAre()
    ensures CUES_BYTES == EncodeCues(1, [CuePoint(1, OnePoint())])
    ensures EncodeElements(CuesElements([CuePoint(1, OnePoint())])) == [0xBB, 0x8E] + PointData()
  {
    hide *;
    var item := CuePoint(1, OnePoint());
    PointElementIs();
    IdBytes();
    OneCuesElement(item);
    OneElement(CuesElement(item));
    SixteenBytes();
    CuesEncodingIs([item], 16);
    ShortHeader(ID_CUES, 16);
    CutCues();
  }

  lemma SixteenBytes()
    ensures |[0xBB, 0x8E] + PointData()| == 16
  {
  }

  lemma CuesAreLegalHere()
    ensures LegalCues(1, [CuePoint(1, OnePoint())])
  {
    CuesBytesAre();
    PointBytes();
    LegalPieces();
    EightByteSizes();
    hide LegalPoint, EncodeElements, OnePoint, Marker;
    assert LegalItem(CuePoint(1, OnePoint()));
  }

  lemma LegalPieces()
    ensures forall i :: 0 <= i < |OnePoint()| ==> LegalPoint(OnePoint()[i])
    ensures |OnePoint()| == 2
  {
    Widths();
    EightByteSizes();
    PositionsBytes();
    hide Pow256, Marker, EncodeElements;
    var positions := ThreePositions();
    assert LegalUint(Uint(1, 1, 1), 0x8000_0000);
    assert forall i :: 0 <= i < |positions| ==> LegalPosition(positions[i]);
    hide LegalPosition;
  }

  /** These bytes are read as exactly this entry. */
  lemma CuesFromBytes()
    ensures ReadCues(CUES_BYTES, 2000000, 1, 100) == [CueEntry(10, 5, 1, 107, 3)]
  {
    hide *;
    CuesBytesAre();
    CuesAreLegalHere();
    PointMeaningIs();
    CuesRoundTrip(1, [CuePoint(1, OnePoint())], 2000000, 1, 100);
  }

  lemma PointMeaningIs()
    ensures Meanings([CuePoint(1, OnePoint())], 2000000, 1, 100) == [CueEntry(10, 5, 1, 107, 3)]
  {
    var items, points, positions := [CuePoint(1, OnePoint())], OnePoint(), ThreePositions();
    assert positions[..2] == [positions[0], positions[1]] && positions[..2][..1] == [positions[0]];
    assert LastTrack(positions[..2][..1]) == Some(1) && LastTrack(positions[..2]) == Some(1);
    assert LastTrack(positions) == Some(1);
    assert LastCluster(positions[..2]) == Some(7) && LastCluster(positions) == Some(7);
    assert LastRelative(positions) == Some(3);
    hide LastTrack, LastCluster, LastRelative, ThreePositions;
    assert points[..1] == [points[0]] && LastTime(points[..1]) == Some(5) && LastTime(points) == Some(5);
    assert LastOfTrack(points, 1) == Some(positions);
    assert items[..0] == [];
    assert Meaning(items[0], 2000000, 1, 100) == [CueEntry(10, 5, 1, 107, 3)];
  }

  // ---- the start of a file ----

  /** An EBML header, a segment of 45 bytes, and in it a seek head that places the Cues at 0x1234, a timestamp scale of
      500000 and a video track with number 3. */
  const START_BYTES: seq<Byte> :=
    [0x1A, 0x45, 0xDF, 0xA3, 0x81, 0x00]
    + [0x18, 0x53, 0x80, 0x67, 0xAD]
    + [0x11, 0x4D, 0x9B, 0x74, 0x8F]
    + [0x4D, 0xBB, 0x8C, 0x53, 0xAB, 0x84, 0x1C, 0x53, 0xBB, 0x6B, 0x53, 0xAC, 0x82, 0x12, 0x34]
    + [0x15, 0x49, 0xA9, 0x66, 0x87]
    + [0x2A, 0xD7, 0xB1, 0x83, 0x07, 0xA1, 0x20]
    + [0x16, 0x54, 0xAE, 0x6B, 0x88]
    + [0xAE, 0x86, 0xD7, 0x81, 0x03, 0x83, 0x81, 0x01]

  function Seeks(): seq<SeekItem> {
    [SeekId(Uint(1, 4, 0x1C53BB6B)), SeekPosition(Uint(1, 2, 0x1234))]
  }

  function Fields(): seq<TrackItem> {
    [TrackNumber(Uint(1, 1, 3)), TrackType(Uint(1, 1, 1))]
  }

  function Scale(): seq<InfoItem> {
    [TimestampScale(Uint(1, 3, 500000))]
  }

  function StartItems(): seq<SegmentItem> {
    [SeekHead(1, [Seek(1, Seeks())]), Info(1, Scale()), Tracks(1, [TrackEntry(1, Fields())])]
  }

  function Start(): FileStart {
    FileStart(Element(ID_EBML_HEADER, 1, [0]), 1, 45, StartItems(), [])
  }

  lemma HeaderIdBytes()
    ensures BE(IdWidth(ID_EBML_HEADER), ID_EBML_HEADER) == [0x1A, 0x45, 0xDF, 0xA3]
    ensures BE(IdWidth(ID_SEGMENT), ID_SEGMENT) == [0x18, 0x53, 0x80, 0x67]
    ensures BE(IdWidth(ID_SEEK_HEAD), ID_SEEK_HEAD) == [0x11, 0x4D, 0x9B, 0x74]
    ensures BE(IdWidth(ID_INFO), ID_INFO) == [0x15, 0x49, 0xA9, 0x66]
    ensures BE(IdWidth(ID_TRACKS), ID_TRACKS) == [0x16, 0x54, 0xAE, 0x6B]
  {
    hide BE, IdWidth;
    HeaderIds();
    FourBytes(0x1A, 0x45, 0xDF, 0xA3);
    FourBytes(0x18, 0x53, 0x80, 0x67);
    FourBytes(0x11, 0x4D, 0x9B, 0x74);
    FourBytes(0x15, 0x49, 0xA9, 0x66);
    FourBytes(0x16, 0x54, 0xAE, 0x6B);
  }

  lemma ShortIdBytes()
    ensures BE(IdWidth(ID_SEEK), ID_SEEK) == [0x4D, 0xBB] && BE(IdWidth(ID_SEEK_ID), ID_SEEK_ID) == [0x53, 0xAB]
    ensures BE(IdWidth(ID_SEEK_POSITION), ID_SEEK_POSITION) == [0x53, 0xAC]
    ensures BE(IdWidth(ID_TIMESTAMP_SCALE), ID_TIMESTAMP_SCALE) == [0x2A, 0xD7, 0xB1]
    ensures BE(IdWidth(ID_TRACK_ENTRY), ID_TRACK_ENTRY) == [0xAE]
    ensures BE(4, 0x1C53BB6B) == [0x1C, 0x53, 0xBB, 0x6B] && BE(2, 0x1234) == [0x12, 0x34]
    ensures BE(3, 500000) == [0x07, 0xA1, 0x20]
  {
    HeaderIds();
    BE3(ID_TIMESTAMP_SCALE);
    BE3(500000);
    BE4(0x1C53BB6B);
    hide BE, IdWidth;
    TwoBytes(ID_SEEK);
    TwoBytes(ID_SEEK_ID);
    TwoBytes(ID_SEEK_POSITION);
    TwoBytes(0x1234);
    OneByte(ID_TRACK_ENTRY);
  }

  lemma SeekBytes()
    ensures EncodeElements(SeekElements(Seeks()))
         == [0x53, 0xAB, 0x84, 0x1C, 0x53, 0xBB, 0x6B, 0x53, 0xAC, 0x82, 0x12, 0x34]
  {
    ShortIdBytes();
    hide BE, IdWidth, EncodeElement, EncodeElements;
    var a, b := UintElement(ID_SEEK_ID, Uint(1, 4, 0x1C53BB6B)), UintElement(ID_SEEK_POSITION, Uint(1, 2, 0x1234));
    ShortElement(a);
    ShortElement(b);
    assert SeekElements(Seeks()) == [a, b];
    TwoElements(a, b);
  }

  lemma SeekHeadBytes()
    ensures EncodeElements(SeekHeadElements([Seek(1, Seeks())]))
         == [0x4D, 0xBB, 0x8C, 0x53, 0xAB, 0x84, 0x1C, 0x53, 0xBB, 0x6B, 0x53, 0xAC, 0x82, 0x12, 0x34]
  {
    SeekBytes();
    ShortIdBytes();
    hide BE, IdWidth, EncodeElement, EncodeElements, Seeks;
    var a := SeekHeadElement(Seek(1, Seeks()));
    ShortElement(a);
    assert SeekHeadElements([Seek(1, Seeks())]) == [a];
    OneElement(a);
  }

  lemma InfoBytes()
    ensures EncodeElements(InfoElements(Scale())) == [0x2A, 0xD7, 0xB1, 0x83, 0x07, 0xA1, 0x20]
  {
    ShortIdBytes();
    hide BE, IdWidth, EncodeElement, EncodeElements;
    var a := UintElement(ID_TIMESTAMP_SCALE, Uint(1, 3, 500000));
    ShortElement(a);
    assert InfoElements(Scale()) == [a];
    OneElement(a);
  }

  lemma TracksBytes()
    ensures EncodeElements(TrackElements(Fields())) == [0xD7, 0x81, 0x03, 0x83, 0x81, 0x01]
    ensures EncodeElements(TracksElements([TrackEntry(1, Fields())])) == [0xAE, 0x86, 0xD7, 0x81, 0x03, 0x83, 0x81, 0x01]
  {
    HeaderIds();
    ShortIdBytes();
    hide BE, IdWidth, EncodeElement, EncodeElements;
    UintBytes(0xD7, 3);
    UintBytes(0x83, 1);
    var a, b := UintElement(0xD7, Uint(1, 1, 3)), UintElement(0x83, Uint(1, 1, 1));
    assert TrackElements(Fields()) == [a, b];
    TwoElements(a, b);
    var c := TracksElement(TrackEntry(1, Fields()));
    ShortElement(c);
    assert TracksElements([TrackEntry(1, Fields())]) == [c];
    OneElement(c);
  }

  function SeekHeadData(): seq<Byte> {
    [0x4D, 0xBB, 0x8C, 0x53, 0xAB, 0x84, 0x1C, 0x53, 0xBB, 0x6B, 0x53, 0xAC, 0x82, 0x12, 0x34]
  }

  function InfoData(): seq<Byte> {
    [0x2A, 0xD7, 0xB1, 0x83, 0x07, 0xA1, 0x20]
  }

  function TracksData(): seq<Byte> {
    [0xAE, 0x86, 0xD7, 0x81, 0x03, 0x83, 0x81, 0x01]
  }

  lemma TopElements()
    ensures SegmentElements(StartItems())
         == [Element(ID_SEEK_HEAD, 1, SeekHeadData()), Element(ID_INFO, 1, InfoData()), Element(ID_TRACKS, 1, TracksData())]
    ensures EncodeElement(Element(ID_SEEK_HEAD, 1, SeekHeadData())) == [0x11, 0x4D, 0x9B, 0x74] + [0x8F] + SeekHeadData()
    ensures EncodeElement(Element(ID_INFO, 1, InfoData())) == [0x15, 0x49, 0xA9, 0x66] + [0x87] + InfoData()
    ensures EncodeElement(Element(ID_TRACKS, 1, TracksData())) == [0x16, 0x54, 0xAE, 0x6B] + [0x88] + TracksData()
    ensures EncodeElement(Element(ID_EBML_HEADER, 1, [0])) == [0x1A, 0x45, 0xDF, 0xA3] + [0x81] + [0]
  {
    SeekHeadBytes();
    InfoBytes();
    TracksBytes();
    HeaderIdBytes();
    hide BE, IdWidth, EncodeElement, EncodeElements, Seeks, Fields, Scale;
    ShortElement(Element(ID_SEEK_HEAD, 1, SeekHeadData()));
    ShortElement(Element(ID_INFO, 1, InfoData()));
    ShortElement(Element(ID_TRACKS, 1, TracksData()));
    ShortElement(Element(ID_EBML_HEADER, 1, [0]));
  }

  function Body(): seq<Byte> {
    ([0x11, 0x4D, 0x9B, 0x74] + [0x8F] + SeekHeadData()) + ([0x15, 0x49, 0xA9, 0x66] + [0x87] + InfoData())
    + ([0x16, 0x54, 0xAE, 0x6B] + [0x88] + TracksData())
  }

  lemma StartBodyIs()
    ensures SegmentBody(Start()) == Body()
  {
    TopElements();
    hide EncodeElement, EncodeElements, StartItems, SeekHeadData, InfoData, TracksData;
    ThreeElements(Element(ID_SEEK_HEAD, 1, SeekHeadData()), Element(ID_INFO, 1, InfoData()),
                  Element(ID_TRACKS, 1, TracksData()));
    assert Body() + [] == Body();
  }

  lemma CutStart()
    ensures START_BYTES == ([0x1A, 0x45, 0xDF, 0xA3] + [0x81] + [0]) + (([0x18, 0x53, 0x80, 0x67] + [0x80 + 45]) + Body())
    ensures |Body()| == 45
  {
    var a: seq<Byte>, b: seq<Byte> := [0x1A, 0x45, 0xDF, 0xA3, 0x81, 0x00], [0x18, 0x53, 0x80, 0x67, 0xAD];
    var c: seq<Byte>, d: seq<Byte> := [0x11, 0x4D, 0x9B, 0x74, 0x8F], [0x15, 0x49, 0xA9, 0x66, 0x87];
    var e: seq<Byte> := [0x16, 0x54, 0xAE, 0x6B, 0x88];
    assert [0x1A, 0x45, 0xDF, 0xA3] + [0x81] + [0] == a && [0x18, 0x53, 0x80, 0x67] + [0x80 + 45] == b;
    assert [0x11, 0x4D, 0x9B, 0x74] + [0x8F] == c && [0x15, 0x49, 0xA9, 0x66] + [0x87] == d;
    assert [0x16, 0x54, 0xAE, 0x6B] + [0x88] == e;
    assert START_BYTES == a + b + c + SeekHeadData() + d + InfoData() + e + TracksData();
    Regroup(a, b, c, SeekHeadData(), d, InfoData(), e, TracksData());
  }

  lemma Regroup(a: seq<Byte>, b: seq<Byte>, c: seq<Byte>, c': seq<Byte>, d: seq<Byte>, d': seq<Byte>, e: seq<Byte>,
                e': seq<Byte>)
    ensures a + b + c + c' + d + d' + e + e' == a + (b + ((c + c') + (d + d') + (e + e')))
  {
  }

  lemma StartIs()
    ensures EncodeStart(Start())
         == EncodeElement(Element(ID_EBML_HEADER, 1, [0])) + (Header(ID_SEGMENT, 1, 45) + SegmentBody(Start()))
    ensures BodyStart(Start()) == |EncodeElement(Element(ID_EBML_HEADER, 1, [0]))| + IdWidth(ID_SEGMENT) + 1
  {
    hide EncodeElement, Header, SegmentBody, IdWidth;
  }

  lemma StartBytesAre()
    ensures START_BYTES == EncodeStart(Start()) && BodyStart(Start()) == 11
  {
    hide *;
    StartIs();
    StartBodyIs();
    HeaderIdBytes();
    HeaderIds();
    TopElements();
    ShortHeader(ID_SEGMENT, 45);
    CutStart();
  }

  lemma LegalParts()
    ensures forall i :: 0 <= i < 3 ==> LegalSegment(StartItems()[i])
    ensures Legal(Element(ID_EBML_HEADER, 1, [0]))
  {
    HeaderIds();
    Widths();
    EightByteSizes();
    SeekBytes();
    SeekHeadBytes();
    InfoBytes();
    TracksBytes();
    hide Pow256, Marker, EncodeElements, IdWidth;
  }

  lemma StartIsLegal()
    ensures LegalStart(Start())
  {
    LegalParts();
    StartBodyIs();
    CutStart();
    StartBytesAre();
    EightByteSizes();
    NoTail();
    hide LegalSegment, Legal, EncodeStart, SegmentBody, StartItems, Marker, Body, HarmlessTail;
    assert |StartItems()| == 3 by { ThreeItems(); }
  }

  lemma ThreeItems()
    ensures |StartItems()| == 3
  {
  }

  lemma NoTail()
    ensures HarmlessTail([])
  {
    LegalParts();
    hide Legal, EncodeElement;
    var e := Element(ID_EBML_HEADER, 1, [0]);
    assert MeansNothing(e.id) && [] <= EncodeElement(e);
  }

  lemma StartMeans()
    ensures CuesPosition(StartItems()) == Some(0x1234) && ScaleOf(StartItems()) == 500000 && VideoTrackOf(StartItems()) == 3
  {
    var items := StartItems();
    assert items[..2] == [items[0], items[1]] && items[..2][..1] == [items[0]] && items[..2][..1][..0] == [];
    assert Seeks()[..1] == [Seeks()[0]] && LastSeekId(Seeks()[..1]) == Some(ID_CUES);
    assert LastSeekId(Seeks()) == Some(ID_CUES) && LastSeekPosition(Seeks()) == Some(0x1234);
    assert LastCuesSeek([Seek(1, Seeks())]) == Some(0x1234);
    assert LastScale(Scale()) == Some(500000);
    assert Fields()[..1] == [Fields()[0]] && LastNumber(Fields()[..1]) == Some(3);
    assert LastNumber(Fields()) == Some(3) && LastKind(Fields()) == Some(1);
    assert LastVideo([TrackEntry(1, Fields())]) == Some(3);
    hide LastCuesSeek, LastScale, LastVideo, Seeks, Fields, Scale;
    assert CuesPosition(items[..2][..1]) == Some(0x1234) && CuesPosition(items[..2]) == Some(0x1234);
    assert ScaleOf(items[..2]) == 500000;
  }

  /** From these bytes the Cues are located, and scale and track read, as they say. */
  lemma StartFromBytes()
    ensures LocateCues(START_BYTES) == Some(CuesLocation(11 + 0x1234, 0, 11))
    ensures ReadSegmentInfo(START_BYTES) == SegmentInfo(500000, 3)
  {
    hide *;
    StartBytesAre();
    StartIsLegal();
    StartMeans();
    ItemsAre();
    LocationRoundTrip(Start());
    InfoRoundTrip(Start());
    PastTheEnd();
  }

  lemma ItemsAre()
    ensures Start().items == StartItems()
  {
  }

  lemma PastTheEnd()
    ensures CuesSizeAt(START_BYTES, 11 + 0x1234) == 0
  {
    LocatedSize(START_BYTES, 11 + 0x1234, 1, 1, []);
  }
}
