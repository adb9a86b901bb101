/** For every list of times there is a file whose cues have these times. */
module SmallFile {
  import opened Bytes
  import opened Wrappers
  import opened EbmlEncoding
  import opened MatroskaIds
  import opened CuesEncoding
  import opened MkvHeaderEncoding
  import opened Demux
  import opened CueIndex

  /** Times that fit a small file of a stream of up to a day and a half. */
  predicate SmallTimes(times: seq<int>) {
    0 < |times| <= 10000 && forall i :: 0 <= i < |times| ==> 0 <= times[i] < 0x800_0000
  }

  function Point(time: nat): CuesItem {
    CuePoint(1, [CueTime(Uint(1, 8, time)), CueTrackPositions(1, [CueTrack(Uint(1, 1, 1))])])
  }

  function Points(times: seq<int>): (items: seq<CuesItem>)
    requires forall i :: 0 <= i < |times| ==> 0 <= times[i]
    ensures |items| == |times|
  {
    seq(|times|, i requires 0 <= i < |times| => Point(times[i]))
  }

  /** The Cues element as an element of the segment, which means nothing to the reader of the header. */
  function CuesItself(times: seq<int>): Element
    requires forall i :: 0 <= i < |times| ==> 0 <= times[i]
  {
    Element(ID_CUES, 8, EncodeElements(CuesElements(Points(times))))
  }

  function SeekHere(): SeekHeadItem {
    Seek(1, [SeekId(Uint(1, 4, ID_CUES)), SeekPosition(Uint(1, 8, 26))])
  }

  /** An EBML header, a segment header, a seek head of 26 bytes, and the Cues. */
  function StartOfFile(times: seq<int>): FileStart
    requires forall i :: 0 <= i < |times| ==> 0 <= times[i]
  {
    FileStart(Element(ID_EBML_HEADER, 1, [0]), 8, 26 + 12 + |CuesItself(times).data|,
              [SeekHead(1, [SeekHere()]), OtherSegment(CuesItself(times))], [])
  }

  function FileOf(times: seq<int>): seq<Byte>
    requires forall i :: 0 <= i < |times| ==> 0 <= times[i]
  {
    EncodeStart(StartOfFile(times))
  }

  // ---- sizes ----

  lemma EightByteSizes()
    ensures Marker(8) == 0x100_0000_0000_0000 && Marker(1) == 0x80
  {
    Widths();
    assert Pow256(0) == 1 && Pow256(7) == 0x100_0000_0000_0000;
  }

  lemma ElementLength(e: Element)
    ensures |EncodeElement(e)| == IdWidth(e.id) + e.sizeWidth + |e.data|
  {
    hide IdWidth, BE;
  }

  lemma OneElement(e: Element)
    ensures EncodeElements([e]) == EncodeElement(e)
  {
    hide EncodeElement;
    assert EncodeElements([e]) == EncodeElement(e) + [];
  }

  lemma TwoElements(a: Element, b: Element)
    ensures EncodeElements([a, b]) == EncodeElement(a) + EncodeElement(b)
  {
    hide EncodeElement;
    OneElement(b);
    assert [a, b][1..] == [b];
  }

  lemma PointSize(time: nat)
    requires time < 0x800_0000
    ensures LegalItem(Point(time)) && |EncodeElement(CuesElement(Point(time)))| == 17
  {
    KnownIds();
    EightByteSizes();
    Widths();
    assert Pow256(8) > 0x800_0000;
    var track := UintElement(ID_CUE_TRACK, Uint(1, 1, 1));
    var positions := [CueTrack(Uint(1, 1, 1))];
    assert PositionElements(positions) == [track];
    OneElement(track);
    ElementLength(track);
    var items := Point(time).items;
    var cueTime, cuePositions := UintElement(ID_CUE_TIME, Uint(1, 8, time)), PointElement(items[1]);
    assert PointElements(items) == [cueTime, cuePositions];
    TwoElements(cueTime, cuePositions);
    ElementLength(cueTime);
    ElementLength(cuePositions);
    ElementLength(CuesElement(Point(time)));
    hide IdWidth, Marker, EncodeElements, Pow256;
  }

  lemma {:induction false} PointsSize(times: seq<int>)
    requires forall i :: 0 <= i < |times| ==> 0 <= times[i] < 0x800_0000
    ensures |EncodeElements(CuesElements(Points(times)))| == 17 * |times|
  {
    if times != [] {
      PointsSize(times[1..]);
      PointSize(times[0]);
      hide Point, CuesElement, EncodeElement;
      assert CuesElements(Points(times))[1..] == CuesElements(Points(times[1..]));
    }
  }

  lemma CuesAreLegal(times: seq<int>)
    requires SmallTimes(times)
    ensures LegalCues(8, Points(times)) && Legal(CuesItself(times)) && |CuesItself(times).data| == 17 * |times|
    ensures EncodeElement(CuesItself(times)) == EncodeCues(8, Points(times))
    ensures |EncodeCues(8, Points(times))| == 12 + 17 * |times|
  {
    KnownIds();
    EightByteSizes();
    PointsSize(times);
    ElementLength(CuesItself(times));
    forall i | 0 <= i < |times|
      ensures LegalItem(Points(times)[i])
    {
      PointSize(times[i]);
    }
    hide IdWidth, Marker, LegalItem, EncodeElements, Header;
  }

  // ---- the seek head ----

  lemma SeekIsLegal()
    ensures LegalSegment(SeekHead(1, [SeekHere()]))
    ensures |EncodeElement(SegmentElement(SeekHead(1, [SeekHere()])))| == 26
  {
    HeaderIds();
    EightByteSizes();
    Widths();
    var items := SeekHere().seeks;
    var id, position := UintElement(ID_SEEK_ID, Uint(1, 4, ID_CUES)), UintElement(ID_SEEK_POSITION, Uint(1, 8, 26));
    assert SeekElements(items) == [id, position];
    TwoElements(id, position);
    ElementLength(id);
    ElementLength(position);
    var seek := SeekHeadElement(SeekHere());
    assert SeekHeadElements([SeekHere()]) == [seek];
    OneElement(seek);
    ElementLength(seek);
    ElementLength(SegmentElement(SeekHead(1, [SeekHere()])));
    hide IdWidth, Marker, EncodeElements, Pow256;
  }

  lemma SeekMeansCues(times: seq<int>)
    requires forall i :: 0 <= i < |times| ==> 0 <= times[i]
    ensures var items := StartOfFile(times).items;
            CuesPosition(items) == Some(26) && ScaleOf(items) == 1000000 && VideoTrackOf(items) == 1
  {
    hide CuesItself, EncodeElements;
    var items, seeks := StartOfFile(times).items, SeekHere().seeks;
    assert seeks[..1] == [seeks[0]];
    assert LastSeekId(seeks) == Some(ID_CUES);
    assert LastCuesSeek([SeekHere()]) == Some(26);
    assert items[..1] == [items[0]] && items[..1][..0] == [];
    assert CuesPosition(items[..1]) == Some(26);
    assert ScaleOf(items[..1]) == 1000000 && VideoTrackOf(items[..1]) == 1;
  }

  // ---- the file ----

  lemma BodyParts(times: seq<int>)
    requires SmallTimes(times)
    ensures var seek, f := EncodeElement(SegmentElement(SeekHead(1, [SeekHere()]))), StartOfFile(times);
            && |seek| == 26 && |EncodeElement(f.ebml)| == 6 && |Header(ID_SEGMENT, 8, f.size)| == 12
            && SegmentBody(f) == seek + EncodeCues(8, Points(times)) + []
            && FileOf(times) == EncodeElement(f.ebml) + (Header(ID_SEGMENT, 8, f.size) + SegmentBody(f))
            && BodyStart(f) == 18
  {
    HeaderIds();
    CuesAreLegal(times);
    SeekIsLegal();
    var f := StartOfFile(times);
    var seek, cues := SegmentElement(f.items[0]), CuesItself(times);
    assert SegmentElements(f.items) == [seek, cues];
    TwoElements(seek, cues);
    ElementLength(f.ebml);
    hide IdWidth, EncodeElement, EncodeElements, Header, SeekHere, Points, CuesItself, SegmentElement, EncodeCues;
  }

  lemma BodyIs(times: seq<int>)
    requires SmallTimes(times)
    ensures var f := StartOfFile(times);
            && |SegmentBody(f)| == 38 + 17 * |times| && BodyStart(f) == 18
            && FileOf(times)[44..] == EncodeCues(8, Points(times)) && |FileOf(times)| == 56 + 17 * |times|
  {
    assert forall i :: 0 <= i < |times| ==> 0 <= times[i];
    hide *;
    CuesAreLegal(times);
    BodyParts(times);
    var f := StartOfFile(times);
    CutAt(EncodeElement(f.ebml), Header(ID_SEGMENT, 8, f.size), EncodeElement(SegmentElement(SeekHead(1, [SeekHere()]))),
          EncodeCues(8, Points(times)));
  }

  lemma CutAt(a: seq<Byte>, b: seq<Byte>, c: seq<Byte>, d: seq<Byte>)
    ensures (a + (b + (c + d + [])))[|a| + |b| + |c|..] == d
  {
  }

  lemma ItemsAreLegal(times: seq<int>)
    requires SmallTimes(times)
    ensures forall i :: 0 <= i < |StartOfFile(times).items| ==> LegalSegment(StartOfFile(times).items[i])
    ensures HarmlessTail([])
  {
    CuesAreLegal(times);
    SeekIsLegal();
    assert MeansNothing(ID_CUES);
    hide IdWidth, Marker, EncodeElement, EncodeElements, SeekHere, Points, Legal;
    assert [] <= EncodeElement(CuesItself(times));
  }

  lemma HeaderIsLegal(times: seq<int>)
    requires forall i :: 0 <= i < |times| ==> 0 <= times[i]
    ensures Legal(StartOfFile(times).ebml)
  {
    HeaderIds();
    EightByteSizes();
    hide IdWidth, Marker;
  }

  lemma StartIsLegal(times: seq<int>)
    requires SmallTimes(times)
    ensures LegalStart(StartOfFile(times))
  {
    EightByteSizes();
    CuesAreLegal(times);
    HeaderIsLegal(times);
    ItemsAreLegal(times);
    BodyIs(times);
    hide IdWidth, Marker, EncodeElement, EncodeElements, SegmentBody, SeekHere, Points, Legal, LegalSegment, HarmlessTail;
  }

  lemma {:induction false} PointsMean(times: seq<int>, segmentStart: nat)
    requires forall i :: 0 <= i < |times| ==> 0 <= times[i]
    ensures TimesOf(Meanings(Points(times), 1000000, 1, segmentStart)) == times
  {
    if times != [] {
      var n := |times| - 1;
      PointsMean(times[..n], segmentStart);
      PointMeaning(times[n], segmentStart);
      hide Point, Meaning;
      assert Points(times)[..n] == Points(times[..n]);
      assert times == times[..n] + [times[n]];
    }
  }

  lemma PointMeaning(time: nat, segmentStart: nat)
    ensures |Meaning(Point(time), 1000000, 1, segmentStart)| == 1
    ensures Meaning(Point(time), 1000000, 1, segmentStart)[0].timeMs == time
  {
    var items := Point(time).items;
    assert items[..1] == [items[0]];
    assert LastTime(items[..1]) == Some(time);
    assert LastTrack(items[1].positions) == Some(1);
    assert time * 1000000 / 1000000 == time;
  }

  lemma NotNegative(times: seq<int>)
    requires SmallTimes(times)
    ensures 0 < |times| <= 10000 && forall i :: 0 <= i < |times| ==> 0 <= times[i]
  {
  }

  lemma StartsHere(times: seq<int>)
    requires SmallTimes(times)
    ensures StartsAs(FileOf(times), StartOfFile(times))
  {
    StartIsLegal(times);
    BodyIs(times);
    assert FileOf(times) == EncodeStart(StartOfFile(times));
    hide StartOfFile, EncodeStart, LegalStart, FileOf, SegmentBody, BodyStart, EncodeCues;
  }

  /** The file is found to have exactly these cues. */
  lemma FileHasTimes(times: seq<int>)
    requires SmallTimes(times)
    ensures TimesOf(CuesOf(FileOf(times))) == times
  {
    hide *;
    NotNegative(times);
    var f, items := StartOfFile(times), Points(times);
    StartsHere(times);
    BodyIs(times);
    CuesAreLegal(times);
    SeekMeansCues(times);
    PointsMean(times, BodyStart(f));
    assert EncodeCues(8, items) == EncodeCues(8, items) + [];
    IndexOfFile(FileOf(times), f, 8, items, []);
  }
}
