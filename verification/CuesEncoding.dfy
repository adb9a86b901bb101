/** Cues elements as trees, their meaning (RFC 9559, section 5.1.5), and that the parser finds exactly that meaning. */
module CuesEncoding {
  import opened Bytes
  import opened Wrappers
  import opened Ebml
  import opened EbmlEncoding
  import opened MatroskaIds
  import opened Cues

  /** An unsigned integer element: its value in `bytes` bytes, its size in a field of `sizeWidth` bytes. */
  datatype Uint = Uint(sizeWidth: nat, bytes: nat, value: nat)

  /** What can stand in a CueTrackPositions element, in any order and any number. */
  datatype PositionItem =
    | CueTrack(track: Uint)
    | CueClusterPosition(position: Uint)
    | CueRelativePosition(position: Uint)
    | OtherPosition(element: Element)

  /** What can stand in a CuePoint element. */
  datatype PointItem =
    | CueTime(time: Uint)
    | CueTrackPositions(sizeWidth: nat, positions: seq<PositionItem>)
    | OtherPoint(element: Element)

  /** What can stand in a Cues element. */
  datatype CuesItem =
    | CuePoint(sizeWidth: nat, items: seq<PointItem>)
    | OtherCues(element: Element)

  // ---- bytes ----

  function UintElement(id: nat, u: Uint): Element {
    Element(id, u.sizeWidth, BE(u.bytes, u.value))
  }

  function PositionElement(item: PositionItem): Element {
    match item
    case CueTrack(u) => UintElement(ID_CUE_TRACK, u)
    case CueClusterPosition(u) => UintElement(ID_CUE_CLUSTER_POSITION, u)
    case CueRelativePosition(u) => UintElement(ID_CUE_RELATIVE_POSITION, u)
    case OtherPosition(e) => e
  }

  function PositionElements(items: seq<PositionItem>): (r: seq<Element>)
    ensures |r| == |items|
  {
    seq(|items|, i requires 0 <= i < |items| => PositionElement(items[i]))
  }

  function PointElement(item: PointItem): Element {
    match item
    case CueTime(u) => UintElement(ID_CUE_TIME, u)
    case CueTrackPositions(w, items) => Element(ID_CUE_TRACK_POSITIONS, w, EncodeElements(PositionElements(items)))
    case OtherPoint(e) => e
  }

  function PointElements(items: seq<PointItem>): (r: seq<Element>)
    ensures |r| == |items|
  {
    seq(|items|, i requires 0 <= i < |items| => PointElement(items[i]))
  }

  function CuesElement(item: CuesItem): Element {
    match item
    case CuePoint(w, items) => Element(ID_CUE_POINT, w, EncodeElements(PointElements(items)))
    case OtherCues(e) => e
  }

  function CuesElements(items: seq<CuesItem>): (r: seq<Element>)
    ensures |r| == |items|
  {
    seq(|items|, i requires 0 <= i < |items| => CuesElement(items[i]))
  }

  function EncodeCues(sizeWidth: nat, items: seq<CuesItem>): seq<Byte> {
    var data := EncodeElements(CuesElements(items));
    Header(ID_CUES, sizeWidth, |data|) + data
  }

  // ---- legal trees ----

  /** The value fits its bytes, and the signed integer the parser keeps it in. */
  predicate LegalUint(u: Uint, limit: nat) {
    1 <= u.bytes <= 8 && u.value < Pow256(u.bytes) && u.value < limit && LegalSize(u.sizeWidth, u.bytes)
  }

  predicate LegalPosition(item: PositionItem) {
    match item
    case CueTrack(u) => LegalUint(u, 0x8000_0000)
    case CueClusterPosition(u) => LegalUint(u, 0x8000_0000_0000_0000)
    case CueRelativePosition(u) => LegalUint(u, 0x8000_0000_0000_0000)
    case OtherPosition(e) => Legal(e) && e.id !in {ID_CUE_TRACK, ID_CUE_CLUSTER_POSITION, ID_CUE_RELATIVE_POSITION}
  }

  predicate LegalPoint(item: PointItem) {
    match item
    case CueTime(u) => LegalUint(u, 0x8000_0000_0000_0000)
    case CueTrackPositions(w, items) =>
      && LegalSize(w, |EncodeElements(PositionElements(items))|)
      && items != [] && forall i :: 0 <= i < |items| ==> LegalPosition(items[i])
    case OtherPoint(e) => Legal(e) && e.id !in {ID_CUE_TIME, ID_CUE_TRACK_POSITIONS}
  }

  predicate LegalItem(item: CuesItem) {
    match item
    case CuePoint(w, items) =>
      && LegalSize(w, |EncodeElements(PointElements(items))|)
      && items != [] && forall i :: 0 <= i < |items| ==> LegalPoint(items[i])
    case OtherCues(e) => Legal(e) && e.id != ID_CUE_POINT
  }

  predicate LegalCues(sizeWidth: nat, items: seq<CuesItem>) {
    && LegalSize(sizeWidth, |EncodeElements(CuesElements(items))|)
    && forall i :: 0 <= i < |items| ==> LegalItem(items[i])
  }

  // ---- meaning ----

  function LastTrack(items: seq<PositionItem>): Option<nat> {
    if items == [] then None
    else
      var n := |items| - 1;
      if items[n].CueTrack? then Some(items[n].track.value) else LastTrack(items[..n])
  }

  function LastCluster(items: seq<PositionItem>): Option<nat> {
    if items == [] then None
    else
      var n := |items| - 1;
      if items[n].CueClusterPosition? then Some(items[n].position.value) else LastCluster(items[..n])
  }

  function LastRelative(items: seq<PositionItem>): Option<nat> {
    if items == [] then None
    else
      var n := |items| - 1;
      if items[n].CueRelativePosition? then Some(items[n].position.value) else LastRelative(items[..n])
  }

  function OrElse(o: Option<nat>, default: int): int {
    match o
    case Some(v) => v
    case None => default
  }

  function LastTime(items: seq<PointItem>): Option<nat> {
    if items == [] then None
    else
      var n := |items| - 1;
      if items[n].CueTime? then Some(items[n].time.value) else LastTime(items[..n])
  }

  /** The last CueTrackPositions of the given track. */
  function LastOfTrack(items: seq<PointItem>, track: int): Option<seq<PositionItem>> {
    if items == [] then None
    else
      var n := |items| - 1;
      if items[n].CueTrackPositions? && OrElse(LastTrack(items[n].positions), 0) == track then Some(items[n].positions)
      else LastOfTrack(items[..n], track)
  }

  /** A cue point gives an entry if and only if it has a time and positions of the video track. */
  function Meaning(item: CuesItem, scale: nat, track: int, segmentStart: nat): seq<CueEntry> {
    if !item.CuePoint? then []
    else
      match (LastTime(item.items), LastOfTrack(item.items, track))
      case (Some(time), Some(positions)) =>
        var cluster := LastCluster(positions);
        [CueEntry(time * scale / 1000000, time, track,
                  if cluster.Some? then segmentStart + cluster.value else -1,
                  OrElse(LastRelative(positions), -1))]
      case _ => []
  }

  /** The entries of the cue points, in file order. */
  function Meanings(items: seq<CuesItem>, scale: nat, track: int, segmentStart: nat): seq<CueEntry> {
    if items == [] then []
    else
      var n := |items| - 1;
      Meanings(items[..n], scale, track, segmentStart) + Meaning(items[n], scale, track, segmentStart)
  }

  // ---- the parser finds the meaning ----

  lemma KnownIds()
    ensures IdWidth(ID_CUES) == 4 && IdWidth(ID_CUE_POINT) == IdWidth(ID_CUE_TIME) == IdWidth(ID_CUE_TRACK_POSITIONS) == 1
    ensures IdWidth(ID_CUE_TRACK) == IdWidth(ID_CUE_CLUSTER_POSITION) == IdWidth(ID_CUE_RELATIVE_POSITION) == 1
  {
    Widths();
    assert Pow256(0) == 1;
    assert Marker(1) == 0x80 && Marker(2) == 0x4000 && Marker(3) == 0x20_0000 && Marker(4) == 0x1000_0000;
  }

  lemma UintReads(id: nat, u: Uint, limit: nat)
    requires LegalUint(u, limit) && IdWidth(id) > 0
    ensures Legal(UintElement(id, u)) && ReadUint(UintElement(id, u).data) == u.value
  {
    hide BE, UnBE, IdWidth;
    UnBEofBE(u.bytes, u.value);
    var data := BE(u.bytes, u.value);
    assert |data| == 8 ==> data[..8] == data;
  }

  lemma NonEmpty(elements: seq<Element>)
    requires elements != [] && Legal(elements[0])
    ensures EncodeElements(elements) != []
  {
    hide Header;
    assert |EncodeElement(elements[0])| > 0;
  }

  /** Whether `v` is the visit that the element is meant to cause, wherever it stands. */
  predicate IsVisit(v: Visit, e: Element) {
    v.id == e.id && v.data == e.data
  }

  lemma {:induction false} VisitsAt(elements: seq<Element>, base: nat, i: nat)
    requires i < |elements|
    ensures IsVisit(Visits(elements, base)[i], elements[i])
  {
    if i > 0 {
      VisitsAt(elements[1..], base + HeaderSize(elements[0]) + |elements[0].data|, i - 1);
    }
  }

  lemma ScanElements(elements: seq<Element>, base: nat)
    requires AllLegal(elements)
    ensures var visits := Scan(EncodeElements(elements), base);
            && |visits| == |elements|
            && forall i :: 0 <= i < |elements| ==> IsVisit(visits[i], elements[i])
  {
    hide Visits, EncodeElements, Legal;
    ScanOfAll(elements, base);
    forall i | 0 <= i < |elements|
      ensures IsVisit(Visits(elements, base)[i], elements[i])
    {
      VisitsAt(elements, base, i);
    }
  }

  lemma LegalPositionElement(item: PositionItem)
    requires LegalPosition(item)
    ensures Legal(PositionElement(item))
  {
    KnownIds();
    hide IdWidth, LegalUint, Legal, UintElement;
    match item
    case CueTrack(u) => UintReads(ID_CUE_TRACK, u, 0x8000_0000);
    case CueClusterPosition(u) => UintReads(ID_CUE_CLUSTER_POSITION, u, 0x8000_0000_0000_0000);
    case CueRelativePosition(u) => UintReads(ID_CUE_RELATIVE_POSITION, u, 0x8000_0000_0000_0000);
    case OtherPosition(e) =>
  }

  lemma PositionStepMeans(items: seq<PositionItem>, item: PositionItem, p: Positions, v: Visit)
    requires LegalPosition(item) && IsVisit(v, PositionElement(item))
    requires p == MeantPositions(items)
    ensures PositionsStep(p, v) == MeantPositions(items + [item])
  {
    KnownIds();
    LastPosition(items, item);
    hide IdWidth, Legal, LastTrack, LastCluster, LastRelative, ReadUint;
    match item
    case CueTrack(u) => UintReads(ID_CUE_TRACK, u, 0x8000_0000);
    case CueClusterPosition(u) => UintReads(ID_CUE_CLUSTER_POSITION, u, 0x8000_0000_0000_0000);
    case CueRelativePosition(u) => UintReads(ID_CUE_RELATIVE_POSITION, u, 0x8000_0000_0000_0000);
    case OtherPosition(e) =>
  }

  lemma LastPosition(items: seq<PositionItem>, item: PositionItem)
    ensures LastTrack(items + [item]) == if item.CueTrack? then Some(item.track.value) else LastTrack(items)
    ensures LastCluster(items + [item]) == if item.CueClusterPosition? then Some(item.position.value) else LastCluster(items)
    ensures LastRelative(items + [item])
         == if item.CueRelativePosition? then Some(item.position.value) else LastRelative(items)
  {
    assert (items + [item])[..|items|] == items;
  }

  function MeantPositions(items: seq<PositionItem>): Positions {
    Positions(OrElse(LastTrack(items), 0), OrElse(LastCluster(items), -1), OrElse(LastRelative(items), -1))
  }

  lemma {:induction false} FoldPositionsMeans(items: seq<PositionItem>, visits: seq<Visit>)
    requires |visits| == |items|
    requires forall i :: 0 <= i < |items| ==> LegalPosition(items[i]) && IsVisit(visits[i], PositionElement(items[i]))
    ensures FoldPositions(visits) == MeantPositions(items)
  {
    hide LegalPosition, PositionElement, PositionsStep, IsVisit;
    if items != [] {
      var n := |items| - 1;
      FoldPositionsMeans(items[..n], visits[..n]);
      assert items == items[..n] + [items[n]];
      PositionStepMeans(items[..n], items[n], FoldPositions(visits[..n]), visits[n]);
    }
  }

  lemma PositionsMean(items: seq<PositionItem>)
    requires forall i :: 0 <= i < |items| ==> LegalPosition(items[i])
    ensures ReadPositions(EncodeElements(PositionElements(items))) == MeantPositions(items)
    ensures items != [] ==> EncodeElements(PositionElements(items)) != []
  {
    hide EncodeElements, LegalPosition, PositionElement, Legal, FoldPositions, MeantPositions, Scan, IsVisit;
    var elements := PositionElements(items);
    forall i | 0 <= i < |items|
      ensures Legal(elements[i])
    {
      LegalPositionElement(items[i]);
    }
    ScanElements(elements, 0);
    FoldPositionsMeans(items, Scan(EncodeElements(elements), 0));
    if items != [] {
      NonEmpty(elements);
    }
  }

  lemma LegalPointElement(item: PointItem)
    requires LegalPoint(item)
    ensures Legal(PointElement(item))
  {
    KnownIds();
    hide IdWidth, UintElement, LegalUint, LegalPosition, EncodeElements, LegalSize;
    match item
    case CueTime(u) => UintReads(ID_CUE_TIME, u, 0x8000_0000_0000_0000);
    case CueTrackPositions(w, items) => PositionsMean(items);
    case OtherPoint(e) =>
  }

  function MeantPoint(items: seq<PointItem>, track: int): Point {
    Point(OrElse(LastTime(items), -1),
          match LastOfTrack(items, track)
          case Some(positions) => Some(MeantPositions(positions))
          case None => None)
  }

  lemma PointStepMeans(items: seq<PointItem>, item: PointItem, p: Point, v: Visit, track: int)
    requires LegalPoint(item) && IsVisit(v, PointElement(item))
    requires p == MeantPoint(items, track)
    ensures PointStep(p, v, track) == MeantPoint(items + [item], track)
  {
    hide IdWidth, Legal, LegalPosition, EncodeElements, ReadPositions, LegalSize;
    KnownIds();
    assert (items + [item])[..|items|] == items;
    match item
    case CueTime(u) => UintReads(ID_CUE_TIME, u, 0x8000_0000_0000_0000);
    case CueTrackPositions(w, positions) => PositionsMean(positions);
    case OtherPoint(e) =>
  }

  lemma {:induction false} FoldPointMeans(items: seq<PointItem>, visits: seq<Visit>, track: int)
    requires |visits| == |items|
    requires forall i :: 0 <= i < |items| ==> LegalPoint(items[i]) && IsVisit(visits[i], PointElement(items[i]))
    ensures FoldPoint(visits, track) == MeantPoint(items, track)
  {
    hide LegalPoint, PointElement, PointStep, IsVisit;
    if items != [] {
      var n := |items| - 1;
      FoldPointMeans(items[..n], visits[..n], track);
      assert items == items[..n] + [items[n]];
      PointStepMeans(items[..n], items[n], FoldPoint(visits[..n], track), visits[n], track);
    }
  }

  lemma PointMeans(items: seq<PointItem>, track: int)
    requires forall i :: 0 <= i < |items| ==> LegalPoint(items[i])
    ensures ReadPoint(EncodeElements(PointElements(items)), track) == MeantPoint(items, track)
    ensures items != [] ==> EncodeElements(PointElements(items)) != []
  {
    hide EncodeElements, LegalPoint, PointElement, Legal, FoldPoint, MeantPoint, Scan, IsVisit;
    var elements := PointElements(items);
    forall i | 0 <= i < |items|
      ensures Legal(elements[i])
    {
      LegalPointElement(items[i]);
    }
    ScanElements(elements, 0);
    FoldPointMeans(items, Scan(EncodeElements(elements), 0), track);
    if items != [] {
      NonEmpty(elements);
    }
  }

  lemma LegalCuesElement(item: CuesItem)
    requires LegalItem(item)
    ensures Legal(CuesElement(item))
  {
    KnownIds();
    hide IdWidth, LegalPoint, EncodeElements, LegalSize;
    match item
    case CuePoint(w, items) => PointMeans(items, 0);
    case OtherCues(e) =>
  }

  lemma {:induction false} TrackOfLast(items: seq<PointItem>, track: int)
    ensures LastOfTrack(items, track).Some? ==> OrElse(LastTrack(LastOfTrack(items, track).value), 0) == track
  {
    if items != [] {
      TrackOfLast(items[..|items| - 1], track);
    }
  }

  lemma ItemMeans(item: CuesItem, v: Visit, scale: nat, track: int, segmentStart: nat)
    requires LegalItem(item) && IsVisit(v, CuesElement(item))
    ensures EntryOfVisit(v, scale, track, segmentStart) == Meaning(item, scale, track, segmentStart)
  {
    hide IdWidth, LegalPoint, EncodeElements, LegalSize, ReadPoint, Legal, LastTime, LastOfTrack, LastTrack,
         LastCluster, LastRelative;
    if item.CuePoint? {
      PointMeans(item.items, track);
      TrackOfLast(item.items, track);
      TimeTimesScale(LastTime(item.items), scale);
    }
  }

  lemma TimeTimesScale(time: Option<nat>, scale: nat)
    ensures time.Some? ==> time.value * scale >= 0
  {
  }

  lemma {:induction false} EntriesMean(items: seq<CuesItem>, visits: seq<Visit>, scale: nat, track: int, segmentStart: nat)
    requires |visits| == |items|
    requires forall i :: 0 <= i < |items| ==> LegalItem(items[i]) && IsVisit(visits[i], CuesElement(items[i]))
    ensures EntriesOf(visits, scale, track, segmentStart) == Meanings(items, scale, track, segmentStart)
  {
    hide LegalItem, CuesElement, EntryOfVisit, Meaning, IsVisit;
    if items != [] {
      var n := |items| - 1;
      EntriesMean(items[..n], visits[..n], scale, track, segmentStart);
      ItemMeans(items[n], visits[n], scale, track, segmentStart);
    }
  }

  /** Parsing an encoded Cues element finds exactly the entries it means, whatever the widths, orders and unknown
      elements it was written with. */
  lemma CuesRoundTrip(sizeWidth: nat, items: seq<CuesItem>, scale: nat, track: int, segmentStart: nat)
    requires LegalCues(sizeWidth, items)
    ensures ReadCues(EncodeCues(sizeWidth, items), scale, track, segmentStart)
         == Meanings(items, scale, track, segmentStart)
  {
    hide *;
    CuesHeader(sizeWidth, items);
    ReadCuesFrom(EncodeCues(sizeWidth, items), scale, track, segmentStart);
    ItemsMean(items, IdWidth(ID_CUES) + sizeWidth, scale, track, segmentStart);
  }

  lemma CuesHeader(sizeWidth: nat, items: seq<CuesItem>)
    requires LegalCues(sizeWidth, items)
    ensures var buf := EncodeCues(sizeWidth, items);
            && |buf| >= 4 && CuesChildren(buf) == Some(IdWidth(ID_CUES) + sizeWidth)
            && buf[IdWidth(ID_CUES) + sizeWidth..] == EncodeElements(CuesElements(items))
    ensures forall i :: 0 <= i < |items| ==> LegalItem(items[i])
  {
    var buf, data := EncodeCues(sizeWidth, items), EncodeElements(CuesElements(items));
    KnownIds();
    hide IdWidth, ReadId, ReadSize, Header, EncodeElements, Marker, LegalItem;
    assert buf[0..] == buf;
    ReadHeader(buf, 0, ID_CUES, sizeWidth, |data|, data);
  }

  lemma ItemsMean(items: seq<CuesItem>, base: nat, scale: nat, track: int, segmentStart: nat)
    requires forall i :: 0 <= i < |items| ==> LegalItem(items[i])
    ensures EntriesOf(Scan(EncodeElements(CuesElements(items)), base), scale, track, segmentStart)
         == Meanings(items, scale, track, segmentStart)
  {
    hide EncodeElements, LegalItem, CuesElement, Legal, EntriesOf, Meanings, Scan, IsVisit;
    var elements := CuesElements(items);
    forall i | 0 <= i < |items|
      ensures Legal(elements[i])
    {
      LegalCuesElement(items[i]);
    }
    ScanElements(elements, base);
    EntriesMean(items, Scan(EncodeElements(elements), base), scale, track, segmentStart);
  }

  /** Cutting an encoded Cues element anywhere loses no entry of a cue point that is still complete, and adds at most
      one that the whole element does not have, at the end. */
  lemma TruncatedRoundTrip(sizeWidth: nat, items: seq<CuesItem>, m: nat, k: nat, scale: nat, track: int, segmentStart: nat)
    requires LegalCues(sizeWidth, items) && m <= |items|
    requires IdWidth(ID_CUES) + sizeWidth + |EncodeElements(CuesElements(items[..m]))| <= k <= |EncodeCues(sizeWidth, items)|
    ensures var cut := ReadCues(EncodeCues(sizeWidth, items)[..k], scale, track, segmentStart);
            && Meanings(items[..m], scale, track, segmentStart) <= cut
            && (cut != [] ==> cut[..|cut| - 1] <= Meanings(items, scale, track, segmentStart))
  {
    hide *;
    var buf, pos := EncodeCues(sizeWidth, items), IdWidth(ID_CUES) + sizeWidth;
    var cut := buf[..k];
    CuesRoundTrip(sizeWidth, items, scale, track, segmentStart);
    TruncatedCues(buf, k, scale, track, segmentStart);
    CuesHeader(sizeWidth, items);
    CutHeader(sizeWidth, items, k);
    ReadCuesFrom(cut, scale, track, segmentStart);
    var head := CuesElements(items[..m]);
    ElementsSplit(items, m);
    var rest := buf[pos..][|EncodeElements(head)|..k - pos];
    assert cut[pos..] == buf[pos..][..k - pos] == EncodeElements(head) + rest;
    FirstItemsMean(items[..m], rest, cut[pos..], pos, scale, track, segmentStart);
  }

  lemma CutHeader(sizeWidth: nat, items: seq<CuesItem>, k: nat)
    requires LegalCues(sizeWidth, items) && IdWidth(ID_CUES) + sizeWidth <= k <= |EncodeCues(sizeWidth, items)|
    ensures k >= 4 && CuesChildren(EncodeCues(sizeWidth, items)[..k]) == Some(IdWidth(ID_CUES) + sizeWidth)
  {
    var buf, data := EncodeCues(sizeWidth, items), EncodeElements(CuesElements(items));
    var pos := IdWidth(ID_CUES) + sizeWidth;
    KnownIds();
    hide IdWidth, ReadId, ReadSize, Header, EncodeElements, Marker, LegalItem;
    assert buf[..k][0..] == Header(ID_CUES, sizeWidth, |data|) + data[..k - pos];
    ReadHeader(buf[..k], 0, ID_CUES, sizeWidth, |data|, data[..k - pos]);
    assert buf[..k][0..] == buf[..k];
  }

  lemma {:induction false} EncodeElementsConcat(a: seq<Element>, b: seq<Element>)
    ensures EncodeElements(a + b) == EncodeElements(a) + EncodeElements(b)
  {
    hide EncodeElement;
    if a == [] {
      assert a + b == b;
    } else {
      assert (a + b)[1..] == a[1..] + b;
      EncodeElementsConcat(a[1..], b);
    }
  }

  lemma ElementsSplit(items: seq<CuesItem>, m: nat)
    requires m <= |items|
    ensures EncodeElements(CuesElements(items[..m])) <= EncodeElements(CuesElements(items))
  {
    hide CuesElement, EncodeElements;
    assert CuesElements(items) == CuesElements(items[..m]) + CuesElements(items[m..]);
    EncodeElementsConcat(CuesElements(items[..m]), CuesElements(items[m..]));
  }

  lemma FirstItemsMean(items: seq<CuesItem>, rest: seq<Byte>, s: seq<Byte>, base: nat, scale: nat, track: int,
                       segmentStart: nat)
    requires forall i :: 0 <= i < |items| ==> LegalItem(items[i])
    requires s == EncodeElements(CuesElements(items)) + rest
    ensures Meanings(items, scale, track, segmentStart) <= EntriesOf(Scan(s, base), scale, track, segmentStart)
  {
    hide EncodeElements, LegalItem, CuesElement, Legal, EntriesOf, Meanings, ScanFrom, IsVisit, Visits;
    var elements := CuesElements(items);
    forall i | 0 <= i < |items|
      ensures Legal(elements[i])
    {
      LegalCuesElement(items[i]);
    }
    assert s[0..] == s;
    ScanOf(elements, rest, s, 0, base);
    var next := |EncodeElements(elements)|;
    forall i | 0 <= i < |items|
      ensures IsVisit(Visits(elements, base)[i], elements[i])
    {
      VisitsAt(elements, base, i);
    }
    EntriesMean(items, Visits(elements, base), scale, track, segmentStart);
    EntriesConcat(Visits(elements, base), ScanFrom(s, next, base), scale, track, segmentStart);
  }
}
