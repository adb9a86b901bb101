/** Beginnings of Matroska files as trees, their meaning, and that the parsers find exactly that meaning, also when
    the buffer ends within an element that means nothing to them. */
module MkvHeaderEncoding {
  import opened Bytes
  import opened Wrappers
  import opened Ebml
  import opened EbmlEncoding
  import opened MatroskaIds
  import opened CuesEncoding
  import opened MkvHeader

  datatype SeekItem = SeekId(id: Uint) | SeekPosition(position: Uint) | OtherSeek(element: Element)

  datatype SeekHeadItem = Seek(sizeWidth: nat, seeks: seq<SeekItem>) | OtherSeekHead(element: Element)

  datatype InfoItem = TimestampScale(scale: Uint) | OtherInfo(element: Element)

  datatype TrackItem = TrackNumber(number: Uint) | TrackType(kind: Uint) | OtherTrack(element: Element)

  datatype TracksItem = TrackEntry(sizeWidth: nat, fields: seq<TrackItem>) | OtherTracks(element: Element)

  /** What can stand in a segment. */
  datatype SegmentItem =
    | SeekHead(sizeWidth: nat, entries: seq<SeekHeadItem>)
    | Info(sizeWidth: nat, infos: seq<InfoItem>)
    | Tracks(sizeWidth: nat, tracks: seq<TracksItem>)
    | OtherSegment(element: Element)

  // ---- bytes ----

  function SeekElement(item: SeekItem): Element {
    match item
    case SeekId(u) => UintElement(ID_SEEK_ID, u)
    case SeekPosition(u) => UintElement(ID_SEEK_POSITION, u)
    case OtherSeek(e) => e
  }

  function SeekElements(items: seq<SeekItem>): (r: seq<Element>)
    ensures |r| == |items|
  {
    seq(|items|, i requires 0 <= i < |items| => SeekElement(items[i]))
  }

  function SeekHeadElement(item: SeekHeadItem): Element {
    match item
    case Seek(w, items) => Element(ID_SEEK, w, EncodeElements(SeekElements(items)))
    case OtherSeekHead(e) => e
  }

  function SeekHeadElements(items: seq<SeekHeadItem>): (r: seq<Element>)
    ensures |r| == |items|
  {
    seq(|items|, i requires 0 <= i < |items| => SeekHeadElement(items[i]))
  }

  function InfoElement(item: InfoItem): Element {
    match item
    case TimestampScale(u) => UintElement(ID_TIMESTAMP_SCALE, u)
    case OtherInfo(e) => e
  }

  function InfoElements(items: seq<InfoItem>): (r: seq<Element>)
    ensures |r| == |items|
  {
    seq(|items|, i requires 0 <= i < |items| => InfoElement(items[i]))
  }

  function TrackElement(item: TrackItem): Element {
    match item
    case TrackNumber(u) => UintElement(ID_TRACK_NUMBER, u)
    case TrackType(u) => UintElement(ID_TRACK_TYPE, u)
    case OtherTrack(e) => e
  }

  function TrackElements(items: seq<TrackItem>): (r: seq<Element>)
    ensures |r| == |items|
  {
    seq(|items|, i requires 0 <= i < |items| => TrackElement(items[i]))
  }

  function TracksElement(item: TracksItem): Element {
    match item
    case TrackEntry(w, items) => Element(ID_TRACK_ENTRY, w, EncodeElements(TrackElements(items)))
    case OtherTracks(e) => e
  }

  function TracksElements(items: seq<TracksItem>): (r: seq<Element>)
    ensures |r| == |items|
  {
    seq(|items|, i requires 0 <= i < |items| => TracksElement(items[i]))
  }

  function SegmentElement(item: SegmentItem): Element {
    match item
    case SeekHead(w, items) => Element(ID_SEEK_HEAD, w, EncodeElements(SeekHeadElements(items)))
    case Info(w, items) => Element(ID_INFO, w, EncodeElements(InfoElements(items)))
    case Tracks(w, items) => Element(ID_TRACKS, w, EncodeElements(TracksElements(items)))
    case OtherSegment(e) => e
  }

  function SegmentElements(items: seq<SegmentItem>): (r: seq<Element>)
    ensures |r| == |items|
  {
    seq(|items|, i requires 0 <= i < |items| => SegmentElement(items[i]))
  }

  // ---- legal trees ----

  const SEEK_LIMIT := 0x8000_0000_0000_0000
  const TRACK_LIMIT := 0x8000_0000

  predicate LegalSeek(item: SeekItem) {
    match item
    case SeekId(u) => LegalUint(u, SEEK_LIMIT)
    case SeekPosition(u) => LegalUint(u, SEEK_LIMIT)
    case OtherSeek(e) => Legal(e) && e.id !in {ID_SEEK_ID, ID_SEEK_POSITION}
  }

  predicate LegalSeekHead(item: SeekHeadItem) {
    match item
    case Seek(w, items) =>
      && items != [] && LegalSize(w, |EncodeElements(SeekElements(items))|)
      && forall i :: 0 <= i < |items| ==> LegalSeek(items[i])
    case OtherSeekHead(e) => Legal(e) && e.id != ID_SEEK
  }

  predicate LegalInfo(item: InfoItem) {
    match item
    case TimestampScale(u) => LegalUint(u, SEEK_LIMIT)
    case OtherInfo(e) => Legal(e) && e.id != ID_TIMESTAMP_SCALE
  }

  predicate LegalTrack(item: TrackItem) {
    match item
    case TrackNumber(u) => LegalUint(u, TRACK_LIMIT)
    case TrackType(u) => LegalUint(u, TRACK_LIMIT)
    case OtherTrack(e) => Legal(e) && e.id !in {ID_TRACK_NUMBER, ID_TRACK_TYPE}
  }

  predicate LegalTracks(item: TracksItem) {
    match item
    case TrackEntry(w, items) =>
      && items != [] && LegalSize(w, |EncodeElements(TrackElements(items))|)
      && forall i :: 0 <= i < |items| ==> LegalTrack(items[i])
    case OtherTracks(e) => Legal(e) && e.id != ID_TRACK_ENTRY
  }

  predicate LegalSegment(item: SegmentItem) {
    match item
    case SeekHead(w, items) =>
      && items != [] && LegalSize(w, |EncodeElements(SeekHeadElements(items))|)
      && forall i :: 0 <= i < |items| ==> LegalSeekHead(items[i])
    case Info(w, items) =>
      && items != [] && LegalSize(w, |EncodeElements(InfoElements(items))|)
      && forall i :: 0 <= i < |items| ==> LegalInfo(items[i])
    case Tracks(w, items) =>
      && items != [] && LegalSize(w, |EncodeElements(TracksElements(items))|)
      && forall i :: 0 <= i < |items| ==> LegalTracks(items[i])
    case OtherSegment(e) => Legal(e) && MeansNothing(e.id)
  }

  predicate MeansNothing(id: nat) {
    id != ID_SEEK_HEAD && id != ID_INFO && id != ID_TRACKS
  }

  // ---- meaning ----

  function LastSeekId(items: seq<SeekItem>): Option<nat> {
    if items == [] then None
    else
      var n := |items| - 1;
      if items[n].SeekId? then Some(items[n].id.value) else LastSeekId(items[..n])
  }

  function LastSeekPosition(items: seq<SeekItem>): Option<nat> {
    if items == [] then None
    else
      var n := |items| - 1;
      if items[n].SeekPosition? then Some(items[n].position.value) else LastSeekPosition(items[..n])
  }

  /** The position in the last Seek entry that names the Cues and has a position. */
  function LastCuesSeek(items: seq<SeekHeadItem>): Option<nat> {
    if items == [] then None
    else
      var n := |items| - 1;
      if items[n].Seek? && LastSeekId(items[n].seeks) == Some(ID_CUES) && LastSeekPosition(items[n].seeks).Some? then
        LastSeekPosition(items[n].seeks)
      else LastCuesSeek(items[..n])
  }

  function CuesPosition(items: seq<SegmentItem>): Option<nat> {
    if items == [] then None
    else
      var n := |items| - 1;
      if items[n].SeekHead? && LastCuesSeek(items[n].entries).Some? then LastCuesSeek(items[n].entries)
      else CuesPosition(items[..n])
  }

  function LastScale(items: seq<InfoItem>): Option<nat> {
    if items == [] then None
    else
      var n := |items| - 1;
      if items[n].TimestampScale? then Some(items[n].scale.value) else LastScale(items[..n])
  }

  function ScaleOf(items: seq<SegmentItem>): nat {
    if items == [] then 1000000
    else
      var n := |items| - 1;
      if items[n].Info? && LastScale(items[n].infos).Some? then LastScale(items[n].infos).value
      else ScaleOf(items[..n])
  }

  function LastNumber(items: seq<TrackItem>): Option<nat> {
    if items == [] then None
    else
      var n := |items| - 1;
      if items[n].TrackNumber? then Some(items[n].number.value) else LastNumber(items[..n])
  }

  function LastKind(items: seq<TrackItem>): Option<nat> {
    if items == [] then None
    else
      var n := |items| - 1;
      if items[n].TrackType? then Some(items[n].kind.value) else LastKind(items[..n])
  }

  /** The number of the last entry of type video that has a positive number. */
  function LastVideo(items: seq<TracksItem>): Option<nat> {
    if items == [] then None
    else
      var n := |items| - 1;
      if items[n].TrackEntry? && LastKind(items[n].fields) == Some(1) && OrElse(LastNumber(items[n].fields), 0) > 0 then
        LastNumber(items[n].fields)
      else LastVideo(items[..n])
  }

  function VideoTrackOf(items: seq<SegmentItem>): nat {
    if items == [] then 1
    else
      var n := |items| - 1;
      if items[n].Tracks? && LastVideo(items[n].tracks).Some? then LastVideo(items[n].tracks).value
      else VideoTrackOf(items[..n])
  }

  // ---- every known ID is legal ----

  lemma HeaderIds()
    ensures IdWidth(ID_EBML_HEADER) == IdWidth(ID_SEGMENT) == IdWidth(ID_SEEK_HEAD) == 4
    ensures IdWidth(ID_INFO) == IdWidth(ID_TRACKS) == 4
    ensures IdWidth(ID_SEEK) == IdWidth(ID_SEEK_ID) == IdWidth(ID_SEEK_POSITION) == 2
    ensures IdWidth(ID_TIMESTAMP_SCALE) == 3
    ensures IdWidth(ID_TRACK_ENTRY) == IdWidth(ID_TRACK_NUMBER) == IdWidth(ID_TRACK_TYPE) == 1
  {
    Widths();
    assert Pow256(0) == 1;
    assert Marker(1) == 0x80 && Marker(2) == 0x4000 && Marker(3) == 0x20_0000 && Marker(4) == 0x1000_0000;
  }

  // ---- seek heads ----

  lemma LegalSeekElement(item: SeekItem)
    requires LegalSeek(item)
    ensures Legal(SeekElement(item))
  {
    HeaderIds();
    hide IdWidth, LegalUint, Legal, UintElement;
    match item
    case SeekId(u) => UintReads(ID_SEEK_ID, u, SEEK_LIMIT);
    case SeekPosition(u) => UintReads(ID_SEEK_POSITION, u, SEEK_LIMIT);
    case OtherSeek(e) =>
  }

  lemma {:induction false} FoldSeekMeans(items: seq<SeekItem>, visits: seq<Visit>)
    requires |visits| == |items|
    requires forall i :: 0 <= i < |items| ==> LegalSeek(items[i]) && IsVisit(visits[i], SeekElement(items[i]))
    ensures FoldSeek(visits) == SeekEntry(LastSeekId(items), LastSeekPosition(items))
  {
    hide LegalSeek, SeekElement, SeekStep, IsVisit;
    if items != [] {
      var n := |items| - 1;
      FoldSeekMeans(items[..n], visits[..n]);
      SeekStepMeans(SeekEntry(LastSeekId(items[..n]), LastSeekPosition(items[..n])), items[n], visits[n]);
    }
  }

  lemma SeekStepMeans(s: SeekEntry, item: SeekItem, v: Visit)
    requires LegalSeek(item) && IsVisit(v, SeekElement(item))
    ensures SeekStep(s, v) == match item
                              case SeekId(u) => s.(id := Some(u.value))
                              case SeekPosition(u) => s.(position := Some(u.value))
                              case OtherSeek(_) => s
  {
    HeaderIds();
    hide IdWidth, Legal;
    match item
    case SeekId(u) => UintReads(ID_SEEK_ID, u, SEEK_LIMIT);
    case SeekPosition(u) => UintReads(ID_SEEK_POSITION, u, SEEK_LIMIT);
    case OtherSeek(e) =>
  }

  lemma SeekMeans(items: seq<SeekItem>)
    requires forall i :: 0 <= i < |items| ==> LegalSeek(items[i])
    ensures ReadSeek(EncodeElements(SeekElements(items))) == SeekEntry(LastSeekId(items), LastSeekPosition(items))
    ensures items != [] ==> EncodeElements(SeekElements(items)) != []
  {
    hide EncodeElements, LegalSeek, SeekElement, Legal, FoldSeek, LastSeekId, LastSeekPosition, Scan, IsVisit;
    var elements := SeekElements(items);
    forall i | 0 <= i < |items|
      ensures Legal(elements[i])
    {
      LegalSeekElement(items[i]);
    }
    ScanElements(elements, 0);
    FoldSeekMeans(items, Scan(EncodeElements(elements), 0));
    if items != [] {
      NonEmpty(elements);
    }
  }

  lemma LegalSeekHeadElement(item: SeekHeadItem)
    requires LegalSeekHead(item)
    ensures Legal(SeekHeadElement(item))
  {
    HeaderIds();
    hide IdWidth, LegalSeek, EncodeElements, LegalSize;
    match item
    case Seek(w, items) => SeekMeans(items);
    case OtherSeekHead(e) =>
  }

  /** The later of two optional values. */
  function Later(a: Option<nat>, b: Option<nat>): Option<nat> {
    if b.Some? then b else a
  }

  lemma {:induction false} FoldSeekHeadMeans(found: Option<nat>, items: seq<SeekHeadItem>, visits: seq<Visit>)
    requires |visits| == |items|
    requires forall i :: 0 <= i < |items| ==> LegalSeekHead(items[i]) && IsVisit(visits[i], SeekHeadElement(items[i]))
    ensures FoldSeekHead(found, visits) == Later(found, LastCuesSeek(items))
  {
    hide LegalSeekHead, SeekHeadElement, SeekHeadStep, IsVisit, LastSeekId, LastSeekPosition;
    if items != [] {
      var n := |items| - 1;
      FoldSeekHeadMeans(found, items[..n], visits[..n]);
      SeekHeadStepMeans(FoldSeekHead(found, visits[..n]), items[n], visits[n]);
    }
  }

  lemma SeekHeadStepMeans(found: Option<nat>, item: SeekHeadItem, v: Visit)
    requires LegalSeekHead(item) && IsVisit(v, SeekHeadElement(item))
    ensures SeekHeadStep(found, v)
         == if item.Seek? && LastSeekId(item.seeks) == Some(ID_CUES) && LastSeekPosition(item.seeks).Some?
            then LastSeekPosition(item.seeks) else found
  {
    hide IdWidth, Legal, LegalSeek, EncodeElements, ReadSeek, LegalSize, LastSeekId, LastSeekPosition;
    if item.Seek? {
      SeekMeans(item.seeks);
    }
  }

  lemma SeekHeadMeans(found: Option<nat>, items: seq<SeekHeadItem>)
    requires forall i :: 0 <= i < |items| ==> LegalSeekHead(items[i])
    ensures FoldSeekHead(found, Scan(EncodeElements(SeekHeadElements(items)), 0)) == Later(found, LastCuesSeek(items))
    ensures items != [] ==> EncodeElements(SeekHeadElements(items)) != []
  {
    hide EncodeElements, LegalSeekHead, SeekHeadElement, Legal, FoldSeekHead, LastCuesSeek, Scan, IsVisit;
    var elements := SeekHeadElements(items);
    forall i | 0 <= i < |items|
      ensures Legal(elements[i])
    {
      LegalSeekHeadElement(items[i]);
    }
    ScanElements(elements, 0);
    FoldSeekHeadMeans(found, items, Scan(EncodeElements(elements), 0));
    if items != [] {
      NonEmpty(elements);
    }
  }

  // ---- segment information ----

  lemma LegalInfoElement(item: InfoItem)
    requires LegalInfo(item)
    ensures Legal(InfoElement(item))
  {
    HeaderIds();
    hide IdWidth, LegalUint, Legal, UintElement;
    match item
    case TimestampScale(u) => UintReads(ID_TIMESTAMP_SCALE, u, SEEK_LIMIT);
    case OtherInfo(e) =>
  }

  lemma {:induction false} FoldInfoMeans(scale: int, items: seq<InfoItem>, visits: seq<Visit>)
    requires |visits| == |items|
    requires forall i :: 0 <= i < |items| ==> LegalInfo(items[i]) && IsVisit(visits[i], InfoElement(items[i]))
    ensures FoldInfo(scale, visits) == OrElse(LastScale(items), scale)
  {
    hide LegalInfo, InfoElement, InfoStep, IsVisit;
    if items != [] {
      var n := |items| - 1;
      FoldInfoMeans(scale, items[..n], visits[..n]);
      InfoStepMeans(FoldInfo(scale, visits[..n]), items[n], visits[n]);
    }
  }

  lemma InfoStepMeans(scale: int, item: InfoItem, v: Visit)
    requires LegalInfo(item) && IsVisit(v, InfoElement(item))
    ensures InfoStep(scale, v) == if item.TimestampScale? then item.scale.value else scale
  {
    HeaderIds();
    hide IdWidth, Legal, ReadUint;
    if item.TimestampScale? {
      UintReads(ID_TIMESTAMP_SCALE, item.scale, SEEK_LIMIT);
    }
  }

  lemma InfoMeans(scale: int, items: seq<InfoItem>)
    requires forall i :: 0 <= i < |items| ==> LegalInfo(items[i])
    ensures FoldInfo(scale, Scan(EncodeElements(InfoElements(items)), 0)) == OrElse(LastScale(items), scale)
    ensures items != [] ==> EncodeElements(InfoElements(items)) != []
  {
    hide EncodeElements, LegalInfo, InfoElement, Legal, FoldInfo, LastScale, Scan, IsVisit;
    var elements := InfoElements(items);
    forall i | 0 <= i < |items|
      ensures Legal(elements[i])
    {
      LegalInfoElement(items[i]);
    }
    ScanElements(elements, 0);
    FoldInfoMeans(scale, items, Scan(EncodeElements(elements), 0));
    if items != [] {
      NonEmpty(elements);
    }
  }

  lemma LegalTrackElement(item: TrackItem)
    requires LegalTrack(item)
    ensures Legal(TrackElement(item))
  {
    HeaderIds();
    hide IdWidth, LegalUint, Legal, UintElement;
    match item
    case TrackNumber(u) => UintReads(ID_TRACK_NUMBER, u, TRACK_LIMIT);
    case TrackType(u) => UintReads(ID_TRACK_TYPE, u, TRACK_LIMIT);
    case OtherTrack(e) =>
  }

  lemma {:induction false} FoldTrackMeans(items: seq<TrackItem>, visits: seq<Visit>)
    requires |visits| == |items|
    requires forall i :: 0 <= i < |items| ==> LegalTrack(items[i]) && IsVisit(visits[i], TrackElement(items[i]))
    ensures FoldTrack(visits) == TrackEntryInfo(OrElse(LastNumber(items), 0), OrElse(LastKind(items), 0))
  {
    hide LegalTrack, TrackElement, TrackStep, IsVisit;
    if items != [] {
      var n := |items| - 1;
      FoldTrackMeans(items[..n], visits[..n]);
      TrackStepMeans(FoldTrack(visits[..n]), items[n], visits[n]);
    }
  }

  lemma TrackStepMeans(t: TrackEntryInfo, item: TrackItem, v: Visit)
    requires LegalTrack(item) && IsVisit(v, TrackElement(item))
    ensures TrackStep(t, v) == match item
                               case TrackNumber(u) => t.(number := u.value)
                               case TrackType(u) => t.(kind := u.value)
                               case OtherTrack(_) => t
  {
    HeaderIds();
    hide IdWidth, Legal, ReadUint;
    match item
    case TrackNumber(u) => UintReads(ID_TRACK_NUMBER, u, TRACK_LIMIT);
    case TrackType(u) => UintReads(ID_TRACK_TYPE, u, TRACK_LIMIT);
    case OtherTrack(e) =>
  }

  lemma TrackEntryMeans(items: seq<TrackItem>)
    requires forall i :: 0 <= i < |items| ==> LegalTrack(items[i])
    ensures ReadTrackEntry(EncodeElements(TrackElements(items)))
         == TrackEntryInfo(OrElse(LastNumber(items), 0), OrElse(LastKind(items), 0))
    ensures items != [] ==> EncodeElements(TrackElements(items)) != []
  {
    hide EncodeElements, LegalTrack, TrackElement, Legal, FoldTrack, LastNumber, LastKind, Scan, IsVisit;
    var elements := TrackElements(items);
    forall i | 0 <= i < |items|
      ensures Legal(elements[i])
    {
      LegalTrackElement(items[i]);
    }
    ScanElements(elements, 0);
    FoldTrackMeans(items, Scan(EncodeElements(elements), 0));
    if items != [] {
      NonEmpty(elements);
    }
  }

  lemma LegalTracksElement(item: TracksItem)
    requires LegalTracks(item)
    ensures Legal(TracksElement(item))
  {
    HeaderIds();
    hide IdWidth, LegalTrack, EncodeElements, LegalSize;
    match item
    case TrackEntry(w, items) => TrackEntryMeans(items);
    case OtherTracks(e) =>
  }

  lemma {:induction false} FoldTracksMeans(videoTrack: int, items: seq<TracksItem>, visits: seq<Visit>)
    requires |visits| == |items|
    requires forall i :: 0 <= i < |items| ==> LegalTracks(items[i]) && IsVisit(visits[i], TracksElement(items[i]))
    ensures FoldTracks(videoTrack, visits) == OrElse(LastVideo(items), videoTrack)
  {
    hide LegalTracks, TracksElement, TracksStep, IsVisit, LastNumber, LastKind;
    if items != [] {
      var n := |items| - 1;
      FoldTracksMeans(videoTrack, items[..n], visits[..n]);
      TracksStepMeans(FoldTracks(videoTrack, visits[..n]), items[n], visits[n]);
    }
  }

  lemma TracksStepMeans(videoTrack: int, item: TracksItem, v: Visit)
    requires LegalTracks(item) && IsVisit(v, TracksElement(item))
    ensures TracksStep(videoTrack, v)
         == if item.TrackEntry? && LastKind(item.fields) == Some(1) && OrElse(LastNumber(item.fields), 0) > 0
            then OrElse(LastNumber(item.fields), 0) else videoTrack
  {
    hide IdWidth, Legal, LegalTrack, EncodeElements, ReadTrackEntry, LegalSize, LastNumber, LastKind;
    if item.TrackEntry? {
      TrackEntryMeans(item.fields);
    }
  }

  lemma TracksMean(videoTrack: int, items: seq<TracksItem>)
    requires forall i :: 0 <= i < |items| ==> LegalTracks(items[i])
    ensures FoldTracks(videoTrack, Scan(EncodeElements(TracksElements(items)), 0)) == OrElse(LastVideo(items), videoTrack)
    ensures items != [] ==> EncodeElements(TracksElements(items)) != []
  {
    hide EncodeElements, LegalTracks, TracksElement, Legal, FoldTracks, LastVideo, Scan, IsVisit;
    var elements := TracksElements(items);
    forall i | 0 <= i < |items|
      ensures Legal(elements[i])
    {
      LegalTracksElement(items[i]);
    }
    ScanElements(elements, 0);
    FoldTracksMeans(videoTrack, items, Scan(EncodeElements(elements), 0));
    if items != [] {
      NonEmpty(elements);
    }
  }

  // ---- the segment ----

  lemma LegalSegmentElement(item: SegmentItem)
    requires LegalSegment(item)
    ensures Legal(SegmentElement(item))
  {
    HeaderIds();
    hide IdWidth, LegalSeekHead, LegalInfo, LegalTracks, EncodeElements, LegalSize, FoldSeekHead, FoldInfo, FoldTracks;
    match item
    case SeekHead(w, items) => SeekHeadMeans(None, items);
    case Info(w, items) => InfoMeans(0, items);
    case Tracks(w, items) => TracksMean(0, items);
    case OtherSegment(e) =>
  }

  lemma SegmentStepMeans(found: Option<nat>, info: SegmentInfo, item: SegmentItem, v: Visit)
    requires LegalSegment(item) && IsVisit(v, SegmentElement(item))
    ensures (if v.id == ID_SEEK_HEAD then FoldSeekHead(found, Scan(v.data, 0)) else found)
         == if item.SeekHead? then Later(found, LastCuesSeek(item.entries)) else found
    ensures SegmentInfoStep(info, v)
         == match item
            case Info(_, items) => info.(timestampScale := OrElse(LastScale(items), info.timestampScale))
            case Tracks(_, items) => info.(videoTrack := OrElse(LastVideo(items), info.videoTrack))
            case _ => info
  {
    hide Legal, LegalSeekHead, LegalInfo, LegalTracks, EncodeElements, LegalSize, FoldSeekHead, FoldInfo, FoldTracks,
         LastCuesSeek, LastScale, LastVideo, Scan;
    match item
    case SeekHead(w, items) => SeekHeadMeans(found, items);
    case Info(w, items) => InfoMeans(info.timestampScale, items);
    case Tracks(w, items) => TracksMean(info.videoTrack, items);
    case OtherSegment(e) =>
  }

  lemma {:induction false} FoldSegmentMeans(items: seq<SegmentItem>, visits: seq<Visit>)
    requires |visits| == |items|
    requires forall i :: 0 <= i < |items| ==> LegalSegment(items[i]) && IsVisit(visits[i], SegmentElement(items[i]))
    ensures FoldSegment(visits) == CuesPosition(items)
    ensures FoldSegmentInfo(visits) == SegmentInfo(ScaleOf(items), VideoTrackOf(items))
  {
    hide LegalSegment, SegmentElement, SegmentInfoStep, IsVisit, LastCuesSeek, LastScale, LastVideo, FoldSeekHead;
    if items != [] {
      var n := |items| - 1;
      FoldSegmentMeans(items[..n], visits[..n]);
      SegmentStepMeans(FoldSegment(visits[..n]), FoldSegmentInfo(visits[..n]), items[n], visits[n]);
    }
  }

  /** Visits of elements that mean nothing change nothing. */
  lemma FoldIgnores(visits: seq<Visit>, rest: seq<Visit>)
    requires |rest| <= 1 && (rest != [] ==> MeansNothing(rest[0].id))
    ensures FoldSegment(visits + rest) == FoldSegment(visits)
    ensures FoldSegmentInfo(visits + rest) == FoldSegmentInfo(visits)
  {
    hide FoldSeekHead, FoldInfo, FoldTracks;
    if rest == [] {
      assert visits + rest == visits;
    } else {
      assert (visits + rest)[..|visits|] == visits;
    }
  }

  // ---- the file ----

  /** The start of a file: EBML header, segment header, complete elements of the segment, and then perhaps the first
      bytes of one more element that means nothing here. The size of the segment reaches to the end of the buffer or
      beyond, as does the unknown size in eight bytes. */
  datatype FileStart = FileStart(ebml: Element, sizeWidth: nat, size: nat, items: seq<SegmentItem>, tail: seq<Byte>)

  function EncodeStart(f: FileStart): seq<Byte> {
    EncodeElement(f.ebml) + (Header(ID_SEGMENT, f.sizeWidth, f.size) + SegmentBody(f))
  }

  function SegmentBody(f: FileStart): seq<Byte> {
    EncodeElements(SegmentElements(f.items)) + f.tail
  }

  function BodyStart(f: FileStart): nat {
    |EncodeElement(f.ebml)| + IdWidth(ID_SEGMENT) + f.sizeWidth
  }

  /** A prefix of one legal element that means nothing. */
  ghost predicate HarmlessTail(tail: seq<Byte>) {
    exists e: Element :: Legal(e) && MeansNothing(e.id) && tail <= EncodeElement(e)
  }

  ghost predicate LegalStart(f: FileStart) {
    && Legal(f.ebml) && f.ebml.id == ID_EBML_HEADER
    && 1 <= f.sizeWidth <= 8 && |SegmentBody(f)| <= f.size < Marker(f.sizeWidth)
    && (forall i :: 0 <= i < |f.items| ==> LegalSegment(f.items[i]))
    && HarmlessTail(f.tail)
    && |EncodeStart(f)| >= 32
  }

  lemma StartIsFound(f: FileStart)
    requires LegalStart(f)
    ensures SegmentStart(EncodeStart(f)) == Some(BodyStart(f))
    ensures EncodeStart(f)[BodyStart(f)..] == SegmentBody(f)
  {
    var buf, body := EncodeStart(f), SegmentBody(f);
    HeaderIds();
    hide *;
    var headerEnd := TopVisits(f);
    ReadHeader(buf, headerEnd, ID_SEGMENT, f.sizeWidth, f.size, body);
    SegmentStartFrom(buf, headerEnd);
  }

  lemma SegmentStartFrom(buf: seq<Byte>, pos: nat)
    requires |buf| >= 32 && HeaderEnd(Scan(buf, 0)) == Some(pos) && pos < |buf|
    requires ReadId(buf[pos..]).Some? && ReadId(buf[pos..]).value.value == ID_SEGMENT
    requires ReadSize(buf[pos + ReadId(buf[pos..]).value.width..]).Some?
    ensures SegmentStart(buf)
         == Some(pos + ReadId(buf[pos..]).value.width + ReadSize(buf[pos + ReadId(buf[pos..]).value.width..]).value.width)
  {
    hide ReadId, ReadSize, HeaderEnd, Scan;
  }

  /** The scan of the whole buffer meets the EBML header and, if it has any data here, the segment. */
  lemma TopVisits(f: FileStart) returns (headerEnd: nat)
    requires LegalStart(f)
    ensures var buf := EncodeStart(f);
            && HeaderEnd(Scan(buf, 0)) == Some(headerEnd)
            && headerEnd == |EncodeElement(f.ebml)|
            && headerEnd < |buf| && |buf| >= 32
            && buf[headerEnd..] == Header(ID_SEGMENT, f.sizeWidth, f.size) + SegmentBody(f)
            && BodyStart(f) == headerEnd + IdWidth(ID_SEGMENT) + f.sizeWidth && IdWidth(ID_SEGMENT) > 0
            && 1 <= f.sizeWidth <= 8 && f.size < Marker(f.sizeWidth)
  {
    var buf, rest := EncodeStart(f), Header(ID_SEGMENT, f.sizeWidth, f.size) + SegmentBody(f);
    var e, at := f.ebml, HeaderSize(f.ebml);
    HeaderIds();
    ElementSize(e);
    hide IdWidth, EncodeElement, Header, SegmentBody, Marker, Legal, ScanStep, LegalSegment, HeaderSize;
    headerEnd := |EncodeElement(e)|;
    assert buf[0..] == EncodeElement(e) + rest;
    StepOfElement(buf, 0, 0, e, rest);
    ScanGoesOn(buf, 0, 0, Visit(e.id, e.data, |e.data|, at), at + |e.data|);
    SegmentIsLast(f, buf, headerEnd);
    HeaderEndOf(Visit(e.id, e.data, |e.data|, at), ScanFrom(buf, headerEnd, 0));
  }

  lemma SegmentIsLast(f: FileStart, buf: seq<Byte>, pos: nat)
    requires LegalStart(f) && pos <= |buf| && buf[pos..] == Header(ID_SEGMENT, f.sizeWidth, f.size) + SegmentBody(f)
    ensures var visits := ScanFrom(buf, pos, 0); |visits| <= 1 && (visits != [] ==> visits[0].id == ID_SEGMENT)
  {
    var body := SegmentBody(f);
    HeaderIds();
    hide IdWidth, Header, SegmentBody, Marker, Legal, LegalSegment, EncodeElement, ReadId, ReadSize;
    if body != [] {
      StepOf(buf, pos, 0, ID_SEGMENT, f.sizeWidth, f.size, body);
      if f.size == |body| {
        NothingLeft(buf, 0);
      }
    } else {
      ReadHeader(buf, pos, ID_SEGMENT, f.sizeWidth, f.size, body);
      assert ScanStep(buf, pos, 0) == None;
    }
  }

  lemma HeaderEndOf(first: Visit, rest: seq<Visit>)
    requires first.id == ID_EBML_HEADER && |rest| <= 1 && (rest != [] ==> rest[0].id == ID_SEGMENT)
    ensures HeaderEnd([first] + rest) == Some(first.offset + first.size)
  {
    if rest != [] {
      assert ([first] + rest)[..1] == [first];
    }
  }

  /** Scanning one element that stands at the end of a buffer visits that element. */
  lemma LastElementScans(e: Element, s: seq<Byte>, pos: nat, base: nat)
    requires Legal(e) && pos <= |s| && s[pos..] == EncodeElement(e)
    ensures ScanFrom(s, pos, base) == [Visit(e.id, e.data, |e.data|, base + pos + HeaderSize(e))]
  {
    hide *;
    var at := pos + HeaderSize(e);
    assert s[pos..] == EncodeElement(e) + [];
    StepOfElement(s, pos, base, e, []);
    ScanGoesOn(s, pos, base, Visit(e.id, e.data, |e.data|, base + at), at + |e.data|);
    NothingAtEnd(s, at + |e.data|, base);
  }

  lemma NothingAtEnd(s: seq<Byte>, pos: nat, base: nat)
    requires pos <= |s| && s[pos..] == []
    ensures ScanFrom(s, pos, base) == []
  {
    NothingLeft(s, base);
    assert pos == |s|;
  }

  /** Cutting a scan of one element short leaves at most that element. */
  lemma PrefixOfOne(short: seq<Visit>, one: Visit)
    requires Truncates(short, [one])
    ensures |short| <= 1 && (short != [] ==> short[0].id == one.id)
  {
  }

  lemma TailScans(tail: seq<Byte>, s: seq<Byte>, pos: nat, base: nat)
    requires HarmlessTail(tail) && pos <= |s| && s[pos..] == tail
    ensures var visits := ScanFrom(s, pos, base); |visits| <= 1 && (visits != [] ==> MeansNothing(visits[0].id))
  {
    var e: Element :| Legal(e) && MeansNothing(e.id) && tail <= EncodeElement(e);
    hide *;
    var whole := s[..pos] + EncodeElement(e);
    assert whole[pos..] == EncodeElement(e);
    assert s == whole[..|s|];
    LastElementScans(e, whole, pos, base);
    ScanPrefix(whole, |s|, pos, base);
    PrefixOfOne(ScanFrom(s, pos, base), Visit(e.id, e.data, |e.data|, base + pos + HeaderSize(e)));
  }

  lemma BodyMeans(f: FileStart, base: nat)
    requires LegalStart(f)
    ensures FoldSegment(Scan(SegmentBody(f), base)) == CuesPosition(f.items)
    ensures FoldSegmentInfo(Scan(SegmentBody(f), base)) == SegmentInfo(ScaleOf(f.items), VideoTrackOf(f.items))
  {
    hide Legal, LegalSegment, SegmentElement, EncodeElements, Visits, IsVisit, HarmlessTail, Marker, EncodeElement, Header,
         FoldSegment, FoldSegmentInfo, CuesPosition, ScaleOf, VideoTrackOf, MeansNothing, ScanFrom;
    var elements, body := SegmentElements(f.items), SegmentBody(f);
    forall i | 0 <= i < |f.items|
      ensures Legal(elements[i])
    {
      LegalSegmentElement(f.items[i]);
    }
    assert body[0..] == body;
    ScanOf(elements, f.tail, body, 0, base);
    var visits, next := Visits(elements, base), |EncodeElements(elements)|;
    forall i | 0 <= i < |f.items|
      ensures IsVisit(visits[i], elements[i])
    {
      VisitsAt(elements, base, i);
    }
    FoldSegmentMeans(f.items, visits);
    TailScans(f.tail, body, next, base);
    FoldIgnores(visits, ScanFrom(body, next, base));
  }

  /** The location found is the last one that a Seek entry gives for the Cues, counted from the segment's data. */
  lemma LocationRoundTrip(f: FileStart)
    requires LegalStart(f)
    ensures LocateCues(EncodeStart(f))
         == match CuesPosition(f.items)
            case None => None
            case Some(position) =>
              var offset := BodyStart(f) + position;
              Some(CuesLocation(offset, CuesSizeAt(EncodeStart(f), offset), BodyStart(f)))
  {
    hide *;
    StartIsFound(f);
    BodyMeans(f, BodyStart(f));
    LocateFrom(EncodeStart(f), BodyStart(f));
    ItemsLegal(f);
    CuesPositionBound(f.items);
    if CuesPosition(f.items).Some? {
      SmallIsSame(CuesPosition(f.items).value);
    }
  }

  lemma ItemsLegal(f: FileStart)
    requires LegalStart(f)
    ensures forall i :: 0 <= i < |f.items| ==> LegalSegment(f.items[i])
  {
  }

  lemma {:induction false} SeekPositionBound(items: seq<SeekItem>)
    requires forall i :: 0 <= i < |items| ==> LegalSeek(items[i])
    ensures LastSeekPosition(items).Some? ==> LastSeekPosition(items).value < SEEK_LIMIT
  {
    if items != [] {
      SeekPositionBound(items[..|items| - 1]);
    }
  }

  lemma {:induction false} CuesSeekBound(items: seq<SeekHeadItem>)
    requires forall i :: 0 <= i < |items| ==> LegalSeekHead(items[i])
    ensures LastCuesSeek(items).Some? ==> LastCuesSeek(items).value < SEEK_LIMIT
  {
    hide LegalSeek, EncodeElements;
    if items != [] {
      var n := |items| - 1;
      CuesSeekBound(items[..n]);
      if items[n].Seek? {
        SeekPositionBound(items[n].seeks);
      }
    }
  }

  lemma {:induction false} CuesPositionBound(items: seq<SegmentItem>)
    requires forall i :: 0 <= i < |items| ==> LegalSegment(items[i])
    ensures CuesPosition(items).Some? ==> CuesPosition(items).value < SEEK_LIMIT
  {
    hide LegalSeekHead, EncodeElements;
    if items != [] {
      var n := |items| - 1;
      CuesPositionBound(items[..n]);
      if items[n].SeekHead? {
        CuesSeekBound(items[n].entries);
      }
    }
  }

  lemma SmallIsSame(v: nat)
    requires v < SEEK_LIMIT
    ensures ToI64(v) == v
  {
  }

  lemma LocateFrom(buf: seq<Byte>, start: nat)
    requires SegmentStart(buf) == Some(start)
    ensures start <= |buf|
    ensures LocateCues(buf)
         == match FoldSegment(Scan(buf[start..], start))
            case None => None
            case Some(position) =>
              var offset := start + ToI64(position);
              Some(CuesLocation(offset, CuesSizeAt(buf, offset), start))
  {
    hide SegmentStart, FoldSegment, Scan, CuesSizeAt, ToI64;
  }

  /** The size found with it is that of the whole Cues element if its header is in the buffer, and 0 if the buffer
      ends before it. */
  lemma LocatedSize(buf: seq<Byte>, offset: nat, sizeWidth: nat, size: nat, rest: seq<Byte>)
    requires 1 <= sizeWidth <= 8 && 0 < size < Marker(sizeWidth)
    ensures offset < |buf| && buf[offset..] == Header(ID_CUES, sizeWidth, size) + rest ==>
              CuesSizeAt(buf, offset) == |Header(ID_CUES, sizeWidth, size)| + size
    ensures offset >= |buf| ==> CuesSizeAt(buf, offset) == 0
  {
    if offset < |buf| && buf[offset..] == Header(ID_CUES, sizeWidth, size) + rest {
      KnownIds();
      hide Marker, IdWidth, Header, ReadId, ReadSize;
      ReadHeader(buf, offset, ID_CUES, sizeWidth, size, rest);
    }
  }

  /** The time scale and the video track are the last ones given, or the defaults. */
  lemma InfoRoundTrip(f: FileStart)
    requires LegalStart(f)
    ensures ReadSegmentInfo(EncodeStart(f)) == SegmentInfo(ScaleOf(f.items), VideoTrackOf(f.items))
  {
    hide *;
    StartIsFound(f);
    BodyMeans(f, BodyStart(f));
    InfoFrom(EncodeStart(f), BodyStart(f));
  }

  lemma InfoFrom(buf: seq<Byte>, start: nat)
    requires SegmentStart(buf) == Some(start)
    ensures start <= |buf| && ReadSegmentInfo(buf) == FoldSegmentInfo(Scan(buf[start..], start))
  {
    hide SegmentStart, FoldSegmentInfo, Scan;
  }
}
