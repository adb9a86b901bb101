/** From the bytes of a whole file to its cue index, and when there is none (EnsureCueIndex in src/Demuxer.cpp). */
module CueIndex {
  import opened Bytes
  import opened Wrappers
  import opened Ebml
  import opened EbmlEncoding
  import opened MatroskaIds
  import opened Cues
  import opened CuesEncoding
  import opened MkvHeader
  import opened MkvHeaderEncoding
  import opened Demux

  // ---- the times of the entries ----

  function TimeOf(item: CuesItem): nat {
    if item.CuePoint? && LastTime(item.items).Some? then LastTime(item.items).value else 0
  }

  lemma ScaledTimes(a: nat, b: nat, scale: nat)
    requires a <= b
    ensures a * scale / 1000000 <= b * scale / 1000000
  {
    assert a * scale <= b * scale by { assert (b - a) * scale >= 0; assert (b - a) * scale == b * scale - a * scale; }
  }

  lemma MeaningTime(item: CuesItem, scale: nat, track: int, segmentStart: nat)
    ensures var m := Meaning(item, scale, track, segmentStart);
            |m| <= 1 && (m != [] ==> item.CuePoint? && m[0].timeMs == TimeOf(item) * scale / 1000000)
  {
    hide LastOfTrack, LastCluster, LastRelative, LastTime;
  }

  /** Scaling to milliseconds keeps the order of the cue times. */
  lemma {:induction false} EntriesInOrder(items: seq<CuesItem>, scale: nat, track: int, segmentStart: nat)
    requires forall i, j :: 0 <= i < j < |items| && items[i].CuePoint? && items[j].CuePoint? ==>
               TimeOf(items[i]) <= TimeOf(items[j])
    ensures TimeOrdered(Meanings(items, scale, track, segmentStart))
    ensures forall e :: e in Meanings(items, scale, track, segmentStart) ==>
              exists i :: 0 <= i < |items| && items[i].CuePoint? && e.timeMs == TimeOf(items[i]) * scale / 1000000
  {
    hide *;
    if items == [] {
      NoMeanings(scale, track, segmentStart);
    } else {
      var n := |items| - 1;
      EntriesInOrder(items[..n], scale, track, segmentStart);
      MeaningTime(items[n], scale, track, segmentStart);
      MeaningsLast(items, scale, track, segmentStart);
      var before, last := Meanings(items[..n], scale, track, segmentStart), Meaning(items[n], scale, track, segmentStart);
      forall e | e in before
        ensures last != [] ==> e.timeMs <= last[0].timeMs
        ensures exists i :: 0 <= i < |items| && items[i].CuePoint? && e.timeMs == TimeOf(items[i]) * scale / 1000000
      {
        var i :| 0 <= i < n && items[..n][i].CuePoint? && e.timeMs == TimeOf(items[..n][i]) * scale / 1000000;
        assert items[i].CuePoint?;
        if last != [] {
          ScaledTimes(TimeOf(items[i]), TimeOf(items[n]), scale);
        }
      }
      OrderedWith(before, last);
    }
  }

  lemma NoMeanings(scale: nat, track: int, segmentStart: nat)
    ensures Meanings([], scale, track, segmentStart) == [] && TimeOrdered([])
  {
  }

  lemma MeaningsLast(items: seq<CuesItem>, scale: nat, track: int, segmentStart: nat)
    requires items != []
    ensures var n := |items| - 1;
            Meanings(items, scale, track, segmentStart)
            == Meanings(items[..n], scale, track, segmentStart) + Meaning(items[n], scale, track, segmentStart)
  {
    hide Meaning;
  }

  lemma OrderedWith(before: seq<CueEntry>, last: seq<CueEntry>)
    requires TimeOrdered(before) && |last| <= 1
    requires forall e :: e in before ==> last != [] ==> e.timeMs <= last[0].timeMs
    ensures TimeOrdered(before + last)
  {
  }

  // ---- the index of a whole file ----

  /** The file starts as `f` says, as far as it is read for its header. */
  ghost predicate StartsAs(file: seq<Byte>, f: FileStart) {
    LegalStart(f) && ReadAt(file, 0, 0x4_0000) == EncodeStart(f)
  }

  /** From the bytes of a file to its cue index: the seek head is followed to the Cues, and every entry they mean is
      found, in order. */
  lemma IndexOfFile(file: seq<Byte>, f: FileStart, sizeWidth: nat, items: seq<CuesItem>, rest: seq<Byte>)
    requires StartsAs(file, f) && CuesPosition(f.items).Some?
    requires LegalCues(sizeWidth, items) && 12 <= |EncodeCues(sizeWidth, items)| <= 0x200_0000
    requires var at := BodyStart(f) + CuesPosition(f.items).value;
             at < |file| && file[at..] == EncodeCues(sizeWidth, items) + rest
    ensures CuesOf(file) == Meanings(items, ScaleOf(f.items), VideoTrackOf(f.items), BodyStart(f))
  {
    hide *;
    var at, cues := BodyStart(f) + CuesPosition(f.items).value, EncodeCues(sizeWidth, items);
    HeaderRead(file, f);
    CuesRead(file, at, sizeWidth, items, rest);
    CuesOfFrom(file, at, ScaleOf(f.items), VideoTrackOf(f.items), BodyStart(f), cues);
    CuesRoundTrip(sizeWidth, items, ScaleOf(f.items), VideoTrackOf(f.items), BodyStart(f));
  }

  lemma HeaderRead(file: seq<Byte>, f: FileStart)
    requires StartsAs(file, f) && CuesPosition(f.items).Some?
    ensures var header := ReadAt(file, 0, HEADER_SIZE);
            && LocateCues(header).Some?
            && LocateCues(header).value.offset == BodyStart(f) + CuesPosition(f.items).value
            && LocateCues(header).value.segmentStart == BodyStart(f)
            && ReadSegmentInfo(header) == SegmentInfo(ScaleOf(f.items), VideoTrackOf(f.items))
  {
    hide LocateCues, ReadSegmentInfo, EncodeStart, BodyStart, CuesPosition, LegalStart, ReadAt, ScaleOf, VideoTrackOf;
    HeaderLimit();
    LocationRoundTrip(f);
    InfoRoundTrip(f);
  }

  /** Of a Cues element, all that is not beyond the limit is read. */
  lemma CuesRead(file: seq<Byte>, at: nat, sizeWidth: nat, items: seq<CuesItem>, rest: seq<Byte>)
    requires at < |file| && file[at..] == EncodeCues(sizeWidth, items) + rest
    requires LegalCues(sizeWidth, items) && 12 <= |EncodeCues(sizeWidth, items)|
    ensures var chunk, cues := ReadAt(file, at, 32), EncodeCues(sizeWidth, items);
            && |chunk| >= 12 && ReadId(chunk) == Some(Vint(4, CUES))
            && ReadAt(file, at, CuesReadSize(chunk, 4)) == if |cues| > 0x200_0000 then cues[..0x200_0000] else cues
  {
    var cues, data := EncodeCues(sizeWidth, items), EncodeElements(CuesElements(items));
    KnownIds();
    LegalCuesWidth(sizeWidth, items);
    hide *;
    ReadAtPrefix(file, at, 32, cues + rest);
    var chunk := ReadAt(file, at, 32);
    var h := Header(ID_CUES, sizeWidth, |data|);
    CuesAre(sizeWidth, items);
    assert chunk == h + chunk[|h|..];
    assert chunk[0..] == chunk;
    ReadHeader(chunk, 0, ID_CUES, sizeWidth, |data|, chunk[|h|..]);
    CuesReadSizeFrom(chunk, sizeWidth, |data|);
    ReadAtPrefix(file, at, CuesReadSize(chunk, 4), cues + rest);
  }

  lemma CuesAre(sizeWidth: nat, items: seq<CuesItem>)
    ensures EncodeCues(sizeWidth, items)
         == Header(ID_CUES, sizeWidth, |EncodeElements(CuesElements(items))|) + EncodeElements(CuesElements(items))
  {
  }

  lemma CuesReadSizeFrom(chunk: seq<Byte>, sizeWidth: nat, size: nat)
    requires |chunk| >= 4 && ReadSize(chunk[4..]) == Some(Vint(sizeWidth, size))
    ensures var total := 4 + sizeWidth + size;
            CuesReadSize(chunk, 4) == if total > 0x200_0000 then 0x200_0000 else total
  {
    hide ReadSize;
  }

  lemma ReadAtPrefix(file: seq<Byte>, at: nat, n: nat, s: seq<Byte>)
    requires at < |file| && file[at..] == s
    ensures ReadAt(file, at, n) == if n <= |s| then s[..n] else s
  {
  }

  lemma LegalCuesWidth(sizeWidth: nat, items: seq<CuesItem>)
    requires LegalCues(sizeWidth, items)
    ensures 1 <= sizeWidth <= 8 && |EncodeElements(CuesElements(items))| < Marker(sizeWidth)
  {
  }

  lemma CuesOfFrom(file: seq<Byte>, at: nat, scale: int, track: int, segmentStart: nat, cues: seq<Byte>)
    requires var header := ReadAt(file, 0, HEADER_SIZE);
             && LocateCues(header).Some? && LocateCues(header).value.offset == at
             && LocateCues(header).value.segmentStart == segmentStart
             && ReadSegmentInfo(header) == SegmentInfo(scale, track)
    requires var chunk := ReadAt(file, at, 32);
             && |chunk| >= 12 && ReadId(chunk) == Some(Vint(4, CUES))
             && ReadAt(file, at, CuesReadSize(chunk, 4)) == cues
    ensures CuesOf(file) == ReadCues(cues, scale, track, segmentStart)
  {
    hide LocateCues, ReadSegmentInfo, ReadCues, ReadId, ReadAt, CuesReadSize;
  }

  /** A file whose seek head does not place the Cues has no index. */
  lemma NoIndex(file: seq<Byte>, f: FileStart)
    requires StartsAs(file, f) && CuesPosition(f.items).None?
    ensures CuesOf(file) == []
  {
    LocationRoundTrip(f);
    HeaderLimit();
    hide LegalStart, EncodeStart, LocateCues, CuesPosition, ReadAt;
  }

  /** Nor has one whose seek head places them where there are fewer than 12 bytes, or another element. */
  lemma NoCuesThere(file: seq<Byte>, f: FileStart)
    requires StartsAs(file, f) && CuesPosition(f.items).Some?
    requires var at := BodyStart(f) + CuesPosition(f.items).value;
             at + 12 > |file| || file[at..at + 4] != [0x1C, 0x53, 0xBB, 0x6B]
    ensures CuesOf(file) == []
  {
    hide *;
    var at := BodyStart(f) + CuesPosition(f.items).value;
    HeaderRead(file, f);
    OtherId(file, at);
    NothingFrom(file, at);
  }

  lemma NothingFrom(file: seq<Byte>, at: nat)
    requires var location := LocateCues(ReadAt(file, 0, HEADER_SIZE)); location.Some? && location.value.offset == at
    requires var chunk := ReadAt(file, at, 32); |chunk| < 12 || ReadId(chunk).None? || ReadId(chunk).value.value != CUES
    ensures CuesOf(file) == []
  {
    hide LocateCues, ReadId, ReadAt;
  }

  /** Any other bytes are not the ID of the Cues. */
  lemma OtherId(file: seq<Byte>, at: nat)
    requires at + 12 > |file| || file[at..at + 4] != [0x1C, 0x53, 0xBB, 0x6B]
    ensures var chunk := ReadAt(file, at, 32); |chunk| < 12 || ReadId(chunk).None? || ReadId(chunk).value.value != CUES
  {
    var chunk := ReadAt(file, at, 32);
    assert |chunk| >= 12 ==> file[at..at + 4] == chunk[..4];
    if |chunk| >= 12 && ReadId(chunk).Some? && ReadId(chunk).value.value == CUES {
      IdOfCues(chunk);
    }
  }

  lemma IdOfCues(s: seq<Byte>)
    requires ReadId(s).Some? && ReadId(s).value.value == CUES
    ensures |s| >= 4 && s[..4] == [0x1C, 0x53, 0xBB, 0x6B]
  {
    var w := ReadId(s).value.width;
    assert s[0] != 0 && UnBE(s[..w]) == 0x1C53BB6B;
    hide *;
    BEofUnBE(s[..w]);
    assert s[..w][0] == s[0];
    if w > 4 {
      Widths();
      LeadingZero(w, 4, 0x1C53BB6B);
    } else {
      if w < 4 {
        NarrowIsSmall(s[..w]);
      }
      CuesIdBytes();
    }
  }

  lemma NarrowIsSmall(s: seq<Byte>)
    requires |s| < 4
    ensures UnBE(s) < 0x100_0000
  {
    BEofUnBE(s);
    Widths();
    assert Pow256(0) == 1;
    hide UnBE, Pow256;
  }

  lemma CuesIdBytes()
    ensures BE(4, 0x1C53BB6B) == [0x1C, 0x53, 0xBB, 0x6B]
  {
    BE4(0x1C53BB6B);
    hide BE;
  }

  lemma {:induction false} LeadingZero(width: nat, n: nat, v: nat)
    requires n < width && v < Pow256(n)
    ensures BE(width, v)[0] == 0
  {
    if width > 1 {
      LeadingZero(width - 1, if n > 0 then n - 1 else 0, v / 0x100);
    }
  }

  /** Of a Cues element that is too large, its first 32 MB are read. */
  lemma LargeCues(file: seq<Byte>, f: FileStart, sizeWidth: nat, items: seq<CuesItem>, rest: seq<Byte>)
    requires StartsAs(file, f) && CuesPosition(f.items).Some?
    requires LegalCues(sizeWidth, items) && |EncodeCues(sizeWidth, items)| > 0x200_0000
    requires var at := BodyStart(f) + CuesPosition(f.items).value;
             at < |file| && file[at..] == EncodeCues(sizeWidth, items) + rest
    ensures CuesOf(file)
         == ReadCues(EncodeCues(sizeWidth, items)[..0x200_0000], ScaleOf(f.items), VideoTrackOf(f.items), BodyStart(f))
  {
    hide *;
    var at := BodyStart(f) + CuesPosition(f.items).value;
    HeaderRead(file, f);
    CuesRead(file, at, sizeWidth, items, rest);
    CuesOfFrom(file, at, ScaleOf(f.items), VideoTrackOf(f.items), BodyStart(f), EncodeCues(sizeWidth, items)[..0x200_0000]);
  }

  lemma HeaderLimit()
    ensures HEADER_SIZE == 0x4_0000
  {
  }
}
