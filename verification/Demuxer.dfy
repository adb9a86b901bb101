/** The demuxer: the cue index that is read once, seeking by cue, and the packet stream (src/Demuxer.cpp). */
module Demux {
  import opened Bytes
  import opened Wrappers
  import opened Ebml
  import opened Cues
  import opened MkvHeader
  import opened Keyframes

  /** A packet of the file. Times of video are in 1/16000 s, counted from the start of the stream; `ms` is the
      presentation time, or else the decoding time, in milliseconds. */
  datatype Packet =
    | VideoPacket(key: bool, ms: int, dts: Option<I64>, pts: Option<I64>, duration: int, data: seq<Byte>)
    | AudioPacket(audioMs: Option<int>, data: seq<Byte>)
    | OtherPacket

  /** A file as bytes and as the packets that libavformat reads from it. Reading starts at packet `packetAt(p)` after
      a jump to byte `p`, and at packet `fallback(ms)` after a seek by libavformat's own index. */
  datatype Media = Media(file: seq<Byte>, stream: seq<Packet>, packetAt: nat -> nat, fallback: int -> nat)

  const HEADER_SIZE: nat := 256 * 1024
  const MAX_CUES_SIZE: nat := 32 * 1024 * 1024
  const TARGET_DURATION: int := 10000

  /** At most `n` bytes of the file from `offset` on. */
  function ReadAt(file: seq<Byte>, offset: int, n: nat): (s: seq<Byte>)
    ensures |s| <= n
  {
    if offset < 0 || offset >= |file| then []
    else if offset + n <= |file| then file[offset..offset + n]
    else file[offset..]
  }

  /** The cue entries of the file, none if they cannot be found. */
  function CuesOf(file: seq<Byte>): seq<CueEntry> {
    var header := ReadAt(file, 0, HEADER_SIZE);
    match LocateCues(header)
    case None => []
    case Some(location) =>
      var chunk := ReadAt(file, location.offset, 32);
      if |chunk| < 12 then []
      else
        match ReadId(chunk)
        case None => []
        case Some(id) =>
          if id.value != CUES then []
          else
            var info := ReadSegmentInfo(header);
            ReadCues(ReadAt(file, location.offset, CuesReadSize(chunk, id.width)),
                     info.timestampScale, info.videoTrack, location.segmentStart)
  }

  /** How much is read of a Cues element whose header starts with an ID of `idWidth` bytes. */
  function CuesReadSize(chunk: seq<Byte>, idWidth: nat): nat
    requires idWidth <= |chunk|
  {
    var total := idWidth + match ReadSize(chunk[idWidth..])
                           case None => 0
                           case Some(size) => size.width + size.value;
    if total > MAX_CUES_SIZE then MAX_CUES_SIZE else total
  }

  function TimesOf(cues: seq<CueEntry>): (t: seq<int>)
    ensures |t| == |cues|
  {
    seq(|cues|, i requires 0 <= i < |cues| => cues[i].timeMs)
  }

  function KeyframesOf(file: seq<Byte>): seq<int> {
    Filtered(TimesOf(CuesOf(file)), TARGET_DURATION)
  }

  /** The number of leading cues at or before a time. */
  function LeadingCues(cues: seq<CueEntry>, targetMs: int): (n: nat)
    ensures n <= |cues|
  {
    if cues == [] || cues[0].timeMs > targetMs then 0 else 1 + LeadingCues(cues[1..], targetMs)
  }

  /** The packet at which reading starts after a seek. */
  function SeekIndex(media: Media, targetMs: int): (i: nat)
    ensures i <= |media.stream|
  {
    var cues := CuesOf(media.file);
    var n := LeadingCues(cues, targetMs);
    var i := if n > 0 && cues[n - 1].clusterPos >= 0 then media.packetAt(cues[n - 1].clusterPos)
             else media.fallback(targetMs);
    if i < |media.stream| then i else |media.stream|
  }

  class Demuxer {
    const media: Media
    var pos: nat
    var cachedKeyframes: seq<int>
    var cachedCues: seq<CueEntry>
    var keyframesCached: bool

    constructor (media: Media)
      ensures Valid() && this.media == media && pos == 0
    {
      this.media := media;
      pos, cachedKeyframes, cachedCues, keyframesCached := 0, [], [], false;
    }

    ghost predicate Valid()
      reads this
    {
      && pos <= |media.stream|
      && cachedCues == (if keyframesCached then CuesOf(media.file) else [])
      && cachedKeyframes == (if keyframesCached then KeyframesOf(media.file) else [])
    }

    /** Reads the index on the first call; every later call leaves it as it is. */
    method EnsureCueIndex()
      requires Valid()
      modifies this
      ensures Valid() && keyframesCached && pos == old(pos)
    {
      hide LocateCues, ReadSegmentInfo, ReadCues, ReadId, ReadSize, Filtered;
      if keyframesCached {
        return;
      }
      keyframesCached := true;
      var header := ReadAt(media.file, 0, HEADER_SIZE);
      if |header| == 0 {
        NoHeader();
        return;
      }
      var info := ParseSegmentInfo(header);
      var location := ParseCuesLocation(header);
      if location == None {
        NothingFiltered();
        return;
      }
      var chunk := ReadAt(media.file, location.value.offset, 32);
      if |chunk| < 12 {
        NothingFiltered();
        return;
      }
      var idBytes, id := EbmlReadId(chunk);
      if idBytes == 0 || id != CUES {
        NothingFiltered();
        return;
      }
      var sizeBytes, size := EbmlReadSize(chunk[idBytes..]);
      var total := idBytes + (if sizeBytes == 0 then 0 else sizeBytes + size);
      if total > MAX_CUES_SIZE {
        total := MAX_CUES_SIZE;
      }
      // The first bytes have just been read, so that there is something to read here.
      var cuesBuf := ReadAt(media.file, location.value.offset, total);
      var entries := ParseCuesData(cuesBuf, info.timestampScale, info.videoTrack, location.value.segmentStart);
      assert entries == CuesOf(media.file);
      var raw: seq<int> := [];
      for i := 0 to |entries|
        invariant raw == TimesOf(entries)[..i]
      {
        raw := raw + [entries[i].timeMs];
      }
      assert raw == TimesOf(entries);
      cachedKeyframes := FilterKeyframes(raw, TARGET_DURATION);
      cachedCues := entries;
    }

    method KeyframesMs() returns (keyframes: seq<int>)
      requires Valid()
      modifies this
      ensures Valid() && pos == old(pos)
      ensures keyframes == KeyframesOf(media.file)
    {
      EnsureCueIndex();
      keyframes := cachedKeyframes;
    }

    method SeekToMs(targetMs: int)
      requires Valid()
      modifies this
      ensures Valid() && pos == SeekIndex(media, targetMs)
    {
      hide CuesOf, KeyframesOf, LeadingCues, Filtered;
      EnsureCueIndex();
      var cue := LatestCue(cachedCues, targetMs);
      var start := if cue.Some? && cue.value.clusterPos >= 0 then media.packetAt(cue.value.clusterPos)
                   else media.fallback(targetMs);
      pos := if start < |media.stream| then start else |media.stream|;
    }

    method ReadPacket() returns (packet: Option<Packet>)
      requires Valid()
      modifies this`pos
      ensures Valid()
      ensures old(pos) == |media.stream| ==> packet == None && pos == old(pos)
      ensures old(pos) < |media.stream| ==> packet == Some(media.stream[old(pos)]) && pos == old(pos) + 1
    {
      if pos == |media.stream| {
        return None;
      }
      packet := Some(media.stream[pos]);
      pos := pos + 1;
    }
  }

  /** The lookup loop of SeekToMs. */
  method LatestCue(cues: seq<CueEntry>, targetMs: int) returns (cue: Option<CueEntry>)
    ensures cue == if LeadingCues(cues, targetMs) == 0 then None else Some(cues[LeadingCues(cues, targetMs) - 1])
  {
    cue := None;
    var i := 0;
    assert cues[0..] == cues;
    while i < |cues|
      invariant 0 <= i <= |cues|
      invariant LeadingCues(cues, targetMs) == i + LeadingCues(cues[i..], targetMs)
      invariant cue == if i == 0 then None else Some(cues[i - 1])
    {
      if cues[i].timeMs <= targetMs {
        cue := Some(cues[i]);
      } else {
        break;
      }
      assert cues[i..][1..] == cues[i + 1..];
      i := i + 1;
    }
  }

  lemma NothingFiltered()
    ensures Filtered(TimesOf([]), TARGET_DURATION) == []
  {
  }

  lemma NoHeader()
    ensures LocateCues([]) == None && Filtered(TimesOf([]), TARGET_DURATION) == []
  {
  }

  // ---- seeking ----

  predicate TimeOrdered(cues: seq<CueEntry>) {
    forall i, j :: 0 <= i < j < |cues| ==> cues[i].timeMs <= cues[j].timeMs
  }

  /** With cues in time order, the lookup finds the latest one at or before the time. */
  lemma {:induction false} LookupFindsLatest(cues: seq<CueEntry>, targetMs: int, i: nat)
    requires TimeOrdered(cues) && i < |cues|
    ensures i < LeadingCues(cues, targetMs) <==> cues[i].timeMs <= targetMs
  {
    if i > 0 {
      assert cues[0].timeMs <= cues[i].timeMs;
      LookupFindsLatest(cues[1..], targetMs, i - 1);
    }
  }

  /** A packet index of the stream, its end for what lies beyond. */
  function Within(i: nat, media: Media): nat {
    if i < |media.stream| then i else |media.stream|
  }

  /** A seek goes to the cluster of the last of those leading cues that are at or before the time; if there is none, or it
      has no position, to where libavformat seeks. */
  lemma SeekGoesTo(media: Media, targetMs: int, n: nat)
    requires var cues := CuesOf(media.file);
             && n <= |cues| && (forall j :: 0 <= j < n ==> cues[j].timeMs <= targetMs)
             && (n == |cues| || cues[n].timeMs > targetMs)
    ensures var cues := CuesOf(media.file);
            (SeekIndex(media, targetMs)
             == Within(if n > 0 && cues[n - 1].clusterPos >= 0 then media.packetAt(cues[n - 1].clusterPos)
                       else media.fallback(targetMs), media))
  {
    hide CuesOf, LeadingCues;
    LeadingAre(CuesOf(media.file), targetMs, n);
  }

  lemma {:induction false} LeadingAre(cues: seq<CueEntry>, targetMs: int, n: nat)
    requires n <= |cues| && forall j :: 0 <= j < n ==> cues[j].timeMs <= targetMs
    requires n == |cues| || cues[n].timeMs > targetMs
    ensures LeadingCues(cues, targetMs) == n
  {
    if n > 0 {
      LeadingAre(cues[1..], targetMs, n - 1);
    }
  }

  /** With cues in time order, that is the one cue that is at or before the time while the next one is not. */
  lemma SeekGoesToCue(media: Media, targetMs: int, i: nat)
    requires TimeOrdered(CuesOf(media.file)) && i < |CuesOf(media.file)|
    requires var cues := CuesOf(media.file);
             cues[i].timeMs <= targetMs && (i + 1 == |cues| || cues[i + 1].timeMs > targetMs)
    ensures var clusterPos := CuesOf(media.file)[i].clusterPos;
            (SeekIndex(media, targetMs)
             == Within(if clusterPos >= 0 then media.packetAt(clusterPos) else media.fallback(targetMs), media))
  {
    var cues := CuesOf(media.file);
    hide CuesOf, SeekIndex;
    forall j | 0 <= j <= i
      ensures cues[j].timeMs <= targetMs
    {
      assert j < i ==> cues[j].timeMs <= cues[i].timeMs;
    }
    SeekGoesTo(media, targetMs, i + 1);
  }

  /** Where every cue is later than the time, a seek is libavformat's own. */
  lemma SeekBeforeCues(media: Media, targetMs: int)
    requires forall i :: 0 <= i < |CuesOf(media.file)| ==> CuesOf(media.file)[i].timeMs > targetMs
    ensures SeekIndex(media, targetMs) == Within(media.fallback(targetMs), media)
  {
    hide CuesOf, SeekIndex;
    SeekGoesTo(media, targetMs, 0);
  }

  /** The boundaries of a file: of its cue times, the first, the last, and each one in a later ten seconds than the one
      before, unless the first lies past ten seconds and the second in the same ten. */
  lemma BoundariesOfFile(file: seq<Byte>)
    requires CuesOf(file) != [] && StrictlyIncreasing(TimesOf(CuesOf(file))) && TimesOf(CuesOf(file))[0] >= 0
    ensures var times := TimesOf(CuesOf(file));
            (KeyframesOf(file) == WantedAmong(times, 10000, |times|)
             <==> |times| < 3 || times[0] < 10000 || times[1] / 10000 > times[0] / 10000)
  {
    var times := TimesOf(CuesOf(file));
    hide CuesOf, TimesOf, Filtered, WantedAmong;
    KeepsWantedExactly(times, 10000);
  }
}
