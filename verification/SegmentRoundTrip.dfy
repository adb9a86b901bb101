/** Every input of a media segment, and every payload byte, is recovered by a standard reader. */
module SegmentRoundTrip {
  import opened Bytes
  import opened BoxTree
  import opened IsoTypes
  import opened BoxBuilding
  import opened SegmentLayout
  import opened SegmentReader
  import opened Fmp4Writer
  import opened Wrappers

  /** A sync sample that depends on no other. */
  const SYNC_SAMPLE: nat := 0x0200_0000

  /** Starts with a stream access point of type 1. */
  const SAP_TYPE_1: nat := 0x9000_0000

  /** What a reader sees of a sample: only the first of a run is marked as a sync sample. */
  function SeenSample(s: Sample, first: bool): ReadSample {
    ReadSample(s.duration, s.ctsOffset, if first then Some(SYNC_SAMPLE) else None, s.data)
  }

  function SeenSamples(samples: seq<Sample>, first: bool): (r: seq<ReadSample>)
    ensures |r| == |samples|
  {
    seq(|samples|, i requires 0 <= i < |samples| => SeenSample(samples[i], first && i == 0))
  }

  function SeenTrack(track: TrackInput): TrackFragment {
    TrackFragment(track.trackId, track.tfdt, SeenSamples(track.samples, true))
  }

  function SeenTracks(tracks: seq<TrackInput>): (r: seq<TrackFragment>)
    ensures |r| == |tracks|
  {
    seq(|tracks|, i requires 0 <= i < |tracks| => SeenTrack(tracks[i]))
  }

  /** The index of a track; `end` is where its sidx ends. */
  function SeenReference(track: TrackInput, end: nat, referencedSize: nat): Reference {
    var samples := track.samples;
    Reference(track.trackId, track.timescale,
              ToI64(if samples == [] then track.tfdt else samples[0].dts + samples[0].ctsOffset),
              end, referencedSize, ToU32(TotalDuration(samples)), SAP_TYPE_1)
  }

  function SeenReferences(tracks: seq<TrackInput>, at: nat, referencedSize: nat): (r: seq<Reference>)
    ensures |r| == |tracks|
  {
    seq(|tracks|, i requires 0 <= i < |tracks| => SeenReference(tracks[i], at + SIDX_SIZE * (i + 1), referencedSize))
  }

  function SeenFragment(sequenceNumber: U32, tracks: seq<TrackInput>): Fragment {
    Fragment(sequenceNumber,
             SeenReferences(tracks, STYP_SIZE, MoofSize(sequenceNumber, tracks) + Size(Mdat(tracks))),
             SeenTracks(tracks))
  }

  // ---- fields ----

  /** A field that stands between other bytes reads back. */
  lemma ReadField(before: seq<Byte>, width: nat, v: nat, after: seq<Byte>)
    requires v < Pow256(width)
    ensures Field(before + BE(width, v) + after, |before|, width) == Some(v)
  {
    hide BE, UnBE;
    UnBEofBE(width, v);
    var s := before + BE(width, v) + after;
    assert s[|before|..|before| + width] == BE(width, v);
  }

  lemma FieldIn(fields: seq<Byte>, before: seq<Byte>, width: nat, v: nat, after: seq<Byte>)
    requires fields == before + BE(width, v) + after && v < Pow256(width)
    ensures Field(fields, |before|, width) == Some(v)
  {
    ReadField(before, width, v, after);
  }

  // ---- samples ----

  lemma {:induction false} TrunEntriesConcat(a: seq<Sample>, b: seq<Sample>)
    ensures TrunEntries(a + b) == TrunEntries(a) + TrunEntries(b)
  {
    hide TrunEntry;
    if b == [] {
      assert a + b == a;
    } else {
      var n := |b| - 1;
      TrunEntriesConcat(a, b[..n]);
      assert (a + b)[..|a| + n] == a + b[..n];
    }
  }

  lemma PayloadSnoc(samples: seq<Sample>, s: Sample)
    ensures SamplePayload(samples + [s]) == SamplePayload(samples) + s.data
    ensures SamplePayload([]) == []
  {
    assert (samples + [s])[..|samples|] == samples;
  }

  lemma {:induction false} SamplePayloadConcat(a: seq<Sample>, b: seq<Sample>)
    ensures SamplePayload(a + b) == SamplePayload(a) + SamplePayload(b)
  {
    hide SamplePayload;
    if b == [] {
      PayloadSnoc(a, Sample([], 0, 0, 0, false));
      assert a + b == a;
    } else {
      var n := |b| - 1;
      SamplePayloadConcat(a, b[..n]);
      PayloadSnoc(a + b[..n], b[n]);
      PayloadSnoc(b[..n], b[n]);
      assert a + b == a + b[..n] + [b[n]] && b == b[..n] + [b[n]];
    }
  }

  lemma SamplesCons(samples: seq<Sample>)
    requires samples != []
    ensures TrunEntries(samples) == TrunEntry(samples[0]) + TrunEntries(samples[1..])
    ensures SamplePayload(samples) == samples[0].data + SamplePayload(samples[1..])
  {
    hide TrunEntries, TrunEntry, SamplePayload;
    assert samples == [samples[0]] + samples[1..];
    TrunEntriesConcat([samples[0]], samples[1..]);
    SamplePayloadConcat([samples[0]], samples[1..]);
    OneSample(samples[0]);
  }

  lemma OneSample(s: Sample)
    ensures TrunEntries([s]) == TrunEntry(s) && SamplePayload([s]) == s.data
  {
    hide TrunEntry;
    assert [s][..0] == [];
    assert [] + s.data == s.data;
    assert [] + TrunEntry(s) == TrunEntry(s);
  }

  lemma SeenCons(samples: seq<Sample>, first: bool)
    requires samples != []
    ensures SeenSamples(samples, first) == [SeenSample(samples[0], first)] + SeenSamples(samples[1..], false)
  {
  }

  lemma Adjacent(file: seq<Byte>, at: nat, a: seq<Byte>, b: seq<Byte>)
    requires at + |a| + |b| <= |file| && file[at..at + |a + b|] == a + b
    ensures file[at..at + |a|] == a && file[at + |a|..at + |a| + |b|] == b
  {
    assert file[at..at + |a|] == (a + b)[..|a|];
    assert file[at + |a|..at + |a| + |b|] == (a + b)[|a|..];
  }

  lemma TrunEntryFields(s: Sample, after: seq<Byte>)
    requires |s.data| < 0x1_0000_0000
    ensures var entries := TrunEntry(s) + after;
            && Field(entries, 0, 4) == Some(s.duration)
            && Field(entries, 4, 4) == Some(|s.data|)
            && Field(entries, 8, 4) == Some(ToU32(s.ctsOffset))
            && ToI32(ToU32(s.ctsOffset)) == s.ctsOffset
            && entries[12..] == after
  {
    hide BE, UnBE, Pow256;
    Widths();
    var a, b, c := BE(4, s.duration), BE(4, |s.data|), BE(4, ToU32(s.ctsOffset));
    var entries := TrunEntry(s) + after;
    assert entries == [] + a + (b + c + after) == a + b + (c + after) == (a + b) + c + after;
    FieldIn(entries, [], 4, s.duration, b + c + after);
    FieldIn(entries, a, 4, |s.data|, c + after);
    FieldIn(entries, a + b, 4, ToU32(s.ctsOffset), after);
  }

  const SHAPE := RunShape(false, true, true)

  lemma ReadSamplesStep(entries: seq<Byte>, count: nat, firstFlags: Option<nat>, file: seq<Byte>, at: nat,
                        duration: nat, size: nat, cts: nat, rest: seq<ReadSample>)
    requires count > 0 && |entries| >= 12 && at + size <= |file|
    requires Field(entries, 0, 4) == Some(duration) && Field(entries, 4, 4) == Some(size)
    requires Field(entries, 8, 4) == Some(cts)
    requires ReadSamples(entries[12..], count - 1, SHAPE, None, file, at + size) == Some(rest)
    ensures ReadSamples(entries, count, SHAPE, firstFlags, file, at)
         == Some([ReadSample(duration, ToI32(cts), firstFlags, file[at..at + size])] + rest)
  {
    hide Field, ToI32;
  }

  lemma {:induction false} ReadSamplesOf(samples: seq<Sample>, first: bool, file: seq<Byte>, at: nat)
    requires at + |SamplePayload(samples)| <= |file| < 0x1_0000_0000
    requires file[at..at + |SamplePayload(samples)|] == SamplePayload(samples)
    ensures ReadSamples(TrunEntries(samples), |samples|, SHAPE,
                        if first then Some(KEY_SAMPLE_FLAGS) else None, file, at)
         == Some(SeenSamples(samples, first))
  {
    hide *;
    if samples == [] {
      ReadNoSamples(first, file, at);
    } else {
      var s, rest := samples[0], samples[1..];
      SamplesCons(samples);
      TrunEntryFields(s, TrunEntries(rest));
      Adjacent(file, at, s.data, SamplePayload(rest));
      ReadSamplesOf(rest, false, file, at + |s.data|);
      assert TrunEntries(samples)[12..] == TrunEntries(rest);
      ReadSamplesStep(TrunEntries(samples), |samples|, if first then Some(KEY_SAMPLE_FLAGS) else None, file, at,
                      s.duration, |s.data|, ToU32(s.ctsOffset), SeenSamples(rest, false));
      SeenIs(s, first);
      SeenCons(samples, first);
    }
  }

  lemma SeenIs(s: Sample, first: bool)
    ensures SeenSample(s, first)
         == ReadSample(s.duration, s.ctsOffset, if first then Some(KEY_SAMPLE_FLAGS) else None, s.data)
  {
  }

  lemma ReadNoSamples(first: bool, file: seq<Byte>, at: nat)
    ensures ReadSamples(TrunEntries([]), 0, SHAPE, if first then Some(KEY_SAMPLE_FLAGS) else None, file, at)
         == Some(SeenSamples([], first))
  {
    assert SeenSamples([], first) == [];
  }

  lemma ReadTrunOf(samples: seq<Sample>, dataOffset: nat, file: seq<Byte>, moofStart: nat)
    requires |samples| < 0x1_0000_0000 && dataOffset < 0x8000_0000
    requires moofStart + dataOffset + |SamplePayload(samples)| <= |file| < 0x1_0000_0000
    requires file[moofStart + dataOffset..moofStart + dataOffset + |SamplePayload(samples)|] == SamplePayload(samples)
    ensures ReadTrun(Trun(samples, dataOffset).fields, file, moofStart) == Some(SeenSamples(samples, true))
  {
    hide BE, SamplePayload, ReadSamples, TrunEntries, Field, Trun;
    TrunFields(samples, dataOffset);
    ReadTrunFrom(Trun(samples, dataOffset).fields, |samples|, dataOffset, file, moofStart);
    ReadSamplesOf(samples, true, file, moofStart + dataOffset);
  }

  lemma ReadTrunFrom(fields: seq<Byte>, count: nat, dataOffset: nat, file: seq<Byte>, moofStart: nat)
    requires Field(fields, 0, 1) == Some(1) && Field(fields, 1, 3) == Some(TRUN_FLAGS)
    requires Field(fields, 4, 4) == Some(count) && Field(fields, 8, 4) == Some(dataOffset)
    requires Field(fields, 12, 4) == Some(KEY_SAMPLE_FLAGS) && |fields| >= 16 && dataOffset < 0x8000_0000
    ensures ReadTrun(fields, file, moofStart)
         == ReadSamples(fields[16..], count, SHAPE, Some(KEY_SAMPLE_FLAGS), file, moofStart + dataOffset)
  {
    TrunFlags();
    assert ToI32(dataOffset) == dataOffset;
    hide Field, ReadSamples, Has, ToI32;
  }

  lemma TrunFlags()
    ensures Has(TRUN_FLAGS, 0x1) && Has(TRUN_FLAGS, 0x4) && Has(TRUN_FLAGS, 0x100) && Has(TRUN_FLAGS, 0x200)
    ensures !Has(TRUN_FLAGS, 0x400) && Has(TRUN_FLAGS, 0x800)
    ensures !Has(DEFAULT_BASE_IS_MOOF, 0x1) && Has(DEFAULT_BASE_IS_MOOF, 0x02_0000)
  {
  }

  lemma TrunFields(samples: seq<Sample>, dataOffset: nat)
    requires |samples| < 0x1_0000_0000 && dataOffset < 0x8000_0000
    ensures var fields := Trun(samples, dataOffset).fields;
            && Field(fields, 0, 1) == Some(1) && Field(fields, 1, 3) == Some(TRUN_FLAGS)
            && Field(fields, 4, 4) == Some(|samples|) && Field(fields, 8, 4) == Some(dataOffset)
            && Field(fields, 12, 4) == Some(KEY_SAMPLE_FLAGS)
            && |fields| >= 16 && fields[16..] == TrunEntries(samples)
  {
    var fields := Trun(samples, dataOffset).fields;
    Widths();
    hide BE, UnBE, Pow256, TrunEntries;
    var n, o, k, e := BE(4, |samples|), BE(4, dataOffset), BE(4, KEY_SAMPLE_FLAGS), TrunEntries(samples);
    var h := FullBoxHeader(1, TRUN_FLAGS);
    assert fields == (h + n) + o + (k + e);
    assert fields == h + n + (o + k + e);
    assert fields == (h + n + o) + k + e;
    HeaderFields(1, TRUN_FLAGS, n + o + k + e);
    assert fields == h + (n + o + k + e);
    FieldIn(fields, h, 4, |samples|, o + k + e);
    FieldIn(fields, h + n, 4, dataOffset, k + e);
    FieldIn(fields, h + n + o, 4, KEY_SAMPLE_FLAGS, e);
  }

  lemma HeaderFields(version: Byte, flags: U24, after: seq<Byte>)
    ensures |FullBoxHeader(version, flags)| == 4
    ensures Field(FullBoxHeader(version, flags) + after, 0, 1) == Some(version)
    ensures Field(FullBoxHeader(version, flags) + after, 1, 3) == Some(flags)
  {
    Widths();
    assert BE(1, version) == [version];
    hide BE, UnBE, Pow256;
    var f := FullBoxHeader(version, flags) + after;
    assert f == [] + BE(1, version) + (BE(3, flags) + after) == [version] + BE(3, flags) + after;
    FieldIn(f, [], 1, version, BE(3, flags) + after);
    FieldIn(f, [version], 3, flags, after);
  }

  // ---- track fragments ----

  /** The payload of the track stands in `file` where the data offset says. */
  predicate Placed(track: TrackInput, dataOffset: nat, file: seq<Byte>, moofStart: nat) {
    var payload := SamplePayload(track.samples);
    && |file| < 0x1_0000_0000 && |track.samples| < 0x1_0000_0000 && dataOffset < 0x8000_0000
    && moofStart + dataOffset + |payload| <= |file|
    && file[moofStart + dataOffset..moofStart + dataOffset + |payload|] == payload
  }

  lemma ReadTrafOf(track: TrackInput, dataOffset: nat, file: seq<Byte>, moofStart: nat)
    requires Placed(track, dataOffset, file, moofStart)
    ensures ReadTraf(Traf(track, dataOffset), file, moofStart) == Some(SeenTrack(track))
  {
    ReadTfhdOf(track.trackId);
    ReadTfdtOf(track.tfdt);
    ReadTrunOf(track.samples, dataOffset, file, moofStart);
    RunsOf(track, dataOffset, file, moofStart);
    TrafShape(track, dataOffset);
    hide Find, ReadTfhd, ReadTfdt, ReadTrun, ReadRuns, Tfhd, Tfdt, Trun, Placed, SeenSamples, Traf;
  }

  lemma TrafShape(track: TrackInput, dataOffset: nat)
    ensures var children := Traf(track, dataOffset).children;
            && Find(children, TFHD) == Some(0) && Find(children, TFDT) == Some(1)
            && |children| >= 2 && children[0] == Tfhd(track.trackId) && children[1] == Tfdt(track.tfdt)
  {
    hide BE;
    var children := Traf(track, dataOffset).children;
    assert children[1..][0] == Tfdt(track.tfdt);
    assert Find(children[1..], TFDT) == Some(0);
  }

  lemma RunsOf(track: TrackInput, dataOffset: nat, file: seq<Byte>, moofStart: nat)
    requires ReadTrun(Trun(track.samples, dataOffset).fields, file, moofStart) == Some(SeenSamples(track.samples, true))
    ensures ReadRuns(Traf(track, dataOffset).children, file, moofStart) == Some(SeenSamples(track.samples, true))
  {
    hide ReadTrun, SeenSamples, BE;
    var children := Traf(track, dataOffset).children;
    assert children[1..][1..] == children[2..];
    assert ReadRuns(children, file, moofStart) == ReadRuns(children[2..], file, moofStart);
    if track.samples == [] {
      assert SeenSamples(track.samples, true) == [];
    } else {
      assert children[2..] == [Trun(track.samples, dataOffset)];
      assert ReadRuns(children[2..][1..], file, moofStart) == Some([]);
      assert SeenSamples(track.samples, true) + [] == SeenSamples(track.samples, true);
    }
  }

  lemma ReadTfhdOf(trackId: U32)
    ensures ReadTfhd(Tfhd(trackId).fields) == Some(trackId)
  {
    Widths();
    TrunFlags();
    hide BE, UnBE, Pow256, Has;
    HeaderFields(0, DEFAULT_BASE_IS_MOOF, BE(4, trackId));
    var h := FullBoxHeader(0, DEFAULT_BASE_IS_MOOF);
    assert Tfhd(trackId).fields == h + BE(4, trackId) + [];
    FieldIn(Tfhd(trackId).fields, h, 4, trackId, []);
  }

  /** Decode times read back when taken as signed, as the priming of the first segment needs. */
  lemma ReadTfdtOf(tfdt: I64)
    ensures ReadTfdt(Tfdt(tfdt).fields) == Some(tfdt)
  {
    Widths();
    SignedField64(tfdt);
    assert ToI64(ToU64(tfdt)) == tfdt;
    hide BE, UnBE, Pow256, ToI64, ToU64;
    HeaderFields(1, 0, BE(8, ToU64(tfdt)));
    var h := FullBoxHeader(1, 0);
    assert Tfdt(tfdt).fields == h + BE(8, ToU64(tfdt)) + [];
    FieldIn(Tfdt(tfdt).fields, h, 8, ToU64(tfdt), []);
  }

  lemma {:induction false} ReadTrafsOf(tracks: seq<TrackInput>, dataOffsets: seq<nat>, file: seq<Byte>, moofStart: nat)
    requires |dataOffsets| == |tracks|
    requires forall i :: 0 <= i < |tracks| ==> Placed(tracks[i], dataOffsets[i], file, moofStart)
    ensures ReadTrafs(Trafs(tracks, dataOffsets), file, moofStart) == Some(SeenTracks(tracks))
  {
    hide Placed, ReadTraf, SeenTrack;
    if tracks == [] {
      assert SeenTracks(tracks) == [];
    } else {
      ReadTrafOf(tracks[0], dataOffsets[0], file, moofStart);
      ReadTrafsOf(tracks[1..], dataOffsets[1..], file, moofStart);
      assert Trafs(tracks, dataOffsets)[1..] == Trafs(tracks[1..], dataOffsets[1..]);
      assert SeenTracks(tracks) == [SeenTrack(tracks[0])] + SeenTracks(tracks[1..]);
    }
  }

  // ---- segment indexes ----

  lemma ReadSidxOf(track: TrackInput, referencedSize: nat, end: nat)
    requires referencedSize < 0x8000_0000
    ensures ReadSidx(SidxOf(track, referencedSize), end) == Some(SeenReference(track, end, referencedSize))
  {
    hide *;
    var ept, duration := FirstPresentationTime(track), ToU32(TotalDuration(track.samples));
    SidxFields(track.trackId, track.timescale, ept, duration, referencedSize);
    CastTwice(ept);
    ReadSidxFrom(Sidx(track.trackId, track.timescale, ept, duration, referencedSize), end,
                 track.trackId, track.timescale, ToU64(ept), referencedSize, duration);
    SidxOfTrack(track, end, referencedSize);
  }

  lemma SidxOfTrack(track: TrackInput, end: nat, referencedSize: nat)
    ensures var ept, duration := FirstPresentationTime(track), ToU32(TotalDuration(track.samples));
            && SidxOf(track, referencedSize) == Sidx(track.trackId, track.timescale, ept, duration, referencedSize)
            && SeenReference(track, end, referencedSize)
            == Reference(track.trackId, track.timescale, ToI64(ept), end, referencedSize, duration, STARTS_WITH_SAP_1)
  {
  }

  lemma ReadSidxFrom(sidx: Box, end: nat, trackId: nat, timescale: nat, ept: nat, size: nat, duration: nat)
    requires var f := sidx.fields;
             && Field(f, 0, 1) == Some(1) && Field(f, 4, 4) == Some(trackId) && Field(f, 8, 4) == Some(timescale)
             && Field(f, 12, 8) == Some(ept) && Field(f, 20, 8) == Some(0) && Field(f, 30, 2) == Some(1)
             && Field(f, 32, 4) == Some(size) && Field(f, 36, 4) == Some(duration)
             && Field(f, 40, 4) == Some(STARTS_WITH_SAP_1)
    requires size < 0x8000_0000
    ensures ReadSidx(sidx, end) == Some(Reference(trackId, timescale, ToI64(ept), end, size, duration, STARTS_WITH_SAP_1))
  {
    hide Field, ToI64;
  }

  lemma CastTwice(v: int)
    ensures ToI64(ToU64(v)) == ToI64(v)
  {
  }

  /** A field at the head of what remains of `s`, and what remains after it. */
  lemma FieldThen(s: seq<Byte>, at: nat, width: nat, v: nat, rest: seq<Byte>)
    requires at <= |s| && s[at..] == BE(width, v) + rest && v < Pow256(width)
    ensures Field(s, at, width) == Some(v) && at + width <= |s| && s[at + width..] == rest
  {
    hide BE, UnBE, Pow256;
    UnBEofBE(width, v);
    assert s[at..at + width] == s[at..][..width];
    assert s[at + width..] == s[at..][width..];
  }

  lemma SidxFields(trackId: U32, timescale: U32, ept: int, duration: U32, referencedSize: U32)
    ensures var f := Sidx(trackId, timescale, ept, duration, referencedSize).fields;
            && Field(f, 0, 1) == Some(1) && Field(f, 4, 4) == Some(trackId) && Field(f, 8, 4) == Some(timescale)
            && Field(f, 12, 8) == Some(ToU64(ept)) && Field(f, 20, 8) == Some(0) && Field(f, 30, 2) == Some(1)
            && Field(f, 32, 4) == Some(referencedSize) && Field(f, 36, 4) == Some(duration)
            && Field(f, 40, 4) == Some(STARTS_WITH_SAP_1)
  {
    Widths();
    hide BE, UnBE, Pow256, ToU64, Field;
    var f := Sidx(trackId, timescale, ept, duration, referencedSize).fields;
    var s := BE(4, STARTS_WITH_SAP_1);
    var t := BE(4, duration) + s;
    var r := BE(4, referencedSize) + t;
    var n := BE(2, 1) + r;
    var e := BE(2, 0) + n;
    var d := BE(8, 0) + e;
    var c := BE(8, ToU64(ept)) + d;
    var b := BE(4, timescale) + c;
    var a := BE(4, trackId) + b;
    assert f == FullBoxHeader(1, 0) + a;
    HeaderFields(1, 0, a);
    assert f[4..] == a;
    FieldThen(f, 4, 4, trackId, b);
    FieldThen(f, 8, 4, timescale, c);
    FieldThen(f, 12, 8, ToU64(ept), d);
    FieldThen(f, 20, 8, 0, e);
    FieldThen(f, 28, 2, 0, n);
    FieldThen(f, 30, 2, 1, r);
    FieldThen(f, 32, 4, referencedSize, t);
    FieldThen(f, 36, 4, duration, s);
    assert s == s + [];
    FieldThen(f, 40, 4, STARTS_WITH_SAP_1, []);
  }

  lemma {:induction false} ReadReferencesOf(tracks: seq<TrackInput>, size: nat, rest: seq<Box>, at: nat)
    requires size < 0x8000_0000
    requires |rest| == 2 && rest[0].fourcc == MOOF && rest[1].fourcc == MDAT
    ensures ReadReferences(Sidxs(tracks, Repeat(size, |tracks|)) + rest, at) == Some(SeenReferences(tracks, at, size))
  {
    hide ReadSidx, SidxOf, SeenReference;
    var boxes := Sidxs(tracks, Repeat(size, |tracks|)) + rest;
    if tracks == [] {
      assert boxes == rest && boxes[1..][1..] == [] && boxes[1..][0].fourcc == MDAT;
      assert ReadReferences(boxes[1..], at + Size(boxes[0])) == Some([]);
      assert SeenReferences(tracks, at, size) == [];
    } else {
      SidxBox(tracks[0], size);
      ReadSidxOf(tracks[0], size, at + SIDX_SIZE);
      ReadReferencesOf(tracks[1..], size, rest, at + SIDX_SIZE);
      assert boxes[1..] == Sidxs(tracks[1..], Repeat(size, |tracks| - 1)) + rest;
      assert boxes[0] == SidxOf(tracks[0], size);
      assert SeenReferences(tracks, at, size)
          == [SeenReference(tracks[0], at + SIDX_SIZE, size)] + SeenReferences(tracks[1..], at + SIDX_SIZE, size);
    }
  }

  lemma SidxBox(track: TrackInput, size: nat)
    ensures SidxOf(track, size).fourcc == SIDX && Size(SidxOf(track, size)) == SIDX_SIZE
  {
    LeafSizes(track, size, 0);
  }

  // ---- the whole segment ----

  lemma SizeOfSegment(sequenceNumber: U32, tracks: seq<TrackInput>, sizes: seq<nat>, dataOffsets: seq<nat>)
    requires |sizes| == |dataOffsets| == |tracks|
    ensures SizeAll(BoxesWith(sequenceNumber, tracks, sizes, dataOffsets)) == SegmentSize(sequenceNumber, tracks)
  {
    hide Size, SizeAll, Encode, EncodeAll, Styp, Sidxs, Moof, Mdat;
    Assembled(sequenceNumber, tracks, sizes, dataOffsets);
    SidxsSize(tracks, sizes);
    MoofSizeFixed(sequenceNumber, tracks, dataOffsets);
    StypSize();
  }

  lemma {:induction false} SizeAllMember(boxes: seq<Box>, i: nat)
    requires i < |boxes|
    ensures Size(boxes[i]) <= SizeAll(boxes)
  {
    if i > 0 {
      SizeAllMember(boxes[1..], i - 1);
    }
  }

  lemma {:induction false} AllWellformed(boxes: seq<Box>)
    requires forall i :: 0 <= i < |boxes| ==> Wellformed(boxes[i])
    ensures WellformedAll(boxes)
  {
    hide Wellformed;
    if boxes != [] {
      AllWellformed(boxes[1..]);
    }
  }

  lemma WellformedLeaf(box: Box)
    requires box.children == [] && FieldsBeforeChildren(box.fourcc) == None && Size(box) < 0x1_0000_0000
    ensures Wellformed(box)
  {
  }

  lemma WellformedTraf(track: TrackInput, v: nat)
    requires |track.samples| < 0x1000_0000
    ensures Wellformed(Traf(track, v))
  {
    var traf := Traf(track, v);
    TrafSize(track, v);
    LeafSizes(track, v, 0);
    hide BE, Size;
    forall i | 0 <= i < |traf.children|
      ensures Wellformed(traf.children[i])
    {
      WellformedLeaf(traf.children[i]);
    }
    AllWellformed(traf.children);
  }

  lemma WellformedMoof(sequenceNumber: U32, tracks: seq<TrackInput>, dataOffsets: seq<nat>)
    requires |dataOffsets| == |tracks| && MoofSize(sequenceNumber, tracks) < 0x8000_0000
    ensures Wellformed(Moof(sequenceNumber, tracks, dataOffsets))
    ensures forall i :: 0 <= i < |tracks| ==> |tracks[i].samples| < 0x1000_0000
  {
    var moof := Moof(sequenceNumber, tracks, dataOffsets);
    MoofSizeFixed(sequenceNumber, tracks, dataOffsets);
    MfhdSize(sequenceNumber);
    var mfhd := Mfhd(sequenceNumber);
    WellformedLeaf(mfhd);
    hide Mfhd, Traf, Wellformed, SizeAll;
    forall i | 0 <= i < |tracks|
      ensures Wellformed(Traf(tracks[i], dataOffsets[i])) && |tracks[i].samples| < 0x1000_0000
    {
      SizeAllMember(moof.children, i + 1);
      assert moof.children[i + 1] == Traf(tracks[i], dataOffsets[i]);
      TrafSize(tracks[i], dataOffsets[i]);
      WellformedTraf(tracks[i], dataOffsets[i]);
    }
    WellformedChildren(moof, mfhd, Trafs(tracks, dataOffsets));
  }

  lemma WellformedChildren(box: Box, first: Box, rest: seq<Box>)
    requires box == Box(MOOF, [], [first] + rest) && Size(box) < 0x1_0000_0000
    requires Wellformed(first) && forall i :: 0 <= i < |rest| ==> Wellformed(rest[i])
    ensures Wellformed(box)
  {
    AllWellformed(box.children);
  }

  lemma WellformedSegment(sequenceNumber: U32, tracks: seq<TrackInput>)
    requires SegmentSize(sequenceNumber, tracks) < 0x8000_0000
    ensures WellformedAll(SegmentBoxes(sequenceNumber, tracks))
  {
    hide BE, Payload, DataOffsets, MoofSize;
    SizeIs(sequenceNumber, tracks);
    StypSize();
    WellformedLeaf(Styp());
    WellformedLeaf(Mdat(tracks));
    WellformedMoof(sequenceNumber, tracks, DataOffsets(sequenceNumber, tracks));
    var size := ReferencedSize(sequenceNumber, tracks);
    forall i | 0 <= i < |tracks|
      ensures Wellformed(SidxOf(tracks[i], size))
    {
      LeafSizes(tracks[i], size, 0);
      WellformedLeaf(SidxOf(tracks[i], size));
    }
    hide *;
    WellformedBoxes(sequenceNumber, tracks, size);
  }

  lemma WellformedBoxes(sequenceNumber: U32, tracks: seq<TrackInput>, size: nat)
    requires size == ReferencedSize(sequenceNumber, tracks)
    requires Wellformed(Styp()) && Wellformed(Mdat(tracks))
    requires Wellformed(Moof(sequenceNumber, tracks, DataOffsets(sequenceNumber, tracks)))
    requires forall i :: 0 <= i < |tracks| ==> Wellformed(SidxOf(tracks[i], size))
    ensures WellformedAll(SegmentBoxes(sequenceNumber, tracks))
  {
    hide Wellformed, Styp, SidxOf, Moof, Mdat, DataOffsets, ReferencedSize, WellformedAll;
    AllWellformed(SegmentBoxes(sequenceNumber, tracks));
  }

  lemma {:induction false} PayloadConcat(a: seq<TrackInput>, b: seq<TrackInput>)
    ensures Payload(a + b) == Payload(a) + Payload(b)
  {
    hide SamplePayload;
    if b == [] {
      assert a + b == a;
    } else {
      var n := |b| - 1;
      PayloadLast(b);
      PayloadLast(a + b);
      hide *;
      PayloadConcat(a, b[..n]);
      assert (a + b)[..|a| + n] == a + b[..n];
      Associate(Payload(a), Payload(b[..n]), SamplePayload(b[n].samples), []);
    }
  }

  lemma PayloadLast(tracks: seq<TrackInput>)
    requires tracks != []
    ensures var n := |tracks| - 1; Payload(tracks) == Payload(tracks[..n]) + SamplePayload(tracks[n].samples)
  {
  }

  lemma PayloadOfTrack(tracks: seq<TrackInput>, i: nat)
    requires i < |tracks|
    ensures Payload(tracks) == Payload(tracks[..i]) + SamplePayload(tracks[i].samples) + Payload(tracks[i + 1..])
  {
    PayloadNext(tracks, i);
    hide *;
    assert tracks == tracks[..i + 1] + tracks[i + 1..];
    PayloadConcat(tracks[..i + 1], tracks[i + 1..]);
  }

  lemma PayloadNext(tracks: seq<TrackInput>, i: nat)
    requires i < |tracks|
    ensures Payload(tracks[..i + 1]) == Payload(tracks[..i]) + SamplePayload(tracks[i].samples)
  {
    hide SamplePayload;
    assert tracks[..i + 1][..i] == tracks[..i];
  }

  lemma Slice(a: seq<Byte>, b: seq<Byte>, c: seq<Byte>, d: seq<Byte>)
    ensures (a + (b + c + d))[|a| + |b|..|a| + |b| + |c|] == c
  {
  }

  /** Each track's payload stands where its data offset says: no patch touched it. */
  lemma AllPlaced(sequenceNumber: U32, tracks: seq<TrackInput>, i: nat)
    requires SegmentSize(sequenceNumber, tracks) < 0x8000_0000 && i < |tracks|
    requires |tracks[i].samples| < 0x1000_0000
    ensures Placed(tracks[i], DataOffset(sequenceNumber, tracks, i), SegmentBytes(sequenceNumber, tracks),
                   STYP_SIZE + SIDX_SIZE * |tracks|)
  {
    hide *;
    var file, moofStart := SegmentBytes(sequenceNumber, tracks), STYP_SIZE + SIDX_SIZE * |tracks|;
    var before, payload, rest := Payload(tracks[..i]), SamplePayload(tracks[i].samples), Payload(tracks[i + 1..]);
    var head := MdatPayload(sequenceNumber, tracks);
    PayloadOfTrack(tracks, i);
    DataOffsetIs(sequenceNumber, tracks, i);
    Slice(head, before, payload, rest);
    MakePlaced(tracks[i], DataOffset(sequenceNumber, tracks, i), file, moofStart);
  }

  lemma DataOffsetIs(sequenceNumber: U32, tracks: seq<TrackInput>, i: nat)
    requires SegmentSize(sequenceNumber, tracks) < 0x8000_0000 && i <= |tracks|
    ensures DataOffset(sequenceNumber, tracks, i) == MoofSize(sequenceNumber, tracks) + 8 + |Payload(tracks[..i])|
  {
    hide Payload, MoofSize;
    MdatSize(tracks);
    PayloadConcat(tracks[..i], tracks[i..]);
    assert tracks == tracks[..i] + tracks[i..];
  }

  lemma MdatPayload(sequenceNumber: U32, tracks: seq<TrackInput>) returns (head: seq<Byte>)
    requires SegmentSize(sequenceNumber, tracks) < 0x8000_0000
    ensures SegmentBytes(sequenceNumber, tracks) == head + Payload(tracks)
    ensures |head| == STYP_SIZE + SIDX_SIZE * |tracks| + MoofSize(sequenceNumber, tracks) + 8
    ensures |SegmentBytes(sequenceNumber, tracks)| == SegmentSize(sequenceNumber, tracks) == |head| + |Payload(tracks)|
  {
    var sizes, offsets := Repeat(ReferencedSize(sequenceNumber, tracks), |tracks|), DataOffsets(sequenceNumber, tracks);
    var mdat := Mdat(tracks);
    MdatSize(tracks);
    hide *;
    Assembled(sequenceNumber, tracks, sizes, offsets);
    SizeOfSegment(sequenceNumber, tracks, sizes, offsets);
    SidxsSize(tracks, sizes);
    MoofSizeFixed(sequenceNumber, tracks, offsets);
    StypSize();
    var a := Encode(Styp()) + EncodeAll(Sidxs(tracks, sizes)) + Encode(Moof(sequenceNumber, tracks, offsets));
    var h := BE(4, Size(mdat)) + BE(4, MDAT);
    BytesAre(sequenceNumber, tracks);
    head := a + h;
    assert a + (h + Payload(tracks)) == head + Payload(tracks);
    SizeIs(sequenceNumber, tracks);
  }

  lemma MdatSize(tracks: seq<TrackInput>)
    ensures Size(Mdat(tracks)) == 8 + |Payload(tracks)|
    ensures Encode(Mdat(tracks)) == BE(4, Size(Mdat(tracks))) + BE(4, MDAT) + Payload(tracks)
  {
    Leaf(Mdat(tracks));
  }

  lemma BytesAre(sequenceNumber: U32, tracks: seq<TrackInput>)
    ensures SegmentBytes(sequenceNumber, tracks)
         == EncodeAll(BoxesWith(sequenceNumber, tracks, Repeat(ReferencedSize(sequenceNumber, tracks), |tracks|),
                                DataOffsets(sequenceNumber, tracks)))
  {
    hide EncodeAll, BoxesWith, ReferencedSize, DataOffsets;
  }

  lemma SizeIs(sequenceNumber: U32, tracks: seq<TrackInput>)
    ensures SegmentSize(sequenceNumber, tracks)
         == STYP_SIZE + SIDX_SIZE * |tracks| + MoofSize(sequenceNumber, tracks) + Size(Mdat(tracks))
  {
    hide Size, MoofSize, Mdat;
  }

  lemma MakePlaced(track: TrackInput, dataOffset: nat, file: seq<Byte>, moofStart: nat)
    requires |file| < 0x8000_0000 && |track.samples| < 0x1000_0000
    requires moofStart + dataOffset + |SamplePayload(track.samples)| <= |file|
    requires file[moofStart + dataOffset..moofStart + dataOffset + |SamplePayload(track.samples)|]
          == SamplePayload(track.samples)
    ensures Placed(track, dataOffset, file, moofStart)
  {
  }

  lemma {:induction false} NoMoof(boxes: seq<Box>, rest: seq<Box>)
    requires forall i :: 0 <= i < |boxes| ==> boxes[i].fourcc != MOOF
    requires rest != [] && rest[0].fourcc == MOOF
    ensures Find(boxes + rest, MOOF) == Some(|boxes|)
  {
    if boxes == [] {
      assert boxes + rest == rest;
    } else {
      assert (boxes + rest)[1..] == boxes[1..] + rest;
      NoMoof(boxes[1..], rest);
    }
  }

  /** Reading a segment recovers its sequence number, its indexes, every track and every sample. */
  lemma SegmentRoundTrip(sequenceNumber: U32, tracks: seq<TrackInput>)
    requires SegmentSize(sequenceNumber, tracks) < 0x8000_0000
    ensures |SegmentBytes(sequenceNumber, tracks)| == SegmentSize(sequenceNumber, tracks)
    ensures Parse(SegmentBytes(sequenceNumber, tracks)) == Some(SegmentBoxes(sequenceNumber, tracks))
    ensures ReadFragment(SegmentBytes(sequenceNumber, tracks)) == Some(SeenFragment(sequenceNumber, tracks))
  {
    hide *;
    var file, boxes := SegmentBytes(sequenceNumber, tracks), SegmentBoxes(sequenceNumber, tracks);
    var moof := Moof(sequenceNumber, tracks, DataOffsets(sequenceNumber, tracks));
    var seen := SeenFragment(sequenceNumber, tracks);
    var head := MdatPayload(sequenceNumber, tracks);
    WellformedSegment(sequenceNumber, tracks);
    ParseEncode(boxes);
    BoxesAre(sequenceNumber, tracks);
    ReadHead(sequenceNumber, tracks);
    ReadMoof(sequenceNumber, tracks);
    ReadFragmentFrom(file, boxes, |tracks| + 1, sequenceNumber, seen.references, seen.tracks);
  }

  lemma BoxesAre(sequenceNumber: U32, tracks: seq<TrackInput>)
    ensures var moof := Moof(sequenceNumber, tracks, DataOffsets(sequenceNumber, tracks));
            var boxes := SegmentBoxes(sequenceNumber, tracks);
            && boxes == [Styp()] + Sidxs(tracks, Repeat(ReferencedSize(sequenceNumber, tracks), |tracks|))
                        + [moof, Mdat(tracks)]
            && |boxes| == |tracks| + 3 && boxes[|tracks| + 1] == moof && moof.fourcc == MOOF
            && SegmentBytes(sequenceNumber, tracks) == EncodeAll(boxes)
    ensures var seen := SeenFragment(sequenceNumber, tracks);
            && seen == Fragment(sequenceNumber, seen.references, SeenTracks(tracks))
            && seen.references
            == SeenReferences(tracks, STYP_SIZE, MoofSize(sequenceNumber, tracks) + Size(Mdat(tracks)))
  {
    hide Styp, Trafs, Mfhd, Mdat, Size, MoofSize, EncodeAll, SeenReferences, SeenTracks, DataOffsets, ReferencedSize;
  }

  lemma ReadHead(sequenceNumber: U32, tracks: seq<TrackInput>)
    requires SegmentSize(sequenceNumber, tracks) < 0x8000_0000
    ensures var boxes := SegmentBoxes(sequenceNumber, tracks);
            && Find(boxes, MOOF) == Some(|tracks| + 1)
            && |boxes| > |tracks|
            && SizeAll(boxes[..|tracks| + 1]) == STYP_SIZE + SIDX_SIZE * |tracks|
            && ReadReferences(boxes, 0) == Some(SeenFragment(sequenceNumber, tracks).references)
  {
    hide *;
    var size, offsets := ReferencedSize(sequenceNumber, tracks), DataOffsets(sequenceNumber, tracks);
    var boxes := SegmentBoxes(sequenceNumber, tracks);
    BoxesAre(sequenceNumber, tracks);
    ReferencedSizeIs(sequenceNumber, tracks);
    HeadSizeOf(sequenceNumber, tracks);
    ReadBoxes(tracks, size, Moof(sequenceNumber, tracks, offsets));
  }

  lemma ReferencedSizeIs(sequenceNumber: U32, tracks: seq<TrackInput>)
    requires SegmentSize(sequenceNumber, tracks) < 0x8000_0000
    ensures ReferencedSize(sequenceNumber, tracks) == MoofSize(sequenceNumber, tracks) + Size(Mdat(tracks))
    ensures ReferencedSize(sequenceNumber, tracks) < 0x8000_0000
  {
    hide Size, Mdat, Moof, MoofSize;
  }

  lemma HeadSizeOf(sequenceNumber: U32, tracks: seq<TrackInput>)
    ensures |SegmentBoxes(sequenceNumber, tracks)| > |tracks|
    ensures SizeAll(SegmentBoxes(sequenceNumber, tracks)[..|tracks| + 1]) == STYP_SIZE + SIDX_SIZE * |tracks|
  {
    hide SizeAll, Styp, Mdat, Moof, ReferencedSize, DataOffsets;
    HeadSize(sequenceNumber, tracks, Repeat(ReferencedSize(sequenceNumber, tracks), |tracks|),
             DataOffsets(sequenceNumber, tracks), |tracks|);
  }

  lemma ReadBoxes(tracks: seq<TrackInput>, size: nat, moof: Box)
    requires size < 0x8000_0000 && moof.fourcc == MOOF
    ensures var boxes := [Styp()] + Sidxs(tracks, Repeat(size, |tracks|)) + [moof, Mdat(tracks)];
            && Find(boxes, MOOF) == Some(|tracks| + 1)
            && ReadReferences(boxes, 0) == Some(SeenReferences(tracks, STYP_SIZE, size))
  {
    hide Size, SizeAll, SidxOf, BE, Payload, ReadSidx, SeenReferences;
    var sidxs, rest := Sidxs(tracks, Repeat(size, |tracks|)), [moof, Mdat(tracks)];
    StypSize();
    forall i | 0 <= i < |tracks|
      ensures sidxs[i].fourcc == SIDX
    {
      SidxBox(tracks[i], size);
    }
    hide Sidxs;
    NoMoof([Styp()] + sidxs, rest);
    ReadReferencesOf(tracks, size, rest, STYP_SIZE);
    assert ([Styp()] + sidxs + rest)[1..] == sidxs + rest;
  }

  lemma ReadMoof(sequenceNumber: U32, tracks: seq<TrackInput>)
    requires SegmentSize(sequenceNumber, tracks) < 0x8000_0000
    ensures var moof, file := Moof(sequenceNumber, tracks, DataOffsets(sequenceNumber, tracks)),
                              SegmentBytes(sequenceNumber, tracks);
            && Find(moof.children, MFHD) == Some(0)
            && |moof.children| > 0 && Field(moof.children[0].fields, 4, 4) == Some(sequenceNumber)
            && ReadTrafs(moof.children, file, STYP_SIZE + SIDX_SIZE * |tracks|) == Some(SeenTracks(tracks))
  {
    var file, offsets := SegmentBytes(sequenceNumber, tracks), DataOffsets(sequenceNumber, tracks);
    var moofStart := STYP_SIZE + SIDX_SIZE * |tracks|;
    MfhdFields(sequenceNumber);
    hide Mfhd, Size, SegmentBytes, ReadTraf, Traf, Placed, Field, DataOffset, MoofSize;
    SizeIs(sequenceNumber, tracks);
    WellformedMoof(sequenceNumber, tracks, offsets);
    forall i | 0 <= i < |tracks|
      ensures Placed(tracks[i], offsets[i], file, moofStart)
    {
      AllPlaced(sequenceNumber, tracks, i);
    }
    ReadTrafsOf(tracks, offsets, file, moofStart);
    assert Moof(sequenceNumber, tracks, offsets).children[1..] == Trafs(tracks, offsets);
  }

  lemma MfhdFields(sequenceNumber: U32)
    ensures Mfhd(sequenceNumber).fourcc == MFHD && Field(Mfhd(sequenceNumber).fields, 4, 4) == Some(sequenceNumber)
  {
    Widths();
    hide BE, UnBE, Pow256;
    HeaderFields(0, 0, []);
    var h := FullBoxHeader(0, 0);
    assert Mfhd(sequenceNumber).fields == h + BE(4, sequenceNumber) + [];
    FieldIn(Mfhd(sequenceNumber).fields, h, 4, sequenceNumber, []);
  }

  lemma ReadFragmentFrom(file: seq<Byte>, boxes: seq<Box>, moof: nat, sequenceNumber: nat,
                         references: seq<Reference>, tracks: seq<TrackFragment>)
    requires Parse(file) == Some(boxes) && ReadReferences(boxes, 0) == Some(references)
    requires Find(boxes, MOOF) == Some(moof) && moof < |boxes|
    requires Find(boxes[moof].children, MFHD) == Some(0) && |boxes[moof].children| > 0
    requires Field(boxes[moof].children[0].fields, 4, 4) == Some(sequenceNumber)
    requires ReadTrafs(boxes[moof].children, file, SizeAll(boxes[..moof])) == Some(tracks)
    ensures ReadFragment(file) == Some(Fragment(sequenceNumber, references, tracks))
  {
    hide Parse, ReadReferences, Find, Field, ReadTrafs, SizeAll;
  }

  /** Inputs that agree in all that a segment holds. It holds neither sync flags nor the decode times of samples after
      the first, which a reader derives from the durations. */
  predicate SameInput(a: TrackInput, b: TrackInput) {
    && a.trackId == b.trackId && a.timescale == b.timescale && a.tfdt == b.tfdt && |a.samples| == |b.samples|
    && (a.samples != [] ==> a.samples[0].dts == b.samples[0].dts)
    && forall j :: 0 <= j < |a.samples| ==> SameSample(a.samples[j], b.samples[j])
  }

  predicate SameSample(a: Sample, b: Sample) {
    a.data == b.data && a.duration == b.duration && a.ctsOffset == b.ctsOffset
  }

  lemma SeenApart(a: TrackInput, b: TrackInput)
    requires SeenTrack(a) == SeenTrack(b) && a.timescale == b.timescale
    requires ToI64(FirstPresentationTime(a)) == ToI64(FirstPresentationTime(b))
    ensures SameInput(a, b)
  {
    assert |SeenSamples(a.samples, true)| == |SeenSamples(b.samples, true)|;
    hide ToI64;
    forall j | 0 <= j < |a.samples|
      ensures SameSample(a.samples[j], b.samples[j])
    {
      assert SeenSamples(a.samples, true)[j] == SeenSamples(b.samples, true)[j];
    }
    if a.samples != [] {
      assert SameSample(a.samples[0], b.samples[0]);
      SameDts(a.samples[0].dts, b.samples[0].dts, a.samples[0].ctsOffset);
    }
  }

  lemma SameDts(a: I64, b: I64, cts: int)
    requires ToI64(a + cts) == ToI64(b + cts)
    ensures a == b
  {
    var x: int, y: int := a + cts, b + cts;
    assert x % 0x1_0000_0000_0000_0000 == y % 0x1_0000_0000_0000_0000;
  }

  /** Segments with the same bytes have the same inputs. */
  lemma SegmentInjective(q: U32, tracks: seq<TrackInput>, q': U32, tracks': seq<TrackInput>)
    requires SegmentSize(q, tracks) < 0x8000_0000 && SegmentSize(q', tracks') < 0x8000_0000
    requires SegmentBytes(q, tracks) == SegmentBytes(q', tracks')
    ensures q == q' && |tracks| == |tracks'|
    ensures forall i :: 0 <= i < |tracks| ==> SameInput(tracks[i], tracks'[i])
  {
    hide *;
    SegmentRoundTrip(q, tracks);
    SegmentRoundTrip(q', tracks');
    SeenCount(q, tracks);
    SeenCount(q', tracks');
    forall i | 0 <= i < |tracks|
      ensures SameInput(tracks[i], tracks'[i])
    {
      SeenAt(q, tracks, i);
      SeenAt(q', tracks', i);
      SeenApart(tracks[i], tracks'[i]);
    }
  }

  lemma SeenCount(q: U32, tracks: seq<TrackInput>)
    ensures var seen := SeenFragment(q, tracks);
            seen.sequenceNumber == q && |seen.tracks| == |seen.references| == |tracks|
  {
    hide MoofSize, Size, Mdat;
  }

  lemma SeenAt(q: U32, tracks: seq<TrackInput>, i: nat)
    requires i < |tracks|
    ensures var seen := SeenFragment(q, tracks);
            && i < |seen.tracks| && i < |seen.references| && seen.tracks[i] == SeenTrack(tracks[i])
            && seen.references[i].timescale == tracks[i].timescale
            && seen.references[i].ept == ToI64(FirstPresentationTime(tracks[i]))
  {
    hide MoofSize, Size, Mdat, SeenTrack, TotalDuration, ToI64;
  }

  /** Every index refers to moof and mdat; only the last one's anchor is the moof, so only its reference ends where
      the segment ends. */
  lemma OnlyLastReferenceIsAnchored(sequenceNumber: U32, tracks: seq<TrackInput>, seen: Fragment, i: nat)
    requires SegmentSize(sequenceNumber, tracks) < 0x8000_0000
    requires ReadFragment(SegmentBytes(sequenceNumber, tracks)) == Some(seen)
    ensures |seen.references| == |tracks|
    ensures i < |tracks| ==>
              && seen.references[i].size == MoofSize(sequenceNumber, tracks) + Size(Mdat(tracks))
              && (seen.references[i].anchor + seen.references[i].size == |SegmentBytes(sequenceNumber, tracks)|
                  <==> i == |tracks| - 1)
  {
    hide *;
    SegmentRoundTrip(sequenceNumber, tracks);
    BoxesAre(sequenceNumber, tracks);
    SizeIs(sequenceNumber, tracks);
    if i < |tracks| {
      ReferenceAt(tracks, MoofSize(sequenceNumber, tracks) + Size(Mdat(tracks)), i);
    }
  }

  lemma ReferenceAt(tracks: seq<TrackInput>, size: nat, i: nat)
    requires i < |tracks|
    ensures var r := SeenReferences(tracks, STYP_SIZE, size)[i];
            && r.size == size
            && (r.anchor == STYP_SIZE + SIDX_SIZE * |tracks| <==> i == |tracks| - 1)
  {
  }

  /** The box types that a segment consists of besides those that a reader looks for, and its brands: msdh and msix. */
  lemma SegmentTypes(tracks: seq<TrackInput>)
    ensures Styp().fourcc == ISO_STYP && Mdat(tracks).fourcc == ISO_MDAT
    ensures Styp().fields == BE(4, 0x6D736468) + BE(4, 0) + BE(4, 0x6D736468) + BE(4, 0x6D736978)
  {
    hide BE;
  }
}
