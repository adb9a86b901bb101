/** What a build feeds the encoder depends only on the audio packets; and when the frames that come out cover the
    range that the segment needs. */
module Coverage {
  import opened Bytes
  import opened Wrappers
  import opened Aac
  import opened AudioSchedule
  import opened Demux
  import opened SessionSpec
  import opened Tiling

  // ---- interleaving ----

  /** The audio packets of a stream from `from` on. */
  function AudioOnly(stream: seq<Packet>, from: nat): seq<Packet>
    requires from <= |stream|
    decreases |stream| - from
  {
    if from == |stream| then []
    else (if stream[from].AudioPacket? then [stream[from]] else []) + AudioOnly(stream, from + 1)
  }

  /** The audio packets that are decoded: from the preroll on, up to the first one past the limit. */
  function RelevantPackets(audio: seq<Packet>, decodeStart: int, limit: int): (r: seq<Packet>)
    requires forall p :: p in audio ==> p.AudioPacket?
    ensures forall p :: p in r ==> p.AudioPacket?
  {
    if audio == [] || AudioTime(audio[0], decodeStart) > limit then []
    else (if AudioTime(audio[0], decodeStart) >= decodeStart then [audio[0]] else [])
         + RelevantPackets(audio[1..], decodeStart, limit)
  }

  function DataOf(packets: seq<Packet>): (d: seq<seq<Byte>>)
    requires forall p :: p in packets ==> p.AudioPacket?
    ensures |d| == |packets|
  {
    seq(|packets|, i requires 0 <= i < |packets| => packets[i].data)
  }

  function Relevant(audio: seq<Packet>, decodeStart: int, limit: int): seq<seq<Byte>>
    requires forall p :: p in audio ==> p.AudioPacket?
  {
    DataOf(RelevantPackets(audio, decodeStart, limit))
  }

  lemma {:induction false} AudioOnlyIsAudio(stream: seq<Packet>, from: nat)
    requires from <= |stream|
    ensures forall p :: p in AudioOnly(stream, from) ==> p.AudioPacket?
    decreases |stream| - from
  {
    if from < |stream| {
      AudioOnlyIsAudio(stream, from + 1);
    }
  }

  /** The packet is audio, and not known to lie before the decode start. */
  predicate IsDecoded(p: Packet, decodeStart: int) {
    p.AudioPacket? && (p.audioMs.None? || p.audioMs.value >= decodeStart)
  }

  /** The data decoded between two packets of the stream. */
  function DecodedBetween(stream: seq<Packet>, lo: nat, hi: nat, decodeStart: int): seq<seq<Byte>>
    requires lo <= hi <= |stream|
    decreases hi - lo
  {
    if lo == hi then []
    else (if IsDecoded(stream[lo], decodeStart) then [stream[lo].data] else [])
         + DecodedBetween(stream, lo + 1, hi, decodeStart)
  }

  lemma {:induction false} DecodedJoins(stream: seq<Packet>, lo: nat, mid: nat, hi: nat, decodeStart: int)
    requires lo <= mid <= hi <= |stream|
    ensures DecodedBetween(stream, lo, hi, decodeStart)
         == DecodedBetween(stream, lo, mid, decodeStart) + DecodedBetween(stream, mid, hi, decodeStart)
    decreases mid - lo
  {
    if lo < mid {
      DecodedJoins(stream, lo + 1, mid, hi, decodeStart);
    }
  }

  lemma {:induction false} DecodedInConcat(a: seq<AudioOp>, b: seq<AudioOp>)
    ensures DecodedIn(a + b) == DecodedIn(a) + DecodedIn(b)
  {
    if b == [] {
      assert a + b == a;
    } else {
      var n := |b| - 1;
      DecodedInConcat(a, b[..n]);
      assert (a + b)[..|a| + n] == a + b[..n];
    }
  }

  lemma DecodedInOne(p: Packet, decodeStart: int)
    ensures DecodedIn(DecodeOp(p, decodeStart))
         == if IsDecoded(p, decodeStart) then [p.data] else []
    ensures DecodedIn([Drain]) == [] && DecodedIn([]) == []
  {
  }

  lemma {:induction false} OpsDecode(stream: seq<Packet>, lo: nat, hi: nat, decodeStart: int)
    requires lo <= hi <= |stream|
    ensures DecodedIn(MainOps(stream, lo, hi, decodeStart)) == DecodedBetween(stream, lo, hi, decodeStart)
    ensures DecodedIn(DecodeOps(stream, lo, hi, decodeStart)) == DecodedBetween(stream, lo, hi, decodeStart)
    decreases hi - lo
  {
    hide DecodedIn, DecodeOp, IsDecoded;
    if lo == hi {
      DecodedInOne(OtherPacket, 0);
    } else {
      var p, before := stream[hi - 1], MainOps(stream, lo, hi - 1, decodeStart);
      OpsDecode(stream, lo, hi - 1, decodeStart);
      DecodedJoins(stream, lo, hi - 1, hi, decodeStart);
      DecodedInOne(p, decodeStart);
      DecodedInConcat(before + DecodeOp(p, decodeStart), if p.AudioPacket? then [Drain] else []);
      DecodedInConcat(before, DecodeOp(p, decodeStart));
      DecodedInConcat(DecodeOps(stream, lo, hi - 1, decodeStart), DecodeOp(p, decodeStart));
      assert DecodedBetween(stream, hi, hi, decodeStart) == [];
    }
  }

  lemma {:induction false} FirstAudioLater(stream: seq<Packet>, a: nat, b: nat, decodeStart: int, limit: int)
    requires a <= b <= |stream|
    ensures FirstAudioAfter(stream, a, decodeStart, limit) <= FirstAudioAfter(stream, b, decodeStart, limit)
    decreases b - a
  {
    if a < b {
      FirstAudioLater(stream, a + 1, b, decodeStart, limit);
    }
  }

  /** Where a build stops decoding. */
  function DecodeStop(stream: seq<Packet>, from: nat, startMs: int, endMs: int): (stop: nat)
    requires from <= |stream|
    ensures from <= stop <= |stream|
  {
    var boundary := FirstKey(stream, FirstKey(stream, from, startMs), endMs);
    if boundary == |stream| then boundary
    else FirstAudioAfter(stream, boundary + 1, DecodeStartMs(startMs), endMs + LOOKAHEAD_MS)
  }

  /** A build decodes all audio up to the first packet past the lookahead, and perhaps more. */
  lemma BuildDecodes(stream: seq<Packet>, from: nat, startMs: int, endMs: int)
    requires from <= |stream|
    ensures FirstAudioAfter(stream, from, DecodeStartMs(startMs), endMs + LOOKAHEAD_MS)
         <= DecodeStop(stream, from, startMs, endMs)
    ensures DecodedIn(BuildOps(stream, from, startMs, endMs))
         == DecodedBetween(stream, from, DecodeStop(stream, from, startMs, endMs), DecodeStartMs(startMs))
  {
    hide *;
    var start, limit := DecodeStartMs(startMs), endMs + LOOKAHEAD_MS;
    var boundary := FirstKey(stream, FirstKey(stream, from, startMs), endMs);
    BuildOpsAre(stream, from, startMs, endMs, boundary);
    OpsDecode(stream, from, boundary, start);
    var main := MainOps(stream, from, boundary, start);
    if boundary == |stream| {
      DrainDecodesNothing(main, []);
    } else {
      var stop := DecodeStop(stream, from, startMs, endMs);
      SkipKey(stream, from, boundary, stop, endMs, start);
      OpsDecode(stream, boundary + 1, stop, start);
      DrainDecodesNothing(main, DecodeOps(stream, boundary + 1, stop, start));
    }
  }

  lemma DrainDecodesNothing(a: seq<AudioOp>, b: seq<AudioOp>)
    ensures DecodedIn(a + b + [Drain]) == DecodedIn(a) + DecodedIn(b) && DecodedIn(a + [Drain]) == DecodedIn(a)
  {
    DecodedInOne(OtherPacket, 0);
    hide *;
    DecodedInConcat(a + b, [Drain]);
    DecodedInConcat(a, b);
    DecodedInConcat(a, [Drain]);
  }

  lemma SkipKey(stream: seq<Packet>, from: nat, boundary: nat, stop: nat, ms: int, decodeStart: int)
    requires from <= boundary < stop <= |stream| && IsKeyFrom(stream[boundary], ms)
    ensures DecodedBetween(stream, from, stop, decodeStart)
         == DecodedBetween(stream, from, boundary, decodeStart) + DecodedBetween(stream, boundary + 1, stop, decodeStart)
  {
    KeyDecodesNothing(stream, boundary, stop, ms, decodeStart);
    hide *;
    DecodedJoins(stream, from, boundary, stop, decodeStart);
  }

  lemma BuildOpsAre(stream: seq<Packet>, from: nat, startMs: int, endMs: int, boundary: nat)
    requires from <= |stream| && boundary == FirstKey(stream, FirstKey(stream, from, startMs), endMs)
    ensures var start, stop := DecodeStartMs(startMs), DecodeStop(stream, from, startMs, endMs);
            var main := MainOps(stream, from, boundary, start);
            && FirstAudioAfter(stream, from, start, endMs + LOOKAHEAD_MS) <= stop
            && if boundary == |stream| then stop == boundary && BuildOps(stream, from, startMs, endMs) == main + [Drain]
               else
                 && from <= boundary < stop && IsKeyFrom(stream[boundary], endMs)
                 && BuildOps(stream, from, startMs, endMs) == main + DecodeOps(stream, boundary + 1, stop, start) + [Drain]
  {
    var start, limit, first := DecodeStartMs(startMs), endMs + LOOKAHEAD_MS, FirstKey(stream, from, startMs);
    FirstKeyIs(stream, first, endMs);
    hide FirstKey, MainOps, DecodeOps, FirstAudioAfter, DecodeStartMs, IsKeyFrom;
    var main := MainOps(stream, from, boundary, start);
    assert main + [] == main;
    if boundary < |stream| {
      FirstAudioLater(stream, from, boundary + 1, start, limit);
    }
  }

  lemma KeyDecodesNothing(stream: seq<Packet>, at: nat, stop: nat, ms: int, decodeStart: int)
    requires at < stop <= |stream| && IsKeyFrom(stream[at], ms)
    ensures DecodedBetween(stream, at, stop, decodeStart) == DecodedBetween(stream, at + 1, stop, decodeStart)
  {
  }

  /** What is decoded up to the limit can be told from the audio packets alone. */
  lemma {:induction false} RelevantIs(stream: seq<Packet>, from: nat, decodeStart: int, limit: int)
    requires from <= |stream|
    ensures forall p :: p in AudioOnly(stream, from) ==> p.AudioPacket?
    ensures DecodedBetween(stream, from, FirstAudioAfter(stream, from, decodeStart, limit), decodeStart)
         == Relevant(AudioOnly(stream, from), decodeStart, limit)
    decreases |stream| - from
  {
    AudioOnlyIsAudio(stream, from);
    if from < |stream| {
      RelevantIs(stream, from + 1, decodeStart, limit);
      var audio, rest := AudioOnly(stream, from), AudioOnly(stream, from + 1);
      if stream[from].AudioPacket? {
        assert audio[0] == stream[from] && audio[1..] == rest;
      } else {
        assert audio == rest;
      }
    }
  }

  /** What packets decode to since a Reset, one after another. */
  function PcmOf(codec: Codec, packets: seq<seq<Byte>>): seq<Stereo> {
    if packets == [] then [] else PcmOf(codec, packets[..|packets| - 1]) + codec.decode(packets)
  }

  /** How many samples that is. */
  function Samples(codec: Codec, packets: seq<seq<Byte>>): nat {
    |PcmOf(codec, packets)|
  }

  lemma {:induction false} QueueIs(codec: Codec, pts: int, packets: seq<seq<Byte>>)
    ensures DecodedAll(codec, Fresh(pts), packets) == AudioState(PcmOf(codec, packets), pts, packets, [])
  {
    if packets != [] {
      var n := |packets| - 1;
      var before := DecodedAll(codec, Fresh(pts), packets[..n]);
      QueueIs(codec, pts, packets[..n]);
      assert DecodedAll(codec, Fresh(pts), packets) == Decoded(codec, before, packets[n]);
      hide DecodedAll;
      assert before.decoded + [packets[n]] == packets;
    }
  }

  lemma {:induction false} QueueGrows(codec: Codec, st: AudioState, more: seq<seq<Byte>>)
    ensures st.queue <= DecodedAll(codec, st, more).queue
  {
    if more != [] {
      QueueGrows(codec, st, more[..|more| - 1]);
    }
  }

  /** The frames fed by a build that reads `stream` from `from`. */
  function FedBy(codec: Codec, stream: seq<Packet>, from: nat, pts: int, startMs: int, endMs: int): seq<Frame>
    requires from <= |stream|
  {
    RunOps(codec, Fresh(pts), Cutoff(endMs), BuildOps(stream, from, startMs, endMs)).fed
  }

  /** The audio packets up to the lookahead hold every whole frame up to the cutoff. */
  predicate EnoughAudio(codec: Codec, audio: seq<Packet>, pts: int, startMs: int, endMs: int)
    requires forall p :: p in audio ==> p.AudioPacket?
  {
    Enough(codec, DecodedAll(codec, Fresh(pts), Relevant(audio, DecodeStartMs(startMs), endMs + LOOKAHEAD_MS)),
           Cutoff(endMs))
  }

  /** The frames a single drain feeds after the audio packets up to the lookahead. */
  function FedByAudio(codec: Codec, audio: seq<Packet>, pts: int, startMs: int, endMs: int): seq<Frame>
    requires forall p :: p in audio ==> p.AudioPacket?
  {
    Drained(codec, DecodedAll(codec, Fresh(pts), Relevant(audio, DecodeStartMs(startMs), endMs + LOOKAHEAD_MS)),
            Cutoff(endMs)).fed
  }

  /** Every frame that the audio packets up to the lookahead fill is fed, with the same samples at the same time,
      wherever video packets, the boundary keyframe and the drains fall among them; and nothing but these frames, once
      the packets hold every frame up to the cutoff. */
  lemma InterleavingIndependence(codec: Codec, stream: seq<Packet>, from: nat, pts: int, startMs: int, endMs: int)
    requires from <= |stream|
    ensures forall p :: p in AudioOnly(stream, from) ==> p.AudioPacket?
    ensures var fed, audio := FedBy(codec, stream, from, pts, startMs, endMs), AudioOnly(stream, from);
            && FedByAudio(codec, audio, pts, startMs, endMs) <= fed
            && (EnoughAudio(codec, audio, pts, startMs, endMs) ==> FedByAudio(codec, audio, pts, startMs, endMs) == fed)
  {
    AudioOnlyIsAudio(stream, from);
    var audio := AudioOnly(stream, from);
    hide *;
    FedByLastDrain(codec, stream, from, pts, startMs, endMs);
    var more := DecodesRelevant(stream, from, startMs, endMs);
    var needed := Relevant(audio, DecodeStartMs(startMs), endMs + LOOKAHEAD_MS);
    var st := DecodedAll(codec, Fresh(pts), needed);
    DecodedAllConcat(codec, Fresh(pts), needed, more);
    EnoughIs(codec, audio, pts, startMs, endMs);
    FedGrows(codec, pts, needed, more, Cutoff(endMs));
    if Enough(codec, st, Cutoff(endMs)) {
      MoreIsIgnored(codec, st, Cutoff(endMs), more);
    }
  }

  /** A build decodes all audio up to the lookahead, and perhaps more after it. */
  lemma DecodesRelevant(stream: seq<Packet>, from: nat, startMs: int, endMs: int) returns (more: seq<seq<Byte>>)
    requires from <= |stream|
    ensures forall p :: p in AudioOnly(stream, from) ==> p.AudioPacket?
    ensures DecodedIn(BuildOps(stream, from, startMs, endMs))
         == Relevant(AudioOnly(stream, from), DecodeStartMs(startMs), endMs + LOOKAHEAD_MS) + more
  {
    hide *;
    var start, limit := DecodeStartMs(startMs), endMs + LOOKAHEAD_MS;
    BuildDecodes(stream, from, startMs, endMs);
    var stop := DecodeStop(stream, from, startMs, endMs);
    var enough := FirstAudioAfter(stream, from, start, limit);
    DecodedJoins(stream, from, enough, stop, start);
    RelevantIs(stream, from, start, limit);
    more := DecodedBetween(stream, enough, stop, start);
  }

  /** Decoding more feeds more, and the same before. */
  lemma FedGrows(codec: Codec, pts: int, needed: seq<seq<Byte>>, more: seq<seq<Byte>>, cutoff: int)
    ensures Drained(codec, DecodedAll(codec, Fresh(pts), needed), cutoff).fed
         <= Drained(codec, DecodedAll(codec, DecodedAll(codec, Fresh(pts), needed), more), cutoff).fed
  {
    hide Drained, DecodedAll, FramesOf, FrameCount;
    var a, b := DecodedAll(codec, Fresh(pts), needed), DecodedAll(codec, DecodedAll(codec, Fresh(pts), needed), more);
    DecodedAllConcat(codec, Fresh(pts), needed, more);
    QueueIs(codec, pts, needed);
    QueueIs(codec, pts, needed + more);
    QueueGrows(codec, a, more);
    DrainedIs(codec, a, cutoff);
    DrainedIs(codec, b, cutoff);
    var m, n := FrameCount(|a.queue|, pts, cutoff), FrameCount(|b.queue|, pts, cutoff);
    CountGrows(|a.queue|, |b.queue|, pts, cutoff);
    FramesOfPrefix(a.queue, b.queue, pts, m, n);
    assert [] + FramesOf(a.queue, pts, m) == FramesOf(a.queue, pts, m);
    assert [] + FramesOf(b.queue, pts, n) == FramesOf(b.queue, pts, n);
  }

  lemma CountGrows(a: nat, b: nat, pts: int, cutoff: int)
    requires a <= b
    ensures FrameCount(a, pts, cutoff) <= FrameCount(b, pts, cutoff)
  {
  }

  lemma FramesOfPrefix(a: seq<Stereo>, b: seq<Stereo>, pts: int, m: nat, n: nat)
    requires a <= b && m <= n && m * FRAME <= |a| && n * FRAME <= |b|
    ensures FramesOf(a, pts, m) <= FramesOf(b, pts, n)
  {
    forall i | 0 <= i < m
      ensures FramesOf(a, pts, m)[i] == FramesOf(b, pts, n)[i]
    {
      assert (i + 1) * FRAME <= m * FRAME;
      assert a[i * FRAME..(i + 1) * FRAME] == b[i * FRAME..(i + 1) * FRAME];
    }
  }

  lemma EnoughIs(codec: Codec, audio: seq<Packet>, pts: int, startMs: int, endMs: int)
    requires forall p :: p in audio ==> p.AudioPacket?
    ensures var st := DecodedAll(codec, Fresh(pts), Relevant(audio, DecodeStartMs(startMs), endMs + LOOKAHEAD_MS));
            && EnoughAudio(codec, audio, pts, startMs, endMs) == Enough(codec, st, Cutoff(endMs))
            && FedByAudio(codec, audio, pts, startMs, endMs) == Drained(codec, st, Cutoff(endMs)).fed
  {
  }

  lemma FedByLastDrain(codec: Codec, stream: seq<Packet>, from: nat, pts: int, startMs: int, endMs: int)
    requires from <= |stream|
    ensures FedBy(codec, stream, from, pts, startMs, endMs)
         == Drained(codec, DecodedAll(codec, Fresh(pts), DecodedIn(BuildOps(stream, from, startMs, endMs))),
                    Cutoff(endMs)).fed
  {
    var ops, cutoff := BuildOps(stream, from, startMs, endMs), Cutoff(endMs);
    var n := |ops| - 1;
    assert ops[n] == Drain;
    hide BuildOps, Drained, DecodedAll;
    ScheduleIndependence(codec, Fresh(pts), cutoff, ops);
    DrainedTwice(codec, RunOps(codec, Fresh(pts), cutoff, ops[..n]), cutoff);
  }

  // ---- coverage ----

  /** Every frame of the segment's range comes out of the build's own encoding. */
  ghost predicate Covered(codec: Codec, media: Media, index: int, startMs: int, endMs: int) {
    forall i :: OutputStart(codec, index, startMs) <= i < OutputEnd(codec, index, startMs, endMs) ==>
      i in MapOf(BuildPackets(codec, media, index, startMs, endMs))
  }

  /** The samples that a build decodes. */
  function Held(codec: Codec, media: Media, startMs: int, endMs: int): nat {
    Samples(codec, DecodedIn(BuildOps(media.stream, SeekIndex(media, DecodeStartMs(startMs)), startMs, endMs)))
  }

  /** The same samples: those of the audio packets of the stream from where the build seeks to where it stops. */
  function PcmRead(codec: Codec, media: Media, startMs: int, endMs: int): seq<Stereo> {
    var from := SeekIndex(media, DecodeStartMs(startMs));
    PcmOf(codec, DecodedBetween(media.stream, from, DecodeStop(media.stream, from, startMs, endMs), DecodeStartMs(startMs)))
  }

  /** The frames that a build feeds when it decodes `held` samples. */
  function FedCount(codec: Codec, index: int, startMs: int, endMs: int, held: nat): nat {
    FrameCount(held, ResetPts(codec, index, startMs), Cutoff(endMs))
  }

  /** How many frames may stay inside the encoder before the range is no longer covered. */
  function Margin(codec: Codec, index: int, startMs: int, endMs: int, held: nat): int {
    ResetPts(codec, index, startMs) / 1024 + FedCount(codec, index, startMs, endMs, held)
    - OutputEnd(codec, index, startMs, endMs)
  }

  /** The frames of a build, by index: all from the first one fed, moved by the encoder's shift, as many as the decoded
      samples fill up to the cutoff, less the encoder's delay. */
  lemma BuiltFrames(codec: Codec, media: Media, delay: nat, shift: nat, index: int, startMs: int, endMs: int, i: int)
    requires Regular(codec, delay, shift)
    ensures var first := ResetPts(codec, index, startMs) / 1024 - shift;
            var n := FedCount(codec, index, startMs, endMs, Held(codec, media, startMs, endMs));
            (i in MapOf(BuildPackets(codec, media, index, startMs, endMs)) <==> first <= i < first + n - delay)
  {
    hide *;
    var pts := ResetPts(codec, index, startMs);
    FramesFed(codec, media, index, startMs, endMs);
    PacketsBuilt(codec, media, index, startMs, endMs);
    RegularKeys(codec, delay, shift, PcmRead(codec, media, startMs, endMs), pts,
                FedCount(codec, index, startMs, endMs, Held(codec, media, startMs, endMs)), i);
    FrameIndexIs(pts);
  }

  /** A build feeds the encoder consecutive frames of what the packets it reads decode to, as many as that fills up to
      the cutoff. */
  lemma FramesFed(codec: Codec, media: Media, index: int, startMs: int, endMs: int)
    ensures var n, pcm := FedCount(codec, index, startMs, endMs, Held(codec, media, startMs, endMs)),
                          PcmRead(codec, media, startMs, endMs);
            && n * FRAME <= |pcm| == Held(codec, media, startMs, endMs)
            && BuildFed(codec, media, index, startMs, endMs) == FramesOf(pcm, ResetPts(codec, index, startMs), n)
  {
    var pts, from, cutoff := ResetPts(codec, index, startMs), SeekIndex(media, DecodeStartMs(startMs)), Cutoff(endMs);
    var packets := DecodedIn(BuildOps(media.stream, from, startMs, endMs));
    FedByLastDrain(codec, media.stream, from, pts, startMs, endMs);
    BuildDecodes(media.stream, from, startMs, endMs);
    hide BuildOps, SeekIndex, ResetPts, DecodedIn, DecodedAll, Drained, EmittedSince, FramesOf, RunOps, FrameCount, PcmOf,
         DecodeStop, DecodedBetween;
    var st := DecodedAll(codec, Fresh(pts), packets);
    QueueIs(codec, pts, packets);
    DrainedIs(codec, st, cutoff);
    assert [] + FramesOf(st.queue, pts, FrameCount(|st.queue|, pts, cutoff))
        == FramesOf(st.queue, pts, FrameCount(|st.queue|, pts, cutoff));
  }

  lemma PacketsBuilt(codec: Codec, media: Media, index: int, startMs: int, endMs: int)
    ensures BuildPackets(codec, media, index, startMs, endMs)
         == EmittedSince(codec, BuildFed(codec, media, index, startMs, endMs), 0)
  {
    hide BuildFed, EmittedSince;
  }

  lemma Windows(codec: Codec, index: int, startMs: int, endMs: int)
    requires index >= 0 && 0 <= startMs <= endMs
    ensures var pts := ResetPts(codec, index, startMs);
            && pts <= Cutoff(endMs)
            && pts / 1024 <= OutputStart(codec, index, startMs) < OutputEnd(codec, index, startMs, endMs)
            && (index > 0 ==> pts == 48 * DecodeStartMs(startMs) / 1024 * 1024)
  {
    FrameIndexIs(MsToAudioPts(DecodeStartMs(startMs)));
    FrameIndexIs(MsToAudioPts(startMs));
    FrameIndexIs(0 - codec.initialPadding);
    hide FrameIndex;
  }

  /** The range is covered if and only if the encoder's delay and shift fit the margin that the decoded samples leave. */
  lemma CoveredIff(codec: Codec, media: Media, delay: nat, shift: nat, index: int, startMs: int, endMs: int)
    requires Regular(codec, delay, shift) && index >= 0 && 0 <= startMs <= endMs
    ensures Covered(codec, media, index, startMs, endMs)
       <==> delay + shift <= Margin(codec, index, startMs, endMs, Held(codec, media, startMs, endMs))
  {
    var lo, hi := OutputStart(codec, index, startMs), OutputEnd(codec, index, startMs, endMs);
    var held := Held(codec, media, startMs, endMs);
    hide ResetPts, OutputStart, OutputEnd, MapOf, BuildPackets, Cutoff, Regular, Held, FedCount;
    Windows(codec, index, startMs, endMs);
    forall i
      ensures var first := ResetPts(codec, index, startMs) / 1024 - shift;
              (i in MapOf(BuildPackets(codec, media, index, startMs, endMs))
               <==> first <= i < first + FedCount(codec, index, startMs, endMs, held) - delay)
    {
      BuiltFrames(codec, media, delay, shift, index, startMs, endMs, i);
    }
    if delay + shift > Margin(codec, index, startMs, endMs, held) {
      assert hi - 1 !in MapOf(BuildPackets(codec, media, index, startMs, endMs));
    }
  }

  // ---- what the packets supply ----

  /** The time of the first audio packet past the limit. */
  function FirstPast(audio: seq<Packet>, decodeStart: int, limit: int): (t: Option<int>)
    requires forall p :: p in audio ==> p.AudioPacket?
    ensures t.Some? ==> t.value > limit
  {
    if audio == [] then None
    else if AudioTime(audio[0], decodeStart) > limit then Some(AudioTime(audio[0], decodeStart))
    else FirstPast(audio[1..], decodeStart, limit)
  }

  /** When the audio that is decoded starts: at its first packet, or, if there is none, at the one past the limit. */
  function SupplyStart(audio: seq<Packet>, decodeStart: int, limit: int): int
    requires (forall p :: p in audio ==> p.AudioPacket?) && FirstPast(audio, decodeStart, limit).Some?
  {
    var packets := RelevantPackets(audio, decodeStart, limit);
    if packets == [] then FirstPast(audio, decodeStart, limit).value else AudioTime(packets[0], decodeStart)
  }

  /** Audio goes on past the limit and starts at most `late` ms after the decode start; what lies between is there but
      for `slack` samples, which the rounding of times, the decoder or gaps may cost. */
  predicate Supplied(codec: Codec, audio: seq<Packet>, decodeStart: int, limit: int, late: nat, slack: nat)
    requires forall p :: p in audio ==> p.AudioPacket?
  {
    && FirstPast(audio, decodeStart, limit).Some?
    && SupplyStart(audio, decodeStart, limit) <= decodeStart + late
    && Samples(codec, Relevant(audio, decodeStart, limit)) + slack
       >= 48 * (FirstPast(audio, decodeStart, limit).value - SupplyStart(audio, decodeStart, limit))
  }

  /** Gapless packets supply that. Packet `k` stands at sample `pos[k]` of the stream and decodes to at least the samples
      up to the next one; its time in milliseconds is that position, within `rounding` samples. */
  lemma GaplessSupplies(codec: Codec, audio: seq<Packet>, decodeStart: int, limit: int, late: nat, pos: seq<int>,
                        rounding: nat)
    requires (forall p :: p in audio ==> p.AudioPacket?) && FirstPast(audio, decodeStart, limit).Some?
    requires SupplyStart(audio, decodeStart, limit) <= decodeStart + late
    requires var packets := RelevantPackets(audio, decodeStart, limit);
             && |pos| == |packets| + 1
             && (forall k :: 0 <= k < |packets| ==> |codec.decode(DataOf(packets)[..k + 1])| >= pos[k + 1] - pos[k])
             && pos[0] <= 48 * SupplyStart(audio, decodeStart, limit) + rounding
             && 48 * FirstPast(audio, decodeStart, limit).value - rounding <= pos[|packets|]
    ensures Supplied(codec, audio, decodeStart, limit, late, 2 * rounding)
  {
    var data := Relevant(audio, decodeStart, limit);
    hide RelevantPackets, FirstPast, SupplyStart;
    SamplesUpTo(codec, data, pos, |data|);
    assert data[..|data|] == data;
  }

  lemma {:induction false} SamplesUpTo(codec: Codec, data: seq<seq<Byte>>, pos: seq<int>, n: nat)
    requires n <= |data| && |pos| == |data| + 1
    requires forall k :: 0 <= k < |data| ==> |codec.decode(data[..k + 1])| >= pos[k + 1] - pos[k]
    ensures Samples(codec, data[..n]) >= pos[n] - pos[0]
  {
    if n > 0 {
      SamplesUpTo(codec, data, pos, n - 1);
      assert data[..n][..n - 1] == data[..n - 1];
    }
  }

  /** The audio that a build of the segment reads is supplied like that. */
  predicate SegmentSupplied(codec: Codec, media: Media, startMs: int, endMs: int, late: nat, slack: nat) {
    var audio := AudioOnly(media.stream, SeekIndex(media, DecodeStartMs(startMs)));
    && (forall p :: p in audio ==> p.AudioPacket?)
    && Supplied(codec, audio, DecodeStartMs(startMs), endMs + LOOKAHEAD_MS, late, slack)
  }

  lemma {:induction false} SamplesGrow(codec: Codec, a: seq<seq<Byte>>, b: seq<seq<Byte>>)
    ensures Samples(codec, a) <= Samples(codec, a + b)
  {
    if b == [] {
      assert a + b == a;
    } else {
      var n := |b| - 1;
      SamplesGrow(codec, a, b[..n]);
      assert (a + b)[..|a| + n] == a + b[..n];
    }
  }

  lemma HeldIsSupplied(codec: Codec, media: Media, startMs: int, endMs: int, late: nat, slack: nat)
    requires SegmentSupplied(codec, media, startMs, endMs, late, slack)
    ensures Held(codec, media, startMs, endMs) + 48 * late + slack >= 48 * (endMs + 251 - DecodeStartMs(startMs))
  {
    var from := SeekIndex(media, DecodeStartMs(startMs));
    hide AudioOnly, SeekIndex, BuildOps, DecodedIn, Samples, Relevant, DecodeStartMs, FirstPast, SupplyStart;
    var more := DecodesRelevant(media.stream, from, startMs, endMs);
    SamplesGrow(codec, Relevant(AudioOnly(media.stream, from), DecodeStartMs(startMs), endMs + LOOKAHEAD_MS), more);
  }

  // ---- margins ----

  function Min(a: int, b: int): int {
    if a < b then a else b
  }

  /** What is left of preroll and lookahead in a first segment whose audio falls `lost` samples short of the lookahead,
      counted from time 0: the frames its samples fill, but none past the cutoff, less those of the priming. */
  function FirstMargin(padding: nat, lost: nat): int {
    Min((12048 - lost) / 1024, (12000 + padding) / 1024) - (padding + 1023) / 1024
  }

  /** The same for a later segment, counted from its decode start, which the first frame fed may precede. */
  function LaterMargin(decodeStart: int, lost: nat): int {
    Min((12048 - 48 * decodeStart % 1024 - lost) / 1024, 11)
  }

  lemma FloorSum(a: int, b: int, c: int)
    requires a + b <= c
    ensures a / 1024 + b / 1024 <= c / 1024
  {
  }

  lemma FirstMarginIs(codec: Codec, startMs: int, endMs: int, held: nat)
    requires 0 <= startMs && startMs + 22 <= endMs
    ensures Margin(codec, 0, startMs, endMs, held)
         == Min(held / 1024, (48 * endMs + 12000 + codec.initialPadding) / 1024) - (codec.initialPadding + 1023) / 1024
            - 48 * endMs / 1024
  {
    ClampNeverFires(codec, 0, startMs, endMs);
    hide OutputEnd, OutputStart;
  }

  lemma FirstMarginHolds(codec: Codec, startMs: int, endMs: int, held: nat, lost: nat)
    requires 0 <= startMs && startMs + 22 <= endMs && held + lost >= 48 * (endMs + 251)
    ensures Margin(codec, 0, startMs, endMs, held) >= FirstMargin(codec.initialPadding, lost)
  {
    FirstMarginIs(codec, startMs, endMs, held);
    hide Margin;
    FloorSum(48 * endMs, 12048 - lost, held);
    FloorSum(48 * endMs, 12000 + codec.initialPadding, 48 * endMs + 12000 + codec.initialPadding);
  }

  lemma LaterMarginIs(codec: Codec, index: int, startMs: int, endMs: int, held: nat)
    requires index > 0 && 0 <= startMs && startMs + 22 <= endMs
    ensures Margin(codec, index, startMs, endMs, held)
         == Min(48 * DecodeStartMs(startMs) / 1024 + held / 1024, (48 * endMs + 12000) / 1024) - 48 * endMs / 1024
  {
    var skipped := 48 * DecodeStartMs(startMs) / 1024;
    ClampNeverFires(codec, index, startMs, endMs);
    Windows(codec, index, startMs, endMs);
    assert Cutoff(endMs) == 48 * endMs + 12000;
    hide OutputEnd, OutputStart, ResetPts, DecodeStartMs, Cutoff;
    WholeFrames(skipped, 48 * endMs + 12000);
  }

  lemma WholeFrames(frames: int, v: int)
    ensures (v - frames * 1024) / 1024 == v / 1024 - frames
  {
  }

  lemma LaterMarginHolds(codec: Codec, index: int, startMs: int, endMs: int, held: nat, lost: nat)
    requires index > 0 && 0 <= startMs && startMs + 22 <= endMs
    requires held + lost >= 48 * (endMs + 251 - DecodeStartMs(startMs))
    ensures Margin(codec, index, startMs, endMs, held) >= LaterMargin(DecodeStartMs(startMs), lost)
  {
    LaterMarginIs(codec, index, startMs, endMs, held);
    hide Margin, DecodeStartMs;
    var decodeStart := DecodeStartMs(startMs);
    var skipped := 48 * decodeStart / 1024;
    FloorSum(48 * endMs, 12048 - 48 * decodeStart % 1024 - lost, held + skipped * 1024);
    WholeFrames(0 - skipped, held);
    FloorSum(48 * endMs, 12000, 48 * endMs + 12000);
  }

  /** As many frames are safe in every first segment as the margin says, and no more. */
  lemma FirstMarginExact(codec: Codec, lost: nat, frames: int)
    requires lost <= 15120
    ensures (forall endMs, held {:trigger Margin(codec, 0, 0, endMs, held)} ::
               endMs >= 22 && held + lost >= 48 * (endMs + 251) && held >= 0 ==>
                 Margin(codec, 0, 0, endMs, held) >= frames)
       <==> frames <= FirstMargin(codec.initialPadding, lost)
  {
    forall endMs, held: nat | endMs >= 22 && held + lost >= 48 * (endMs + 251)
      ensures Margin(codec, 0, 0, endMs, held) >= FirstMargin(codec.initialPadding, lost)
    {
      FirstMarginHolds(codec, 0, endMs, held, lost);
    }
    FirstMarginIs(codec, 0, 64, 15120 - lost);
    hide Margin;
    assert Margin(codec, 0, 0, 64, 15120 - lost) == FirstMargin(codec.initialPadding, lost);
  }

  /** As many frames are safe in every later segment as fit the least of their margins, and no more. */
  lemma LaterMarginExact(codec: Codec, lost: nat, frames: int)
    requires lost <= 109344
    ensures (forall startMs, endMs, held {:trigger Margin(codec, 1, startMs, endMs, held)} ::
               startMs >= 0 && startMs + 22 <= endMs && held >= 0
               && held + lost >= 48 * (endMs + 251 - DecodeStartMs(startMs)) ==>
                 Margin(codec, 1, startMs, endMs, held) >= frames)
       <==> frames <= (11040 - lost) / 1024
  {
    forall startMs, endMs, held: nat
      | startMs >= 0 && startMs + 22 <= endMs && held + lost >= 48 * (endMs + 251 - DecodeStartMs(startMs))
      ensures Margin(codec, 1, startMs, endMs, held) >= (11040 - lost) / 1024
    {
      LaterMarginHolds(codec, 1, startMs, endMs, held, lost);
      LeastLaterMargin(DecodeStartMs(startMs), lost);
    }
    LaterMarginIs(codec, 1, 2021, 2048, 109344 - lost);
    hide Margin;
    assert Margin(codec, 1, 2021, 2048, 109344 - lost) == (11040 - lost) / 1024;
  }

  /** Times in milliseconds are whole sixteens of samples, so that a frame starts at most 1008 samples earlier. */
  lemma LeastLaterMargin(decodeStart: int, lost: nat)
    ensures LaterMargin(decodeStart, lost) >= (11040 - lost) / 1024
  {
    assert 48 * decodeStart % 1024 <= 1008 by {
      var k := 48 * decodeStart / 1024;
      assert 48 * decodeStart - k * 1024 == 16 * (3 * decodeStart - 64 * k);
    }
  }

  /** How many frames inside the encoder a segment is safe for. */
  function SafeFrames(codec: Codec, index: int, startMs: int, lost: nat): int {
    if index == 0 then FirstMargin(codec.initialPadding, 48 * DecodeStartMs(startMs) + lost)
    else LaterMargin(DecodeStartMs(startMs), lost)
  }

  /** Preroll and lookahead suffice: if the audio that is read is supplied, a segment whose encoder holds back no more
      frames than the margin does not fall back on the session's cache, nor has a gap. */
  lemma PrerollSuffices(codec: Codec, media: Media, delay: nat, shift: nat, index: int, startMs: int, endMs: int,
                        late: nat, slack: nat)
    requires Regular(codec, delay, shift) && SegmentSupplied(codec, media, startMs, endMs, late, slack)
    requires index >= 0 && 0 <= startMs && startMs + 22 <= endMs
    requires delay + shift <= SafeFrames(codec, index, startMs, 48 * late + slack)
    ensures Covered(codec, media, index, startMs, endMs)
  {
    hide Regular, SegmentSupplied, Covered, Margin, FirstMargin, LaterMargin, Held;
    CoveredIff(codec, media, delay, shift, index, startMs, endMs);
    HeldIsSupplied(codec, media, startMs, endMs, late, slack);
    var held, lost := Held(codec, media, startMs, endMs), 48 * late + slack;
    if index == 0 {
      FirstMarginHolds(codec, startMs, endMs, held, 48 * DecodeStartMs(startMs) + lost);
    } else {
      LaterMarginHolds(codec, index, startMs, endMs, held, lost);
    }
  }

  /** With a priming of at most one frame and a start within the preroll, every segment is safe for this many frames:
      ten when nothing is lost but up to 784 samples. */
  lemma SafeForAll(codec: Codec, index: int, startMs: int, lost: nat)
    requires codec.initialPadding <= 1024 && (index == 0 ==> startMs <= 2000) && lost <= 11024
    ensures SafeFrames(codec, index, startMs, lost) >= (11024 - lost) / 1024
  {
    LeastLaterMargin(DecodeStartMs(startMs), lost);
  }

  // ---- what a covered segment holds ----

  lemma {:induction false} CoveredSamples(built: FrameCache, cache: FrameCache, lo: int, hi: int)
    requires lo <= hi && forall i :: lo <= i < hi ==> i in built
    ensures var s := AudioSamples(built, cache, lo, hi);
            && |s| == hi - lo
            && forall k :: 0 <= k < |s| ==> s[k] == AudioSample(lo + k, built[lo + k])
    decreases hi - lo
  {
    if lo < hi {
      CoveredSamples(built, cache, lo, hi - 1);
    }
  }

  /** Covered segments join in time: a segment's audio starts at its first frame, and its decode time plus 1024 for
      each frame is the decode time of the next segment's audio. */
  lemma AudioTimesJoin(source: Source, codec: Codec, index: nat, bounds: seq<int>, cache: FrameCache, cache': FrameCache)
    requires source.codec == Some(codec) && LongEnough(bounds) && index + 2 < |bounds|
    requires Covered(codec, source.media, index, bounds[index], bounds[index + 1])
    requires Covered(codec, source.media, index + 1, bounds[index + 1], bounds[index + 2])
    requires codec.initialPadding < 0x8000_0000 && 48 * bounds[index + 2] < 0x8000_0000_0000_0000
    ensures var a, b := BuildAudio(source, index, bounds[index], bounds[index + 1], cache),
                        BuildAudio(source, index + 1, bounds[index + 1], bounds[index + 2], cache');
            && a != [] && b != []
            && a[0].dts == OutputStart(codec, index, bounds[index]) * 1024
            && a[0].dts + 1024 * |a| == b[0].dts
  {
    hide Covered, BuildAudio, OutputStart, OutputEnd;
    BoundsGrow(bounds, index);
    assert bounds[index] + 22 <= bounds[index + 1];
    assert bounds[index + 1] + 22 <= bounds[index + 2];
    AudioRangesJoin(codec, index, bounds);
    OutputStartIs(codec, index, bounds[index]);
    OutputStartIs(codec, index + 1, bounds[index + 1]);
    ClampNeverFires(codec, index, bounds[index], bounds[index + 1]);
    ClampNeverFires(codec, index + 1, bounds[index + 1], bounds[index + 2]);
    CoveredStart(source, codec, index, bounds[index], bounds[index + 1], cache);
    CoveredStart(source, codec, index + 1, bounds[index + 1], bounds[index + 2], cache');
  }

  lemma CoveredStart(source: Source, codec: Codec, index: nat, startMs: int, endMs: int, cache: FrameCache)
    requires source.codec == Some(codec) && Covered(codec, source.media, index, startMs, endMs)
    requires OutputStart(codec, index, startMs) < OutputEnd(codec, index, startMs, endMs)
    requires -0x20_0000_0000_0000 <= OutputStart(codec, index, startMs) < 0x20_0000_0000_0000
    ensures var a, lo := BuildAudio(source, index, startMs, endMs, cache), OutputStart(codec, index, startMs);
            |a| == OutputEnd(codec, index, startMs, endMs) - lo && a[0].dts == lo * 1024
  {
    hide MapOf, BuildPackets, CacheWith, OutputStart, OutputEnd;
    var packets := BuildPackets(codec, source.media, index, startMs, endMs);
    CoveredSamples(MapOf(packets), CacheWith(cache, packets), OutputStart(codec, index, startMs),
                   OutputEnd(codec, index, startMs, endMs));
  }
}
