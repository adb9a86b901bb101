/** The decode times a reader derives from a segment are those of its samples (fix_video_durations in
    src/Session.cpp, subsegment_duration in src/Fmp4Writer.cpp). */
module Timeline {
  import opened Bytes
  import opened SegmentLayout
  import opened SegmentReader
  import opened SegmentRoundTrip
  import opened SessionSpec

  /** Times increase, by less than a 32-bit duration. */
  predicate SteadyTimes(samples: seq<Sample>) {
    forall i {:trigger samples[i]} :: 0 < i < |samples| ==> 0 < samples[i].dts - samples[i - 1].dts < 0x1_0000_0000
  }

  /** The decode time a reader gives sample `i` of a fragment: its base time and all earlier durations. */
  function DecodeTime(t: TrackFragment, i: nat): int
    requires i <= |t.samples|
  {
    if i == 0 then t.tfdt else DecodeTime(t, i - 1) + t.samples[i - 1].duration
  }

  lemma FixedGap(samples: seq<Sample>, i: nat)
    requires SteadyTimes(samples) && i + 1 < |samples|
    ensures FixedDurations(samples)[i].duration == samples[i + 1].dts - samples[i].dts
  {
    var gap: int := samples[i + 1].dts - samples[i].dts;
    assert 0 < samples[i + 1].dts - samples[i + 1 - 1].dts;
    assert ToU32(gap) == gap;
  }

  /** What becomes of the durations: a sample lasts until the next one, but keeps its own duration where that is not later;
      of two or more, the last lasts as long as the one before it; a single one keeps its own duration, or else gets a
      thirtieth of a second. Nothing else is changed. */
  lemma DurationsFixed(samples: seq<Sample>, i: nat)
    requires i < |samples|
    ensures var fixed, n := FixedDurations(samples), |samples| - 1;
            && fixed[i] == samples[i].(duration := fixed[i].duration)
            && (i < n && samples[i + 1].dts > samples[i].dts ==>
                  fixed[i].duration == (samples[i + 1].dts - samples[i].dts) % 0x1_0000_0000)
            && (i < n && samples[i + 1].dts <= samples[i].dts ==> fixed[i].duration == samples[i].duration)
            && (n >= 1 ==> fixed[n].duration == fixed[n - 1].duration)
            && (n == 0 ==> fixed[0].duration == if samples[0].duration == 0 then 533 else samples[0].duration)
  {
  }

  /** A reader of a written track finds every sample's own decode time. */
  lemma {:induction false} DecodedTimes(trackId: U32, timescale: U32, samples: seq<Sample>, i: nat)
    requires SteadyTimes(samples) && i < |samples|
    ensures DecodeTime(SeenTrack(TrackInput(trackId, timescale, FixedDurations(samples), samples[0].dts)), i)
         == samples[i].dts
  {
    if i > 0 {
      DecodedTimes(trackId, timescale, samples, i - 1);
      FixedGap(samples, i - 1);
    }
  }

  lemma {:induction false} DurationUpTo(samples: seq<Sample>, n: nat)
    requires SteadyTimes(samples) && n < |samples|
    ensures TotalDuration(FixedDurations(samples)[..n]) == samples[n].dts - samples[0].dts
  {
    var fixed := FixedDurations(samples);
    if n > 0 {
      DurationUpTo(samples, n - 1);
      FixedGap(samples, n - 1);
      assert fixed[..n][..n - 1] == fixed[..n - 1];
    }
  }

  /** The durations reach from the first sample to the end of the last. */
  lemma TotalIs(samples: seq<Sample>)
    requires SteadyTimes(samples) && samples != []
    ensures var fixed, n := FixedDurations(samples), |samples| - 1;
            TotalDuration(fixed) == samples[n].dts + fixed[n].duration - samples[0].dts
  {
    var fixed, n := FixedDurations(samples), |samples| - 1;
    DurationUpTo(samples, n);
    assert fixed[..n] == fixed[..|fixed| - 1];
  }

  /** So the durations reach past the last sample by the last gap. */
  lemma TotalReaches(samples: seq<Sample>)
    requires SteadyTimes(samples) && |samples| >= 2
    ensures var n := |samples| - 1;
            TotalDuration(FixedDurations(samples)) == 2 * samples[n].dts - samples[n - 1].dts - samples[0].dts
  {
    var n := |samples| - 1;
    TotalIs(samples);
    FixedGap(samples, n - 1);
    DurationsFixed(samples, n);
    hide FixedDurations, TotalDuration;
  }

  /** A single sample's duration is all there is. */
  lemma TotalOfOne(sample: Sample)
    ensures TotalDuration(FixedDurations([sample])) == if sample.duration == 0 then 533 else sample.duration
  {
    DurationsFixed([sample], 0);
    assert FixedDurations([sample])[..0] == [];
    assert TotalDuration(FixedDurations([sample])) == TotalDuration([]) + FixedDurations([sample])[0].duration;
  }

  /** The index of a track announces that span, as long as it fits its field. */
  lemma AnnouncedDuration(track: TrackInput, end: nat, size: nat, samples: seq<Sample>)
    requires SteadyTimes(samples) && samples != [] && track.samples == FixedDurations(samples)
    requires var n := |samples| - 1; samples[n].dts + track.samples[n].duration - samples[0].dts < 0x1_0000_0000
    ensures var n := |samples| - 1;
            SeenReference(track, end, size).duration == samples[n].dts + track.samples[n].duration - samples[0].dts
  {
    TotalIs(samples);
    hide TotalDuration, FixedDurations;
  }

  /** The last sample lasts as long as the one before it, so that with a constant frame interval a segment's span
      ends where the next contiguous one begins. */
  lemma SpanReachesNext(samples: seq<Sample>, interval: nat, next: int)
    requires |samples| >= 2 && 0 < interval < 0x1_0000_0000
    requires forall i {:trigger samples[i]} :: 0 < i < |samples| ==> samples[i].dts - samples[i - 1].dts == interval
    requires next == samples[|samples| - 1].dts + interval
    ensures samples[0].dts + TotalDuration(FixedDurations(samples)) == next
  {
    TotalReaches(samples);
  }
}
