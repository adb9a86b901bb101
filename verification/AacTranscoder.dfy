/** The audio queue between decoder and AAC encoder (src/AacTranscoder.cpp). The codecs are abstract machines: what
    they give depends on what they were given since the last Reset, and on nothing else. */
module Aac {
  import opened Bytes
  import opened Wrappers

  /** One stereo sample at 48 kHz. */
  datatype Stereo = Stereo(left: real, right: real)

  const FRAME: nat := 1024

  /** A frame as the encoder is fed it. */
  datatype Frame = Frame(pts: int, samples: seq<Stereo>)

  /** A packet as the encoder gives it: some encoders leave out the time. */
  datatype RawPacket = RawPacket(pts: Option<int>, data: seq<Byte>)

  datatype AacPacket = AacPacket(pts: int, data: seq<Byte>)

  /** `decode` gives the samples that the last of the packets so far yields, resampled to 48 kHz; `encode` gives the
      packets that the last of the frames so far makes available. That a Reset brings both back to where they
      started is an assumption: the encoder is only flushed. */
  datatype Codec = Codec(initialPadding: nat,
                         decode: seq<seq<Byte>> -> seq<Stereo>,
                         encode: seq<Frame> -> seq<RawPacket>)

  /** Queue, next frame's time, packets decoded and frames encoded since the last Reset. */
  datatype AudioState = AudioState(queue: seq<Stereo>, pts: int, decoded: seq<seq<Byte>>, fed: seq<Frame>)

  function Fresh(pts: int): AudioState {
    AudioState([], pts, [], [])
  }

  function Decoded(codec: Codec, st: AudioState, data: seq<Byte>): AudioState {
    st.(queue := st.queue + codec.decode(st.decoded + [data]), decoded := st.decoded + [data])
  }

  predicate CanEncode(st: AudioState, cutoff: int) {
    |st.queue| >= FRAME && st.pts + FRAME <= cutoff
  }

  function Encoded(st: AudioState): AudioState
    requires |st.queue| >= FRAME
  {
    st.(queue := st.queue[FRAME..], pts := st.pts + FRAME, fed := st.fed + [Frame(st.pts, st.queue[..FRAME])])
  }

  /** The packets that the last frame of `fed` makes available; one without a time takes the frame's. */
  function Emitted(codec: Codec, fed: seq<Frame>): seq<AacPacket>
    requires fed != []
  {
    var raw := codec.encode(fed);
    seq(|raw|, i requires 0 <= i < |raw| =>
      AacPacket(if raw[i].pts.Some? then raw[i].pts.value else fed[|fed| - 1].pts, raw[i].data))
  }

  /** What encoding until the cutoff leaves. */
  function Drained(codec: Codec, st: AudioState, cutoff: int): AudioState
    decreases |st.queue|
  {
    if CanEncode(st, cutoff) then Drained(codec, Encoded(st), cutoff) else st
  }

  /** The packets of all frames fed after the first `n`. */
  function EmittedSince(codec: Codec, fed: seq<Frame>, n: nat): seq<AacPacket>
    requires n <= |fed|
    decreases |fed| - n
  {
    if n == |fed| then [] else Emitted(codec, fed[..n + 1]) + EmittedSince(codec, fed, n + 1)
  }

  class AacTranscoder {
    const codec: Codec
    var leftQueue: seq<real>
    var rightQueue: seq<real>
    var audioPts: int
    /** The states of the decoder and of the encoder. */
    var decoderState: seq<seq<Byte>>
    var encoderState: seq<Frame>

    constructor (codec: Codec)
      ensures Valid() && this.codec == codec && State() == Fresh(0)
    {
      this.codec := codec;
      leftQueue, rightQueue, audioPts, decoderState, encoderState := [], [], 0, [], [];
    }

    ghost predicate Valid()
      reads this
    {
      |leftQueue| == |rightQueue|
    }

    ghost function Queue(): (q: seq<Stereo>)
      reads this
      requires Valid()
      ensures |q| == |leftQueue|
    {
      Zipped(leftQueue, rightQueue)
    }

    ghost function State(): AudioState
      reads this
      requires Valid()
    {
      AudioState(Queue(), audioPts, decoderState, encoderState)
    }

    method Reset(nextPts: int)
      modifies this
      ensures Valid() && State() == Fresh(nextPts)
    {
      leftQueue, rightQueue := [], [];
      audioPts := nextPts;
      decoderState, encoderState := [], [];
    }

    method Decode(data: seq<Byte>)
      requires Valid()
      modifies this
      ensures Valid() && State() == Decoded(codec, old(State()), data)
      ensures encoderState == old(encoderState)
    {
      decoderState := decoderState + [data];
      var samples := codec.decode(decoderState);
      if |samples| > 0 {
        leftQueue := leftQueue + Lefts(samples);
        rightQueue := rightQueue + Rights(samples);
      }
      assert Queue() == old(Queue()) + samples;
    }

    method EncodeUntil(cutoff: int) returns (out: seq<AacPacket>, framesEncoded: nat)
      requires Valid()
      modifies this
      ensures Valid() && State() == Drained(codec, old(State()), cutoff)
      ensures |encoderState| == |old(encoderState)| + framesEncoded && old(encoderState) <= encoderState
      ensures out == EmittedSince(codec, encoderState, |old(encoderState)|)
    {
      framesEncoded := 0;
      out := [];
      ghost var start := |encoderState|;
      while |leftQueue| >= FRAME && |rightQueue| >= FRAME
        invariant Valid()
        invariant Drained(codec, State(), cutoff) == Drained(codec, old(State()), cutoff)
        invariant |encoderState| == start + framesEncoded && old(encoderState) <= encoderState
        invariant out == EmittedSince(codec, encoderState, start)
      {
        if audioPts + FRAME > cutoff {
          break;
        }
        ghost var before := State();
        ZippedSplit(leftQueue, rightQueue, FRAME);
        var frame := Frame(audioPts, Zipped(leftQueue[..FRAME], rightQueue[..FRAME]));
        leftQueue := leftQueue[FRAME..];
        rightQueue := rightQueue[FRAME..];
        encoderState := encoderState + [frame];
        var raw := codec.encode(encoderState);
        ghost var emitted := out;
        for i := 0 to |raw|
          invariant out == emitted + Emitted(codec, encoderState)[..i]
        {
          var pts := if raw[i].pts.Some? then raw[i].pts.value else audioPts;
          out := out + [AacPacket(pts, raw[i].data)];
        }
        EmittedNext(codec, before.fed, encoderState, start);
        audioPts := audioPts + FRAME;
        framesEncoded := framesEncoded + 1;
        assert State() == Encoded(before);
      }
    }
  }

  function Zipped(left: seq<real>, right: seq<real>): (s: seq<Stereo>)
    requires |left| == |right|
    ensures |s| == |left|
  {
    seq(|left|, i requires 0 <= i < |left| => Stereo(left[i], right[i]))
  }

  lemma ZippedSplit(left: seq<real>, right: seq<real>, n: nat)
    requires |left| == |right| && n <= |left|
    ensures Zipped(left[..n], right[..n]) == Zipped(left, right)[..n]
    ensures Zipped(left[n..], right[n..]) == Zipped(left, right)[n..]
  {
  }

  function Lefts(samples: seq<Stereo>): (s: seq<real>)
    ensures |s| == |samples|
  {
    seq(|samples|, i requires 0 <= i < |samples| => samples[i].left)
  }

  function Rights(samples: seq<Stereo>): (s: seq<real>)
    ensures |s| == |samples|
  {
    seq(|samples|, i requires 0 <= i < |samples| => samples[i].right)
  }

  lemma {:induction false} EmittedNext(codec: Codec, before: seq<Frame>, fed: seq<Frame>, n: nat)
    requires n <= |before| && |fed| == |before| + 1 && before <= fed
    ensures EmittedSince(codec, fed, n) == EmittedSince(codec, before, n) + Emitted(codec, fed)
    decreases |before| - n
  {
    hide Emitted;
    if n == |before| {
      assert fed[..n + 1] == fed;
      assert Emitted(codec, fed) + [] == Emitted(codec, fed);
    } else {
      EmittedNext(codec, before, fed, n + 1);
      assert fed[..n + 1] == before[..n + 1];
    }
  }
}
