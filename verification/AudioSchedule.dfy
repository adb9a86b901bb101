/** What the encoder is fed does not depend on when the queue is drained, nor on how much is decoded beyond the
    cutoff; and which frames come out of it. */
module AudioSchedule {
  import opened Bytes
  import opened Wrappers
  import opened Aac

  // ---- drain schedules ----

  /** One step of a build: a packet is decoded, or the queue is drained up to the build's cutoff. */
  datatype AudioOp = Decode(data: seq<Byte>) | Drain

  function RunOp(codec: Codec, st: AudioState, cutoff: int, op: AudioOp): AudioState {
    match op
    case Decode(data) => Decoded(codec, st, data)
    case Drain => Drained(codec, st, cutoff)
  }

  function RunOps(codec: Codec, st: AudioState, cutoff: int, ops: seq<AudioOp>): AudioState {
    if ops == [] then st
    else RunOp(codec, RunOps(codec, st, cutoff, ops[..|ops| - 1]), cutoff, ops[|ops| - 1])
  }

  /** The packets decoded, in order. */
  function DecodedIn(ops: seq<AudioOp>): seq<seq<Byte>> {
    if ops == [] then []
    else DecodedIn(ops[..|ops| - 1]) + (match ops[|ops| - 1] case Decode(data) => [data] case Drain => [])
  }

  function DecodedAll(codec: Codec, st: AudioState, packets: seq<seq<Byte>>): AudioState {
    if packets == [] then st
    else Decoded(codec, DecodedAll(codec, st, packets[..|packets| - 1]), packets[|packets| - 1])
  }

  lemma {:induction false} DrainedTwice(codec: Codec, st: AudioState, cutoff: int)
    ensures Drained(codec, Drained(codec, st, cutoff), cutoff) == Drained(codec, st, cutoff)
    ensures !CanEncode(Drained(codec, st, cutoff), cutoff)
    decreases |st.queue|
  {
    if CanEncode(st, cutoff) {
      DrainedTwice(codec, Encoded(st), cutoff);
    }
  }

  /** Draining first changes nothing about what is fed after the next packet. */
  lemma {:induction false} DrainBeforeDecode(codec: Codec, st: AudioState, cutoff: int, data: seq<Byte>)
    ensures Drained(codec, Decoded(codec, Drained(codec, st, cutoff), data), cutoff)
         == Drained(codec, Decoded(codec, st, data), cutoff)
    decreases |st.queue|
  {
    if CanEncode(st, cutoff) {
      DrainBeforeDecode(codec, Encoded(st), cutoff, data);
      EncodeDecodeCommute(codec, st, data);
    }
  }

  lemma EncodeDecodeCommute(codec: Codec, st: AudioState, data: seq<Byte>)
    requires |st.queue| >= FRAME
    ensures |Decoded(codec, st, data).queue| >= FRAME
    ensures Decoded(codec, Encoded(st), data) == Encoded(Decoded(codec, st, data))
  {
    var pcm := codec.decode(st.decoded + [data]);
    assert (st.queue + pcm)[FRAME..] == st.queue[FRAME..] + pcm;
    assert (st.queue + pcm)[..FRAME] == st.queue[..FRAME];
  }

  /** Whenever the queue is drained in between, the state after a last drain is that of a single drain after all
      packets: the encoder is fed the same frames at the same times. */
  lemma {:induction false} ScheduleIndependence(codec: Codec, st: AudioState, cutoff: int, ops: seq<AudioOp>)
    ensures Drained(codec, RunOps(codec, st, cutoff, ops), cutoff)
         == Drained(codec, DecodedAll(codec, st, DecodedIn(ops)), cutoff)
  {
    hide Drained, Decoded;
    if ops != [] {
      var n := |ops| - 1;
      var before, all := RunOps(codec, st, cutoff, ops[..n]), DecodedAll(codec, st, DecodedIn(ops[..n]));
      ScheduleIndependence(codec, st, cutoff, ops[..n]);
      match ops[n]
      case Drain =>
        DrainedTwice(codec, before, cutoff);
        assert DecodedIn(ops) == DecodedIn(ops[..n]);
      case Decode(data) =>
        DrainBeforeDecode(codec, before, cutoff, data);
        DrainBeforeDecode(codec, all, cutoff, data);
        assert DecodedIn(ops)[..|DecodedIn(ops)| - 1] == DecodedIn(ops[..n]);
    }
  }

  /** The queue holds enough for every frame up to the cutoff. */
  predicate Enough(codec: Codec, st: AudioState, cutoff: int) {
    Drained(codec, st, cutoff).pts + FRAME > cutoff
  }

  /** Once there is enough, packets decoded beyond feed the encoder nothing more. */
  lemma {:induction false} MoreIsIgnored(codec: Codec, st: AudioState, cutoff: int, packets: seq<seq<Byte>>)
    requires Enough(codec, st, cutoff)
    ensures Enough(codec, DecodedAll(codec, st, packets), cutoff)
    ensures Drained(codec, DecodedAll(codec, st, packets), cutoff).fed == Drained(codec, st, cutoff).fed
  {
    if packets != [] {
      var n := |packets| - 1;
      MoreIsIgnored(codec, st, cutoff, packets[..n]);
      DrainBeforeDecode(codec, DecodedAll(codec, st, packets[..n]), cutoff, packets[n]);
    }
  }

  lemma {:induction false} DecodedAllConcat(codec: Codec, st: AudioState, a: seq<seq<Byte>>, b: seq<seq<Byte>>)
    ensures DecodedAll(codec, st, a + b) == DecodedAll(codec, DecodedAll(codec, st, a), b)
  {
    if b == [] {
      assert a + b == a;
    } else {
      var n := |b| - 1;
      DecodedAllConcat(codec, st, a, b[..n]);
      assert (a + b)[..|a| + n] == a + b[..n];
    }
  }

  // ---- how many frames ----

  /** How many frames a drain feeds: as many as are queued, but none that ends after the cutoff. */
  function FrameCount(queued: nat, pts: int, cutoff: int): nat {
    if cutoff < pts then 0
    else if queued / FRAME < (cutoff - pts) / FRAME then queued / FRAME else (cutoff - pts) / FRAME
  }

  /** Consecutive frames of the queue. */
  function FramesOf(queue: seq<Stereo>, pts: int, n: nat): (f: seq<Frame>)
    requires n * FRAME <= |queue|
    ensures |f| == n
  {
    seq(n, i requires 0 <= i < n => Frame(pts + i * FRAME, queue[i * FRAME..(i + 1) * FRAME]))
  }

  lemma {:induction false} DrainedIs(codec: Codec, st: AudioState, cutoff: int)
    ensures var n := FrameCount(|st.queue|, st.pts, cutoff);
            && n * FRAME <= |st.queue|
            && Drained(codec, st, cutoff)
            == st.(queue := st.queue[n * FRAME..], pts := st.pts + n * FRAME, fed := st.fed + FramesOf(st.queue, st.pts, n))
    decreases |st.queue|
  {
    var n := FrameCount(|st.queue|, st.pts, cutoff);
    CountNext(|st.queue|, st.pts, cutoff);
    hide FrameCount, FramesOf;
    if CanEncode(st, cutoff) {
      DrainedIs(codec, Encoded(st), cutoff);
      var rest, first := st.queue[FRAME..], Frame(st.pts, st.queue[..FRAME]);
      FramesNext(st.queue, st.pts, n);
      DropTwice(st.queue, n);
      assert st.fed + [first] + FramesOf(rest, st.pts + FRAME, n - 1)
          == st.fed + ([first] + FramesOf(rest, st.pts + FRAME, n - 1));
    } else {
      assert st.fed + FramesOf(st.queue, st.pts, 0) == st.fed;
    }
  }

  /** There is enough if and only if the queue holds every whole frame up to the cutoff. */
  lemma EnoughIff(codec: Codec, st: AudioState, cutoff: int)
    requires st.pts <= cutoff
    ensures Enough(codec, st, cutoff) <==> |st.queue| >= (cutoff - st.pts) / FRAME * FRAME
  {
    DrainedIs(codec, st, cutoff);
    var n, due := FrameCount(|st.queue|, st.pts, cutoff), (cutoff - st.pts) / FRAME;
    assert Enough(codec, st, cutoff) <==> st.pts + n * FRAME + FRAME > cutoff;
    hide *;
    EnoughFrames(|st.queue|, st.pts, cutoff);
  }

  lemma EnoughFrames(queued: nat, pts: int, cutoff: int)
    requires pts <= cutoff
    ensures pts + FrameCount(queued, pts, cutoff) * FRAME + FRAME > cutoff <==> queued >= (cutoff - pts) / FRAME * FRAME
  {
  }

  lemma CountNext(queued: nat, pts: int, cutoff: int)
    ensures FrameCount(queued, pts, cutoff) * FRAME <= queued
    ensures queued >= FRAME && pts + FRAME <= cutoff ==>
              FrameCount(queued, pts, cutoff) == FrameCount(queued - FRAME, pts + FRAME, cutoff) + 1
    ensures !(queued >= FRAME && pts + FRAME <= cutoff) ==> FrameCount(queued, pts, cutoff) == 0
  {
  }

  lemma DropTwice(queue: seq<Stereo>, n: nat)
    requires 0 < n && n * FRAME <= |queue|
    ensures queue[FRAME..][(n - 1) * FRAME..] == queue[n * FRAME..]
  {
  }

  lemma FramesNext(queue: seq<Stereo>, pts: int, n: nat)
    requires 0 < n && n * FRAME <= |queue|
    ensures FramesOf(queue, pts, n) == [Frame(pts, queue[..FRAME])] + FramesOf(queue[FRAME..], pts + FRAME, n - 1)
  {
    forall i | 0 < i < n
      ensures FramesOf(queue, pts, n)[i] == FramesOf(queue[FRAME..], pts + FRAME, n - 1)[i - 1]
    {
      assert queue[i * FRAME..(i + 1) * FRAME] == queue[FRAME..][(i - 1) * FRAME..i * FRAME];
    }
  }

  // ---- which frames come out ----

  /** The index of the frame at a time; rounds down. */
  function FrameIndex(pts: int): int {
    FloorDiv(pts, FRAME)
  }

  /** Truncating division and remainder, adjusted to round down as the source does. */
  function FloorDiv(num: int, den: int): (q: int)
    requires den > 0
    ensures q * den <= num < q * den + den
  {
    var q := if num >= 0 then num / den else -(-num / den);
    var r := num - q * den;
    QuotientBounds(num, den);
    if r != 0 && r < 0 then q - 1 else q
  }

  lemma QuotientBounds(num: int, den: int)
    requires den > 0
    ensures num >= 0 ==> 0 <= num - num / den * den < den
    ensures num < 0 ==> -den < num - -(-num / den) * den <= 0
  {
    if num < 0 {
      var k := -num / den;
      assert -num == k * den + -num % den;
      assert -k * den == -(k * den);
    } else {
      assert num == num / den * den + num % den;
    }
  }

  lemma FrameIndexIs(pts: int)
    ensures FrameIndex(pts) == pts / 1024
  {
  }

  /** The frames of one build by index: a later packet with the same index replaces an earlier one, and empty packets
      are dropped. */
  function MapOf(packets: seq<AacPacket>): map<int, seq<Byte>> {
    if packets == [] then map[]
    else
      var p, m := packets[|packets| - 1], MapOf(packets[..|packets| - 1]);
      if |p.data| > 0 then m[FrameIndex(p.pts) := p.data] else m
  }

  /** An encoder that gives one packet for each frame, `delay` frames late and stamped `shift` frames early. One that does
      neither may leave out the time. */
  ghost predicate Regular(codec: Codec, delay: nat, shift: nat) {
    forall fed: seq<Frame> {:trigger codec.encode(fed)} :: fed != [] ==>
      if |fed| <= delay then codec.encode(fed) == []
      else
        && |codec.encode(fed)| == 1
        && (codec.encode(fed)[0].pts == Some(fed[|fed| - 1 - delay].pts - 1024 * shift)
            || (codec.encode(fed)[0].pts == None && delay + shift == 0))
        && codec.encode(fed)[0].data != []
  }

  /** The packets of the first `n` frames fed since a Reset to `pts`. */
  lemma {:induction false} RegularKeys(codec: Codec, delay: nat, shift: nat, queue: seq<Stereo>, pts: int, n: nat, i: int)
    requires Regular(codec, delay, shift) && n * FRAME <= |queue|
    ensures i in MapOf(EmittedSince(codec, FramesOf(queue, pts, n), 0))
       <==> FrameIndex(pts) - shift <= i < FrameIndex(pts) - shift + n - delay
  {
    hide *;
    if n == 0 {
      NoFrames(codec, queue, pts);
    } else {
      var fed := FramesOf(queue, pts, n);
      RegularKeys(codec, delay, shift, queue, pts, n - 1, i);
      FramesPrefix(queue, pts, n);
      EmittedNext(codec, fed[..n - 1], fed, 0);
      LastPacket(codec, delay, shift, fed);
      MapOfConcat(EmittedSince(codec, fed[..n - 1], 0), Emitted(codec, fed));
      if n > delay {
        LastIndex(codec, delay, shift, queue, pts, n);
      }
    }
  }

  lemma NoFrames(codec: Codec, queue: seq<Stereo>, pts: int)
    ensures FramesOf(queue, pts, 0) == [] && MapOf(EmittedSince(codec, [], 0)) == map[]
  {
  }

  lemma FramesPrefix(queue: seq<Stereo>, pts: int, n: nat)
    requires n > 0 && n * FRAME <= |queue|
    ensures (n - 1) * FRAME <= |queue|
    ensures FramesOf(queue, pts, n)[..n - 1] == FramesOf(queue, pts, n - 1)
  {
  }

  lemma LastIndex(codec: Codec, delay: nat, shift: nat, queue: seq<Stereo>, pts: int, n: nat)
    requires Regular(codec, delay, shift) && delay < n && n * FRAME <= |queue|
    ensures var emitted := Emitted(codec, FramesOf(queue, pts, n));
            |emitted| == 1 && FrameIndex(emitted[0].pts) == FrameIndex(pts) - shift + n - 1 - delay
  {
    var fed := FramesOf(queue, pts, n);
    LastPacket(codec, delay, shift, fed);
    assert fed[n - 1 - delay].pts == pts + (n - 1 - delay) * FRAME;
    hide Emitted, FrameIndex, Regular, FramesOf;
    ShiftedIndex(pts, n - 1 - delay - shift);
  }

  lemma LastPacket(codec: Codec, delay: nat, shift: nat, fed: seq<Frame>)
    requires Regular(codec, delay, shift) && fed != []
    ensures |fed| <= delay ==> Emitted(codec, fed) == []
    ensures |fed| > delay ==>
              && |Emitted(codec, fed)| == 1 && Emitted(codec, fed)[0].data != []
              && Emitted(codec, fed)[0].pts == fed[|fed| - 1 - delay].pts - FRAME * shift
  {
    var raw := codec.encode(fed);
  }

  lemma ShiftedIndex(pts: int, k: int)
    ensures FrameIndex(pts + k * FRAME) == FrameIndex(pts) + k
  {
    FrameIndexIs(pts);
    FrameIndexIs(pts + k * FRAME);
  }

  lemma MapOfConcat(a: seq<AacPacket>, b: seq<AacPacket>)
    requires |b| <= 1
    ensures MapOf(a + b)
         == if b == [] || |b[0].data| == 0 then MapOf(a) else MapOf(a)[FrameIndex(b[0].pts) := b[0].data]
  {
    hide FrameIndex;
    if b == [] {
      assert a + b == a;
    } else {
      assert (a + b)[..|a|] == a;
    }
  }
}
