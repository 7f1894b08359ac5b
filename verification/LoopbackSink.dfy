/**
 The loopback reference (src/audio/loopback.cpp): a ring of the samples last sent to the
 speaker, addressed by time. What the ring must agree with is the unbounded history of
 everything emitted since it was last cleared.
 */
module Loopback {
  import opened Modulo
  import opened Samples

  const NS_PER_S: nat := 1_000_000_000
  const HALF: nat := 500_000_000
  const EPOCH: int := 0

  /** The history, and the frame and time of the last anchor. Times are nanoseconds. */
  datatype Emitted = Emitted(history: seq<Sample>, firstFrame: nat, time: int)

  const NOTHING := Emitted([], 0, EPOCH)

  function Min(a: nat, b: nat): nat {
    if a < b then a else b
  }

  /** The effect of one chunk on a sink that retains `cap` samples. */
  function Emit(cap: nat, e: Emitted, samples: seq<Sample>, time: int): Emitted {
    if samples == [] then e
    else Emitted(e.history + samples, |e.history| + (|samples| - Min(|samples|, cap)), time)
  }

  function DeltaFrames(deltaNs: int, rate: nat): int {
    if deltaNs >= 0 then TruncDiv(deltaNs * rate + HALF, NS_PER_S)
    else TruncDiv(deltaNs * rate - HALF, NS_PER_S)
  }

  /** The sample of frame f, if f is among the last `cap` emitted; silence otherwise. */
  function FrameAt(cap: nat, history: seq<Sample>, f: int): Sample {
    if |history| - Min(cap, |history|) <= f < |history| then history[f] else 0
  }

  /** The n samples that start at the given time. */
  function Window(cap: nat, rate: nat, e: Emitted, time: int, n: nat): seq<Sample> {
    if e.time == EPOCH then seq<Sample>(n, _ => 0)
    else
      var first := e.firstFrame + DeltaFrames(time - e.time, rate);
      seq<Sample>(n, i => FrameAt(cap, e.history, first + i))
  }

  /** Where the sample `back` places before the write position is stored. */
  function Slot(writePos: nat, cap: nat, back: nat): (r: nat)
    requires writePos < cap && 1 <= back <= cap
    ensures r < cap && r == (writePos + cap - back) % cap
  {
    if back <= writePos then
      ModUnique(1, writePos - back, cap);
      writePos - back
    else
      ModUnique(0, writePos + cap - back, cap);
      writePos + cap - back
  }

  lemma Wraps(writePos: nat, cap: nat, n: nat)
    requires writePos < cap && n <= cap
    ensures (writePos + n) % cap == if writePos + n < cap then writePos + n else writePos + n - cap
  {
    if writePos + n < cap {
      ModUnique(0, writePos + n, cap);
    } else {
      ModUnique(1, writePos + n - cap, cap);
    }
  }

  /** The ring holds the tail of the history, backwards from the write position. */
  ghost predicate Holds(ring: seq<Sample>, writePos: nat, history: seq<Sample>)
    requires writePos < |ring|
  {
    forall back | 1 <= back <= Min(|ring|, |history|) ::
      ring[Slot(writePos, |ring|, back)] == history[|history| - back]
  }

  /** `after` is `before` with `added` laid into it from writePos on, wrapping at the end. */
  ghost predicate LaidIn(before: seq<Sample>, after: seq<Sample>, writePos: nat, added: seq<Sample>) {
    && |after| == |before| && writePos < |before| && |added| <= |before|
    && (forall k | 0 <= k < |before| :: after[k] ==
          if writePos <= k < writePos + |added| then added[k - writePos]
          else if k + |before| < writePos + |added| then added[k + |before| - writePos]
          else before[k])
  }

  lemma LaidInHolds(before: seq<Sample>, after: seq<Sample>, writePos: nat, history: seq<Sample>,
                    samples: seq<Sample>)
    requires writePos < |before| && Holds(before, writePos, history)
    requires LaidIn(before, after, writePos, samples[|samples| - Min(|samples|, |before|)..])
    ensures Holds(after, (writePos + Min(|samples|, |before|)) % |before|, history + samples)
  {
    var cap, n := |before|, Min(|samples|, |before|);
    Wraps(writePos, cap, n);
    var moved := (writePos + n) % cap;
    var all := history + samples;
    forall back | 1 <= back <= Min(cap, |all|)
      ensures after[Slot(moved, cap, back)] == all[|all| - back]
    {
      if back > n {
        assert before[Slot(writePos, cap, back - n)] == history[|history| - (back - n)];
      }
    }
  }

  class LoopbackSink {
    const sampleRate: nat
    const ring: array<Sample>
    var writePos: nat
    var totalFrames: nat
    var lastEmitTime: int
    var lastEmitFirstFrame: nat
    ghost var history: seq<Sample>

    ghost function Now(): Emitted
      reads this
    {
      Emitted(history, lastEmitFirstFrame, lastEmitTime)
    }

    ghost predicate Valid()
      reads this, ring
    {
      writePos < ring.Length && totalFrames == |history| && Holds(ring[..], writePos, history)
    }

    /** A capacity of zero is rounded up to one. */
    constructor (capacity: nat, sampleRate: nat)
      ensures Valid() && fresh(ring) && this.sampleRate == sampleRate
      ensures ring.Length == (if capacity > 0 then capacity else 1) && Now() == NOTHING
    {
      this.sampleRate := sampleRate;
      ring := new Sample[if capacity > 0 then capacity else 1](_ => 0);
      writePos, totalFrames, lastEmitFirstFrame := 0, 0, 0;
      lastEmitTime := EPOCH;
      history := [];
    }

    /** One chunk: laid into the ring in one stretch, or in two when it runs over the end. */
    method OnEmitted(samples: seq<Sample>, emitTime: int)
      requires Valid()
      modifies this, ring
      ensures Valid() && Now() == Emit(ring.Length, old(Now()), samples, emitTime)
    {
      hide Holds, Slot;
      if samples == [] {
        return;
      }
      var cap, n := ring.Length, |samples|;
      var toCopy := Min(n, cap);
      var skipped := n - toCopy;
      if toCopy <= cap - writePos {
        forall k | 0 <= k < toCopy {
          ring[writePos + k] := samples[skipped + k];
        }
      } else {
        var first := cap - writePos;
        forall k | 0 <= k < first {
          ring[writePos + k] := samples[skipped + k];
        }
        forall k | 0 <= k < toCopy - first {
          ring[k] := samples[skipped + first + k];
        }
      }
      assert LaidIn(old(ring[..]), ring[..], writePos, samples[skipped..]);
      LaidInHolds(old(ring[..]), ring[..], writePos, history, samples);
      writePos := (writePos + toCopy) % cap;
      lastEmitFirstFrame := totalFrames + skipped;
      totalFrames := totalFrames + n;
      lastEmitTime := emitTime;
      history := history + samples;
    }

    /** Fills `dest` with the samples emitted from captureTime on. */
    method Aligned(captureTime: int, dest: array<Sample>)
      requires Valid() && dest != ring
      modifies dest
      ensures Valid() && dest[..] == Window(ring.Length, sampleRate, Now(), captureTime, dest.Length)
    {
      if lastEmitTime == EPOCH {
        forall k | 0 <= k < dest.Length {
          dest[k] := 0;
        }
        return;
      }
      var first := lastEmitFirstFrame + DeltaFrames(captureTime - lastEmitTime, sampleRate);
      var cap := ring.Length;
      var oldest := totalFrames - Min(cap, totalFrames);
      var newest := totalFrames;
      var i := 0;
      while i < dest.Length
        invariant i <= dest.Length && unchanged(ring)
        invariant forall k | 0 <= k < i :: dest[k] == FrameAt(cap, history, first + k)
      {
        var f := first + i;
        if f < oldest || f >= newest {
          dest[i] := 0;
        } else {
          var back := newest - f;
          assert ring[..][Slot(writePos, cap, back)] == history[f];
          dest[i] := ring[(writePos + cap - back) % cap];
        }
        i := i + 1;
      }
    }

    method Clear()
      requires Valid()
      modifies this, ring
      ensures Valid() && Now() == NOTHING
    {
      forall k | 0 <= k < ring.Length {
        ring[k] := 0;
      }
      writePos, totalFrames, lastEmitFirstFrame := 0, 0, 0;
      lastEmitTime := EPOCH;
      history := [];
    }
  }

  // ----- the time axis -----

  function Abs(x: int): nat {
    if x >= 0 then x else -x
  }

  /** k frames is what x nanoseconds-times-rate rounds to: nearest, ties away from zero. */
  predicate Nearest(x: int, k: int) {
    && 2 * Abs(x - k * NS_PER_S) <= NS_PER_S
    && (2 * Abs(x - k * NS_PER_S) == NS_PER_S ==> Abs(x) < Abs(k * NS_PER_S))
  }

  lemma Signs(d: int, rate: nat)
    ensures d >= 0 ==> d * rate >= 0
    ensures d <= 0 ==> d * rate <= 0
  {
  }

  /** The frame offset is the nearest one, and the only one. */
  lemma OffsetIsNearest(deltaNs: int, rate: nat, k: int)
    ensures DeltaFrames(deltaNs, rate) == k <==> Nearest(deltaNs * rate, k)
    ensures Abs(DeltaFrames(deltaNs, rate) * NS_PER_S - deltaNs * rate) <= HALF
  {
    Signs(deltaNs, rate);
  }

  predicate Tie(x: int) {
    Abs(x) % NS_PER_S == HALF
  }

  /**
   Captures taken a whole number of frames apart: their windows tile exactly, except when
   the offset falls half way between two frames and the two captures lie on different
   sides of the anchor.
   */
  lemma CapturesTile(deltaNs: int, stepNs: nat, rate: nat, k: nat)
    requires stepNs * rate == k * NS_PER_S && rate > 0
    ensures DeltaFrames(deltaNs + stepNs, rate) == DeltaFrames(deltaNs, rate) + k
       <==> !(Tie(deltaNs * rate) && deltaNs < 0 <= deltaNs + stepNs)
    ensures DeltaFrames(deltaNs + stepNs, rate) <= DeltaFrames(deltaNs, rate) + k + 1
  {
    var x := deltaNs * rate;
    assert (deltaNs + stepNs) * rate == x + k * NS_PER_S;
    Signs(deltaNs, rate);
    Signs(deltaNs + stepNs, rate);
    Shifted(x, k);
  }

  /** Two captures three frames apart, 31.25 us before and behind the anchor: their windows lie four frames apart. */
  lemma TiesDoNotTile()
    ensures 62_500 * 48_000 == 3 * NS_PER_S && Tie(-31_250 * 48_000)
    ensures DeltaFrames(-31_250, 48_000) == -2 && DeltaFrames(-31_250 + 62_500, 48_000) == 2
  {
    OffsetIsNearest(-31_250, 48_000, -2);
    OffsetIsNearest(31_250, 48_000, 2);
  }

  /** What x rounds to: the frame offset, once multiplied out. */
  function Rounded(x: int): int {
    if x >= 0 then (x + HALF) / NS_PER_S else -((HALF - x) / NS_PER_S)
  }

  lemma Shifted(x: int, k: nat)
    ensures Rounded(x + k * NS_PER_S) == Rounded(x) + k <==> !(Tie(x) && x < 0 <= x + k * NS_PER_S)
    ensures Rounded(x + k * NS_PER_S) <= Rounded(x) + k + 1
  {
  }

  // ----- what a capture sees -----

  datatype Op = Chunk(samples: seq<Sample>, time: int) | Cleared

  function Apply(cap: nat, e: Emitted, op: Op): Emitted {
    match op
    case Chunk(samples, time) => Emit(cap, e, samples, time)
    case Cleared => NOTHING
  }

  function Run(cap: nat, ops: seq<Op>): Emitted {
    if ops == [] then NOTHING else Apply(cap, Run(cap, ops[..|ops| - 1]), ops[|ops| - 1])
  }

  /** The frames counted since the last clear. */
  function Frames(ops: seq<Op>): nat {
    if ops == [] then 0
    else
      match ops[|ops| - 1]
      case Chunk(samples, _) => Frames(ops[..|ops| - 1]) + |samples|
      case Cleared => 0
  }

  /** In every run the anchor lies inside the history, and a fresh sink has none. */
  lemma {:induction false} AnchorIsRetained(cap: nat, ops: seq<Op>)
    requires cap > 0
    ensures var e := Run(cap, ops);
      && |e.history| == Frames(ops)
      && |e.history| - Min(cap, |e.history|) <= e.firstFrame <= |e.history|
      && (e.history == [] <==> e.firstFrame == |e.history|)
  {
    if ops != [] {
      AnchorIsRetained(cap, ops[..|ops| - 1]);
    }
  }

  /**
   A capture at the very time a chunk was emitted sees the chunk itself, if the ring can
   hold it; the anchor of a longer chunk is its first retained sample instead.
   */
  lemma CaptureSeesTheChunk(cap: nat, rate: nat, ops: seq<Op>, samples: seq<Sample>, time: int)
    requires cap > 0 && samples != [] && time != EPOCH
    ensures var e := Run(cap, ops + [Chunk(samples, time)]);
      && (e.firstFrame == Frames(ops) <==> |samples| <= cap)
      && (|samples| <= cap ==> Window(cap, rate, e, time, |samples|) == samples)
      && (|samples| > cap ==> Window(cap, rate, e, time, cap) == samples[|samples| - cap..])
  {
    AnchorIsRetained(cap, ops);
    var all := ops + [Chunk(samples, time)];
    assert all[..|all| - 1] == ops;
    assert (time - time) * rate == 0;
    var before, m := Run(cap, ops), Min(|samples|, cap);
    var e := Emit(cap, before, samples, time);
    assert Run(cap, all) == e;
    var w := Window(cap, rate, e, time, m);
    forall i | 0 <= i < m
      ensures w[i] == samples[|samples| - m..][i]
    {
      var f := |before.history| + |samples| - m + i;
      assert w[i] == FrameAt(cap, e.history, f);
      assert e.history[f] == samples[|samples| - m + i];
    }
    assert w == samples[|samples| - m..];
  }

  /** Everything emitted since the last clear. */
  function Sent(ops: seq<Op>): seq<Sample> {
    if ops == [] then []
    else
      match ops[|ops| - 1]
      case Chunk(samples, _) => Sent(ops[..|ops| - 1]) + samples
      case Cleared => []
  }

  /** The last chunk since the last clear that is not empty: its time, and the frame of its first retained sample. */
  function Anchor(cap: nat, ops: seq<Op>): (int, int) {
    if ops == [] then (EPOCH, 0)
    else
      match ops[|ops| - 1]
      case Cleared => (EPOCH, 0)
      case Chunk(samples, time) =>
        if samples == [] then Anchor(cap, ops[..|ops| - 1])
        else (time, |Sent(ops)| - if |samples| <= cap then |samples| else cap)
  }

  lemma {:induction false} RunIsSent(cap: nat, ops: seq<Op>)
    ensures var e := Run(cap, ops); e.history == Sent(ops) && (e.time, e.firstFrame) == Anchor(cap, ops)
  {
    if ops != [] {
      RunIsSent(cap, ops[..|ops| - 1]);
      match ops[|ops| - 1]
      case Chunk(samples, _) => assert samples == [] ==> Sent(ops) == Sent(ops[..|ops| - 1]);
      case Cleared =>
    }
  }

  /**
   Every cell of every capture, over every run: k frames from the anchor being the time
   rounded to the nearest frame, cell i holds the sample sent as frame anchor + k + i if that
   is among the last `cap` sent, in front of the anchor or behind it, and silence if it is not.
   */
  lemma CellsAreFrames(cap: nat, rate: nat, ops: seq<Op>, time: int, n: nat, i: nat, k: int)
    requires i < n && Nearest((time - Anchor(cap, ops).0) * rate, k)
    ensures var w, sent, f := Window(cap, rate, Run(cap, ops), time, n), Sent(ops), Anchor(cap, ops).1 + k + i;
      && |w| == n
      && w[i] == if Anchor(cap, ops).0 != EPOCH && 0 <= f < |sent| && |sent| - cap <= f then sent[f] else 0
  {
    RunIsSent(cap, ops);
    OffsetIsNearest(time - Anchor(cap, ops).0, rate, k);
    hide Run, Sent, Anchor, DeltaFrames, Nearest;
  }

  /** The windows of two captures k frames apart join without a gap or an overlap. */
  lemma WindowsTile(cap: nat, rate: nat, e: Emitted, time: int, stepNs: nat, k: nat, n: nat)
    requires e.time != EPOCH && rate > 0 && stepNs * rate == k * NS_PER_S
    requires !(Tie((time - e.time) * rate) && time < e.time <= time + stepNs)
    ensures Window(cap, rate, e, time, k) + Window(cap, rate, e, time + stepNs, n)
         == Window(cap, rate, e, time, k + n)
  {
    CapturesTile(time - e.time, stepNs, rate, k);
    assert time + stepNs - e.time == (time - e.time) + stepNs;
  }
}
