/**
 The capture clock (src/audio/clock.cpp): frame indices to monotonic nanoseconds and back,
 around an anchor that every tick moves. Integers are unbounded.
 */
module AudioClocks {
  import opened Modulo

  const NS_PER_S: nat := 1_000_000_000

  datatype State = State(totalFrames: nat, rate: nat, anchorFrame: nat, anchorNs: int, anchored: bool)

  const FRESH := State(0, 0, 0, 0, false)

  datatype Tick = Tick(frames: nat, rate: nat, now: int)

  /** The first tick anchors frame 0; later ones anchor the end of their buffer. */
  function OnTick(s: State, t: Tick): State {
    if t.rate == 0 || t.frames == 0 then s
    else if !s.anchored then State(t.frames, t.rate, 0, t.now, true)
    else s.(totalFrames := s.totalFrames + t.frames, anchorFrame := s.totalFrames + t.frames, anchorNs := t.now)
  }

  function Run(ts: seq<Tick>): State {
    if ts == [] then FRESH else OnTick(Run(ts[..|ts| - 1]), ts[|ts| - 1])
  }

  function SteadyFor(s: State, frame: nat): int {
    if !s.anchored || s.rate == 0 then 0
    else s.anchorNs + (frame - s.anchorFrame) * (NS_PER_S / s.rate)
  }

  function FramesAt(s: State, ns: int): nat {
    if !s.anchored || s.rate == 0 then 0
    else
      var result := s.anchorFrame + TruncDiv((ns - s.anchorNs) * s.rate, NS_PER_S);
      if result < 0 then 0 else result
  }

  class MonotonicAudioClock {
    var totalFrames: nat
    var sampleRate: nat
    var anchorFrame: nat
    var anchorSteadyNs: int
    var anchored: bool

    ghost function Now(): State
      reads this
    {
      State(totalFrames, sampleRate, anchorFrame, anchorSteadyNs, anchored)
    }

    constructor ()
      ensures Now() == FRESH
    {
      totalFrames, sampleRate, anchorFrame, anchorSteadyNs, anchored := 0, 0, 0, 0, false;
    }

    method OnCaptureFrames(frameCount: nat, rate: nat, now: int)
      modifies this
      ensures Now() == OnTick(old(Now()), Tick(frameCount, rate, now))
    {
      if rate == 0 || frameCount == 0 {
        return;
      }
      if !anchored {
        sampleRate, anchorFrame, anchorSteadyNs := rate, 0, now;
        totalFrames, anchored := frameCount, true;
        return;
      }
      totalFrames := totalFrames + frameCount;
      anchorFrame, anchorSteadyNs := totalFrames, now;
    }

    method SteadyForFrame(frameIndex: nat) returns (ns: int)
      ensures ns == SteadyFor(Now(), frameIndex)
    {
      if !anchored || sampleRate == 0 {
        return 0;
      }
      var deltaFrames := frameIndex - anchorFrame;
      var nsPerFrame := NS_PER_S / sampleRate;
      ns := anchorSteadyNs + deltaFrames * nsPerFrame;
    }

    method FramesAtTime(ns: int) returns (frames: nat)
      ensures frames == FramesAt(Now(), ns)
    {
      if !anchored || sampleRate == 0 {
        return 0;
      }
      var deltaNs := ns - anchorSteadyNs;
      var deltaFrames := TruncDiv(deltaNs * sampleRate, NS_PER_S);
      var result := anchorFrame + deltaFrames;
      frames := if result < 0 then 0 else result;
    }
  }

  // ----- every run -----

  predicate Effective(t: Tick) {
    t.rate != 0 && t.frames != 0
  }

  function Effectives(ts: seq<Tick>): seq<Tick> {
    if ts == [] then []
    else Effectives(ts[..|ts| - 1]) + if Effective(ts[|ts| - 1]) then [ts[|ts| - 1]] else []
  }

  function FrameSum(ts: seq<Tick>): nat {
    if ts == [] then 0 else FrameSum(ts[..|ts| - 1]) + ts[|ts| - 1].frames
  }

  lemma SumGrows(ts: seq<Tick>, t: Tick)
    ensures FrameSum(ts + [t]) == FrameSum(ts) + t.frames
  {
    assert (ts + [t])[..|ts|] == ts;
  }

  /**
   Every run: the total counts every frame of every effective tick, the rate is that of the
   first, the anchor's time is that of the last, and its frame is the total from the second on.
   */
  lemma {:induction false} RunIsSummary(ts: seq<Tick>)
    ensures var s, es := Run(ts), Effectives(ts);
      && s.totalFrames == FrameSum(es) && (s.anchored <==> es != [])
      && (es != [] ==> s.rate == es[0].rate && s.rate > 0 && s.anchorNs == es[|es| - 1].now)
      && s.anchorFrame == if |es| > 1 then s.totalFrames else 0
  {
    if ts != [] {
      var front, t := ts[..|ts| - 1], ts[|ts| - 1];
      RunIsSummary(front);
      if Effective(t) {
        SumGrows(Effectives(front), t);
      } else {
        assert Effectives(ts) == Effectives(front);
      }
    }
  }

  // ----- the round trip -----

  function Abs(x: int): nat {
    if x >= 0 then x else -x
  }

  function CeilDiv(a: nat, b: nat): nat
    requires b > 0
  {
    (a + b - 1) / b
  }

  /** |d| frames, there and back. */
  function RoundTripError(d: int, rate: nat): nat
    requires rate > 0
  {
    CeilDiv(Abs(d) * (NS_PER_S % rate), NS_PER_S)
  }

  lemma Whole(d: nat, rate: nat)
    requires rate > 0
    ensures d * (NS_PER_S / rate) * rate == d * NS_PER_S - d * (NS_PER_S % rate)
    ensures 0 <= d * (NS_PER_S % rate) <= d * NS_PER_S
  {
    var q, r := NS_PER_S / rate, NS_PER_S % rate;
    assert q * rate == NS_PER_S - r;
    assert d * q * rate == d * (q * rate);
    assert r <= NS_PER_S by {
      MulOrdered(rate, 0, q);
    }
    MulOrdered(d, r, NS_PER_S);
  }

  /** There and back again from |d| frames off the anchor, on either side. */
  lemma ThereAndBack(d: int, rate: nat)
    requires rate > 0
    ensures RoundTripError(d, rate) <= Abs(d)
    ensures TruncDiv(d * (NS_PER_S / rate) * rate, NS_PER_S)
         == if d >= 0 then d - RoundTripError(d, rate) else d + RoundTripError(d, rate)
  {
    var a := Abs(d);
    Whole(a, rate);
    var q := NS_PER_S / rate;
    if d < 0 {
      assert d * q * rate == -(a * q * rate) by {
        assert d * q == -(a * q);
      }
    }
  }

  /**
   The round trip of a frame index: off by exactly the ceiling of |d| (10^9 mod rate) / 10^9,
   always towards the anchor, and so never clamped.
   */
  lemma RoundTrip(s: State, frame: nat)
    requires s.anchored && s.rate > 0
    ensures var d := frame - s.anchorFrame;
      FramesAt(s, SteadyFor(s, frame))
        == if d >= 0 then frame - RoundTripError(d, s.rate) else frame + RoundTripError(d, s.rate)
    ensures s.anchorFrame + TruncDiv((SteadyFor(s, frame) - s.anchorNs) * s.rate, NS_PER_S) >= 0
  {
    ThereAndBack(frame - s.anchorFrame, s.rate);
  }

  /** The round trip is exact exactly at the anchor or when the rate divides 10^9. */
  lemma RoundTripIsExactExactlyWhen(s: State, frame: nat)
    requires s.anchored && s.rate > 0
    ensures FramesAt(s, SteadyFor(s, frame)) == frame
       <==> frame == s.anchorFrame || NS_PER_S % s.rate == 0
  {
    RoundTrip(s, frame);
    var d, r := Abs(frame - s.anchorFrame), NS_PER_S % s.rate;
    if d > 0 && r > 0 {
      MulOrdered(d, 1, r);
    }
  }

  /** At 44.1 kHz the frame behind the first anchor is not found again. */
  lemma OneFrameOffTheAnchor()
    ensures var s := Run([Tick(1, 44_100, 0)]);
      s.anchored && s.anchorFrame == 0 && FramesAt(s, SteadyFor(s, 1)) == 0
  {
    assert [Tick(1, 44_100, 0)][..0] == [];
    var s := Run([Tick(1, 44_100, 0)]);
    assert s == State(1, 44_100, 0, 0, true);
  }

  /** Later frames are never earlier in time, and strictly later up to 10^9 frames a second. */
  lemma SteadyForIsMonotone(s: State, a: nat, b: nat)
    requires a < b
    ensures SteadyFor(s, a) <= SteadyFor(s, b)
    ensures s.anchored && 0 < s.rate <= NS_PER_S ==> SteadyFor(s, a) < SteadyFor(s, b)
  {
    if s.anchored && s.rate > 0 {
      var q := NS_PER_S / s.rate;
      assert (b - s.anchorFrame) * q - (a - s.anchorFrame) * q == (b - a) * q;
      MulOrdered(q, 1, b - a);
    }
  }

  lemma FramesAtIsMonotone(s: State, x: int, y: int)
    requires x <= y
    ensures FramesAt(s, x) <= FramesAt(s, y)
  {
    MulOrdered(s.rate, x - s.anchorNs, y - s.anchorNs);
  }

  lemma Fits(x: nat, rate: nat, q: nat, k: nat, second: nat)
    requires rate > 0 && k * second <= x * rate && rate * q <= second
    ensures k * q <= x
  {
    MulOrdered(k, rate * q, second);
    assert rate * (k * q) == k * (rate * q);
    MulCancels(rate, k * q, x);
  }

  /** The whole frames in x nanoseconds, laid end to end in whole nanoseconds, do not exceed them. */
  lemma WholeFramesFit(x: nat, rate: nat)
    requires rate > 0
    ensures x * rate / NS_PER_S * (NS_PER_S / rate) <= x
  {
    Fits(x, rate, NS_PER_S / rate, x * rate / NS_PER_S, NS_PER_S);
  }

  lemma FoundAfterAnchor(s: State, ns: int)
    requires s.anchored && s.rate > 0 && ns >= s.anchorNs
    ensures s.anchorNs <= SteadyFor(s, FramesAt(s, ns)) <= ns
  {
    var x := ns - s.anchorNs;
    WholeFramesFit(x, s.rate);
    assert FramesAt(s, ns) == s.anchorFrame + x * s.rate / NS_PER_S;
  }

  lemma FoundBeforeAnchor(s: State, ns: int)
    requires s.anchored && s.rate > 0 && ns < s.anchorNs
    ensures ns <= SteadyFor(s, FramesAt(s, ns)) <= s.anchorNs
  {
    var x, q := s.anchorNs - ns, NS_PER_S / s.rate;
    WholeFramesFit(x, s.rate);
    assert (ns - s.anchorNs) * s.rate == -(x * s.rate);
    var k, j := x * s.rate / NS_PER_S, s.anchorFrame - FramesAt(s, ns);
    assert 0 <= j <= k;
    MulOrdered(q, j, k);
    assert (FramesAt(s, ns) - s.anchorFrame) * q == -(q * j);
  }

  /** The time of the frame found for a time does not lie beyond that time, seen from the anchor. */
  lemma FoundFrameIsNotBeyond(s: State, ns: int)
    requires s.anchored && s.rate > 0
    ensures ns >= s.anchorNs ==> s.anchorNs <= SteadyFor(s, FramesAt(s, ns)) <= ns
    ensures ns <= s.anchorNs ==> ns <= SteadyFor(s, FramesAt(s, ns)) <= s.anchorNs
  {
    hide SteadyFor, FramesAt;
    if ns >= s.anchorNs {
      FoundAfterAnchor(s, ns);
    } else {
      FoundBeforeAnchor(s, ns);
    }
  }
}
