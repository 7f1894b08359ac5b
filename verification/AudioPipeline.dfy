/**
 One frame through the audio pipeline (src/audio/pipeline.cpp): mute, re-blocking for the
 echo canceller, the wake-word gate, the endpointer, and what is published. The calls to
 other components, in order, are the effects of a frame. Resampler output, echo canceller
 output, wake-word hits, speech probabilities and the buffer's replies are inputs.
 */
module AudioPipelines {
  import opened Wrappers
  import opened Samples
  import E = Endpointing

  /** What the n-th call of the echo canceller makes of a block. */
  type Canceller = (nat, seq<Sample>) -> seq<Sample>

  const NS_PER_MS: nat := 1_000_000

  datatype Config = Config(endpointer: E.Config, rate: nat, wakeWord: bool, followupMs: nat,
                           prePaddingMs: nat, minRms: nat, liveSink: bool)

  datatype Event = SpeechStarted(ts: int) | SpeechEnded(ts: int) | UtteranceReady(samples: seq<Sample>)

  datatype Effect =
    | Cancelled(block: seq<Sample>)
    | Appended(samples: seq<Sample>)
    | Streamed(samples: seq<Sample>)
    | BufferStarted(padStart: int, at: int)
    | BufferEnded(at: int)
    | FalseStart
    | Published(event: Event)

  /** One captured frame; `p` is a new speech probability, if there is one. */
  datatype Frame = Frame(at: int, muted: bool, resampled: seq<Sample>, aec: bool, hit: bool,
                         p: Option<real>, prePad: seq<Sample>, slice: Option<seq<Sample>>)

  datatype Input = Captured(frame: Frame) | Retune(onset: real, offset: real, hangover: nat)

  datatype State = State(endpointer: E.State, inSpeech: bool, prevMuted: bool, carry: seq<Sample>, calls: nat,
                         gateStamp: int, gateWasOpen: bool, lastP: real,
                         falseStarts: nat, utterances: nat, lowRmsDrops: nat)

  function Initial(cfg: Config): State {
    State(E.Initial(cfg.endpointer), false, false, [], 0, 0, false, 0.0, 0, 0, 0)
  }

  function BlockSize(cfg: Config): nat {
    cfg.rate / 100
  }

  /** Cut xs into whole blocks and a rest. */
  function Reblock(size: nat, xs: seq<Sample>): (seq<seq<Sample>>, seq<Sample>)
    requires size > 0
  {
    if |xs| < size then ([], xs)
    else
      var (bs, rest) := Reblock(size, xs[size..]);
      ([xs[..size]] + bs, rest)
  }

  function Flatten(bs: seq<seq<Sample>>): seq<Sample> {
    if bs == [] then [] else Flatten(bs[..|bs| - 1]) + bs[|bs| - 1]
  }

  lemma {:induction false} FlattenConcat(a: seq<seq<Sample>>, b: seq<seq<Sample>>)
    ensures Flatten(a + b) == Flatten(a) + Flatten(b)
    decreases |b|
  {
    if b == [] {
      assert a + b == a;
    } else {
      assert (a + b)[..|a + b| - 1] == a + b[..|b| - 1];
      FlattenConcat(a, b[..|b| - 1]);
    }
  }

  lemma FlattenFirst(a: seq<Sample>, bs: seq<seq<Sample>>, rest: seq<Sample>)
    ensures Flatten([a] + bs) + rest == a + (Flatten(bs) + rest)
  {
    FlattenConcat([a], bs);
    assert [a][..0] == [] && Flatten([a]) == a;
  }

  /** Blocks and rest are xs, the blocks are whole, the rest is not. */
  lemma {:induction false} ReblockKeeps(size: nat, xs: seq<Sample>)
    requires size > 0
    ensures var (bs, rest) := Reblock(size, xs);
      Flatten(bs) + rest == xs && (forall b | b in bs :: |b| == size) && |rest| < size
  {
    if |xs| >= size {
      ReblockKeeps(size, xs[size..]);
      var (bs, rest) := Reblock(size, xs[size..]);
      FlattenFirst(xs[..size], bs, rest);
    }
  }

  /** The canceller's output for consecutive blocks, the first of which is its n-th call. */
  function Clean(apm: Canceller, n: nat, bs: seq<seq<Sample>>): seq<Sample> {
    if bs == [] then []
    else Clean(apm, n, bs[..|bs| - 1]) + apm(n + |bs| - 1, bs[|bs| - 1])
  }

  function AsCancelled(bs: seq<seq<Sample>>): seq<Effect> {
    if bs == [] then [] else AsCancelled(bs[..|bs| - 1]) + [Cancelled(bs[|bs| - 1])]
  }

  lemma ReblockOne(size: nat, all: seq<Sample>, off: nat, done: seq<seq<Sample>>)
    requires size > 0 && off + size <= |all|
    ensures Reblock(size, all[off..]).1 == Reblock(size, all[off + size..]).1
    ensures done + Reblock(size, all[off..]).0 == (done + [all[off..off + size]]) + Reblock(size, all[off + size..]).0
  {
    assert all[off..][..size] == all[off..off + size] && all[off..][size..] == all[off + size..];
  }

  lemma NoBlocksYet(size: nat, all: seq<Sample>)
    requires size > 0
    ensures all[0..] == all && Reblock(size, all).0 == [] + Reblock(size, all).0
  {
  }

  lemma LastBlock(size: nat, all: seq<Sample>, off: nat, done: seq<seq<Sample>>)
    requires size > 0 && off <= |all| && |all| - off < size
    ensures done + Reblock(size, all[off..]).0 == done && Reblock(size, all[off..]).1 == all[off..]
  {
  }

  lemma AddBlock(apm: Canceller, n: nat, bs: seq<seq<Sample>>, b: seq<Sample>)
    ensures Clean(apm, n, bs + [b]) == Clean(apm, n, bs) + apm(n + |bs|, b)
    ensures AsCancelled(bs + [b]) == AsCancelled(bs) + [Cancelled(b)]
  {
    assert (bs + [b])[..|bs|] == bs;
  }

  function MutedStep(s: State, x: Frame): (State, seq<Effect>) {
    if s.prevMuted then (s, [])
    else
      var (e, o) := E.ForceEndpoint(s.endpointer, x.at);
      if o == E.SpeechEnded then
        (s.(endpointer := e, inSpeech := false, prevMuted := true), [Published(SpeechEnded(x.at))])
      else (s.(endpointer := e, prevMuted := true), [])
  }

  /** The echo canceller stage: the samples that go on, and the calls made. */
  function CancelStep(cfg: Config, apm: Canceller, s: State, x: Frame): (State, seq<Sample>, seq<Effect>)
    requires BlockSize(cfg) > 0
  {
    if x.aec then
      var (bs, rest) := Reblock(BlockSize(cfg), s.carry + x.resampled);
      (s.(carry := rest, calls := s.calls + |bs|), Clean(apm, s.calls, bs), AsCancelled(bs))
    else (s, x.resampled, [])
  }

  /** The wake-word gate, which closes an utterance when its window runs out. */
  function GateStep(cfg: Config, s: State, x: Frame): (State, bool) {
    if !cfg.wakeWord then (s, true)
    else
      var s1 := if x.hit then s.(gateStamp := x.at) else s;
      var open := s1.gateStamp != 0 && x.at - s1.gateStamp <= cfg.followupMs * NS_PER_MS;
      if s.gateWasOpen && !open then
        (s1.(endpointer := E.ForceEndpoint(s1.endpointer, x.at).0, inSpeech := false, gateWasOpen := open), open)
      else (s1.(gateWasOpen := open), open)
  }

  function Square(v: int): nat {
    v * v
  }

  function SumOfSquares(xs: seq<Sample>): nat {
    if xs == [] then 0 else SumOfSquares(xs[..|xs| - 1]) + Square(xs[|xs| - 1])
  }

  /** Root mean square below the minimum, without the root. */
  predicate TooQuiet(minRms: nat, xs: seq<Sample>) {
    minRms > 0 && xs != [] && SumOfSquares(xs) < minRms * minRms * |xs|
  }

  function FrameMs(cfg: Config, samples: seq<Sample>): nat
    requires cfg.rate > 0
  {
    |samples| * 1000 / cfg.rate
  }

  function OnStarted(cfg: Config, x: Frame, samples: seq<Sample>): seq<Effect> {
    var replay := if x.prePad != [] then [Streamed(x.prePad), Streamed(samples)] else [Streamed(samples)];
    [BufferStarted(x.at - cfg.prePaddingMs * NS_PER_MS, x.at)]
    + (if cfg.liveSink then replay else []) + [Published(SpeechStarted(x.at))]
  }

  /** There is a slice, and it is loud enough to be announced. */
  predicate Ready(cfg: Config, x: Frame) {
    x.slice.Some? && !TooQuiet(cfg.minRms, x.slice.value)
  }

  function OnEnded(cfg: Config, x: Frame): seq<Effect> {
    [BufferEnded(x.at), Published(SpeechEnded(x.at))]
    + if Ready(cfg, x) then [Published(UtteranceReady(x.slice.value))] else []
  }

  /** The endpointer's verdict and its consequences. */
  function JudgeStep(cfg: Config, s: State, x: Frame, samples: seq<Sample>): (State, seq<Effect>)
    requires cfg.rate > 0
  {
    var p := if x.p.Some? then x.p.value else s.lastP;
    var (e, o) := E.OnFrame(s.endpointer, p, FrameMs(cfg, samples), x.at);
    var s1 := s.(endpointer := e, lastP := p);
    match o
    case Nothing => (s1, [])
    case FalseStart => (s1.(falseStarts := s.falseStarts + 1), [FalseStart])
    case SpeechStarted => (s1.(inSpeech := true), OnStarted(cfg, x, samples))
    case SpeechEnded =>
      (s1.(inSpeech := false, utterances := s.utterances + (if Ready(cfg, x) then 1 else 0),
           lowRmsDrops := s.lowRmsDrops + (if x.slice.Some? && !Ready(cfg, x) then 1 else 0)),
       OnEnded(cfg, x))
  }

  function DownstreamStep(cfg: Config, s: State, x: Frame, samples: seq<Sample>): (State, seq<Effect>)
    requires cfg.rate > 0
  {
    var (s1, open) := GateStep(cfg, s, x);
    if !open then (s1, [Appended(samples)])
    else
      var streamed := if s1.inSpeech && cfg.liveSink then [Streamed(samples)] else [];
      var (s2, after) := JudgeStep(cfg, s1, x, samples);
      (s2, [Appended(samples)] + streamed + after)
  }

  function FrameStep(cfg: Config, apm: Canceller, s: State, x: Frame): (State, seq<Effect>)
    requires BlockSize(cfg) > 0
  {
    if x.muted then MutedStep(s, x)
    else if x.resampled == [] then (s.(prevMuted := false), [])
    else
      var (s1, samples, calls) := CancelStep(cfg, apm, s.(prevMuted := false), x);
      if samples == [] then (s1, calls)
      else
        var (s2, effects) := DownstreamStep(cfg, s1, x, samples);
        (s2, calls + effects)
  }

  function Step(cfg: Config, apm: Canceller, s: State, x: Input): (State, seq<Effect>)
    requires BlockSize(cfg) > 0
  {
    match x
    case Captured(frame) => FrameStep(cfg, apm, s, frame)
    case Retune(onset, offset, hangover) =>
      (s.(endpointer := E.Step(s.endpointer, E.Retune(onset, offset, hangover)).0), [])
  }

  function Run(cfg: Config, apm: Canceller, xs: seq<Input>): State
    requires BlockSize(cfg) > 0
  {
    if xs == [] then Initial(cfg) else Step(cfg, apm, Run(cfg, apm, xs[..|xs| - 1]), xs[|xs| - 1]).0
  }

  class AudioPipeline {
    const cfg: Config
    const apm: Canceller
    const endpointer: E.Endpointer
    var inSpeech: bool
    var prevMuted: bool
    var carry: seq<Sample>
    var calls: nat
    var gateStamp: int
    var gateWasOpen: bool
    var lastP: real
    var falseStarts: nat
    var utterances: nat
    var lowRmsDrops: nat

    ghost function Now(): State
      reads this, endpointer
    {
      State(endpointer.Now(), inSpeech, prevMuted, carry, calls, gateStamp, gateWasOpen, lastP,
            falseStarts, utterances, lowRmsDrops)
    }

    constructor (cfg: Config, apm: Canceller)
      requires BlockSize(cfg) > 0
      ensures this.cfg == cfg && this.apm == apm && fresh(endpointer) && Now() == Initial(cfg)
    {
      this.cfg, this.apm := cfg, apm;
      endpointer := new E.Endpointer(cfg.endpointer);
      inSpeech, prevMuted, carry, calls, gateStamp, gateWasOpen, lastP := false, false, [], 0, 0, false, 0.0;
      falseStarts, utterances, lowRmsDrops := 0, 0, 0;
    }

    /** process_frame; the calls it makes are returned in order. */
    method ProcessFrame(x: Frame) returns (made: seq<Effect>)
      requires BlockSize(cfg) > 0
      modifies this, endpointer
      ensures (Now(), made) == FrameStep(cfg, apm, old(Now()), x)
    {
      made := [];
      if x.muted {
        if !prevMuted {
          var o := endpointer.ForceEnd(x.at);
          if o == E.SpeechEnded {
            made := [Published(SpeechEnded(x.at))];
            inSpeech := false;
          }
        }
        prevMuted := true;
        return;
      }
      prevMuted := false;
      if x.resampled == [] {
        return;
      }
      var samples := x.resampled;
      if x.aec {
        samples, made := Cancel(x.resampled);
      }
      if samples == [] {
        return;
      }
      var more := Downstream(x, samples);
      made := made + more;
    }

    /** Re-blocks the carry and the new samples, and calls the canceller block by block. */
    method Cancel(resampled: seq<Sample>) returns (cleaned: seq<Sample>, made: seq<Effect>)
      requires BlockSize(cfg) > 0
      modifies this`carry, this`calls
      ensures var (bs, rest) := Reblock(BlockSize(cfg), old(carry) + resampled);
        && carry == rest && calls == old(calls) + |bs| && cleaned == Clean(apm, old(calls), bs)
        && made == AsCancelled(bs)
    {
      var size := BlockSize(cfg);
      var all := carry + resampled;
      var off := 0;
      cleaned, made := [], [];
      ghost var done: seq<seq<Sample>> := [];
      NoBlocksYet(size, all);
      while |all| - off >= size
        invariant off <= |all| && |done| + old(calls) == calls
        invariant Reblock(size, all).0 == done + Reblock(size, all[off..]).0
        invariant Reblock(size, all).1 == Reblock(size, all[off..]).1
        invariant cleaned == Clean(apm, old(calls), done)
        invariant made == AsCancelled(done)
      {
        var chunk := all[off..off + size];
        ReblockOne(size, all, off, done);
        AddBlock(apm, old(calls), done, chunk);
        made := made + [Cancelled(chunk)];
        cleaned := cleaned + apm(calls, chunk);
        calls := calls + 1;
        done := done + [chunk];
        off := off + size;
      }
      LastBlock(size, all, off, done);
      carry := all[off..];
    }

    /** From the always-on append to the end. */
    method Downstream(x: Frame, samples: seq<Sample>) returns (made: seq<Effect>)
      requires cfg.rate > 0
      modifies this, endpointer
      ensures (Now(), made) == DownstreamStep(cfg, old(Now()), x, samples)
      ensures carry == old(carry) && calls == old(calls)
    {
      made := [Appended(samples)];
      var open := Gate(x);
      if !open {
        return;
      }
      var streamed := [];
      if inSpeech && cfg.liveSink {
        streamed := [Streamed(samples)];
      }
      var more := Judge(x, samples);
      made := made + streamed + more;
    }

    method Gate(x: Frame) returns (open: bool)
      modifies this`gateStamp, this`gateWasOpen, this`inSpeech, endpointer
      ensures (Now(), open) == GateStep(cfg, old(Now()), x)
    {
      open := true;
      if cfg.wakeWord {
        if x.hit {
          gateStamp := x.at;
        }
        open := gateStamp != 0 && x.at - gateStamp <= cfg.followupMs * NS_PER_MS;
        if gateWasOpen && !open {
          var _ := endpointer.ForceEnd(x.at);
          inSpeech := false;
        }
        gateWasOpen := open;
      }
    }

    method Judge(x: Frame, samples: seq<Sample>) returns (made: seq<Effect>)
      requires cfg.rate > 0
      modifies this`lastP, this`inSpeech, this`falseStarts, this`utterances, this`lowRmsDrops, endpointer
      ensures (Now(), made) == JudgeStep(cfg, old(Now()), x, samples)
    {
      if x.p.Some? {
        lastP := x.p.value;
      }
      var o := endpointer.HandleFrame(lastP, |samples| * 1000 / cfg.rate, x.at);
      made := [];
      match o {
        case Nothing =>
        case FalseStart =>
          falseStarts := falseStarts + 1;
          made := [FalseStart];
        case SpeechStarted =>
          inSpeech := true;
          made := StartCalls(x, samples);
        case SpeechEnded =>
          inSpeech := false;
          made := EndCalls(x);
      }
    }

    /** The buffer adopts, the pre-padding and the frame are replayed, then the start is published. */
    method StartCalls(x: Frame, samples: seq<Sample>) returns (made: seq<Effect>)
      ensures made == OnStarted(cfg, x, samples)
    {
      made := [BufferStarted(x.at - cfg.prePaddingMs * NS_PER_MS, x.at)];
      if cfg.liveSink {
        if x.prePad != [] {
          made := made + [Streamed(x.prePad)];
        }
        made := made + [Streamed(samples)];
      }
      made := made + [Published(SpeechStarted(x.at))];
    }

    method EndCalls(x: Frame) returns (made: seq<Effect>)
      modifies this`utterances, this`lowRmsDrops
      ensures made == OnEnded(cfg, x)
      ensures utterances == old(utterances) + (if Ready(cfg, x) then 1 else 0)
      ensures lowRmsDrops == old(lowRmsDrops) + (if x.slice.Some? && !Ready(cfg, x) then 1 else 0)
    {
      made := [BufferEnded(x.at), Published(SpeechEnded(x.at))];
      if x.slice.Some? {
        var drop := DropLowRms(x.slice.value);
        if drop {
          lowRmsDrops := lowRmsDrops + 1;
        } else {
          utterances := utterances + 1;
          made := made + [Published(UtteranceReady(x.slice.value))];
        }
      }
    }

    method DropLowRms(samples: seq<Sample>) returns (drop: bool)
      ensures drop == TooQuiet(cfg.minRms, samples)
    {
      drop := false;
      if cfg.minRms > 0 && samples != [] {
        var sum: nat := 0;
        var i := 0;
        while i < |samples|
          invariant i <= |samples| && sum == SumOfSquares(samples[..i])
        {
          assert samples[..i + 1][..i] == samples[..i];
          sum := sum + Square(samples[i]);
          i := i + 1;
        }
        assert samples[..i] == samples;
        drop := sum < cfg.minRms * cfg.minRms * |samples|;
      }
    }
  }
}
